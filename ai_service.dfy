/** The summariser (app/services/ai_service.py): text and prompt truncation,
    the settings singleton with its fallbacks, post-processing of a summary,
    the mapping of API failures, and the single and batch summarisation
    passes over the article table. The chat-completion call is an oracle. */
module AiService {
  import opened Common
  import opened Store

  // ---------------------------------------------------------------------------
  // truncate_text and generate_summary_prompt

  const DEFAULT_TRUNCATE := 8000
  const PROMPT_CONTENT_LIMIT := 4000

  function TruncateText(text: string, maxChars: int): (r: string)
    ensures |r| <= |text| && r == text[..|r|]
    ensures |text| <= maxChars ==> r == text
    ensures maxChars >= 0 ==> |r| == (if |text| <= maxChars then |text| else maxChars)
  {
    if |text| <= maxChars then text else PyPrefix(text, maxChars)
  }

  /** Truncating twice to the same non-negative bound is truncating once. */
  lemma TruncateTextIdempotent(text: string, maxChars: nat)
    ensures TruncateText(TruncateText(text, maxChars), maxChars) == TruncateText(text, maxChars)
  {
  }

  const PROMPT_HEAD := "\n请用中文简洁地总结以下文章，摘要字数控制在 100 字以内：\n\n标题："
  const PROMPT_MID := "\n\n内容：\n"
  const PROMPT_TAIL := "\n\n请直接输出摘要，不需要任何前缀或格式。\n"

  /** The prompt embeds the title and at most the first 4000 characters of
      the content, each at a fixed place. */
  function SummaryPrompt(title: string, content: string): (r: string)
    ensures OccursAt(r, title, |PROMPT_HEAD|)
    ensures OccursAt(r, TruncateText(content, PROMPT_CONTENT_LIMIT), |PROMPT_HEAD| + |title| + |PROMPT_MID|)
    ensures |r| == |PROMPT_HEAD| + |title| + |PROMPT_MID| + |PROMPT_TAIL| +
      (if |content| <= PROMPT_CONTENT_LIMIT then |content| else PROMPT_CONTENT_LIMIT)
  {
    var body := TruncateText(content, PROMPT_CONTENT_LIMIT);
    var r := PROMPT_HEAD + title + PROMPT_MID + body + PROMPT_TAIL;
    assert r[|PROMPT_HEAD|..|PROMPT_HEAD| + |title|] == title;
    assert r[|PROMPT_HEAD| + |title| + |PROMPT_MID|..|PROMPT_HEAD| + |title| + |PROMPT_MID| + |body|] == body;
    r
  }

  /** Only the first 4000 characters of the content reach the model. */
  lemma SummaryPromptPrefix(title: string, c1: string, c2: string)
    requires PyPrefix(c1, PROMPT_CONTENT_LIMIT) == PyPrefix(c2, PROMPT_CONTENT_LIMIT)
    ensures SummaryPrompt(title, c1) == SummaryPrompt(title, c2)
  {
    assert TruncateText(c1, PROMPT_CONTENT_LIMIT) == PyPrefix(c1, PROMPT_CONTENT_LIMIT);
    assert TruncateText(c2, PROMPT_CONTENT_LIMIT) == PyPrefix(c2, PROMPT_CONTENT_LIMIT);
  }

  // ---------------------------------------------------------------------------
  // Settings fallbacks

  const DEFAULT_MODEL := "glm-4"
  const DEFAULT_MAX_LENGTH := 100

  /** `ai_settings.model or settings.AI_MODEL or "glm-4"`. */
  function ModelName(rec: AISettingsRecord, env: AppSettings): (r: string)
    ensures r != []
    ensures Truthy(rec.model) ==> r == rec.model.value
    ensures !Truthy(rec.model) && env.aiModel != [] ==> r == env.aiModel
  {
    OrElse(rec.model, OrElse(Some(env.aiModel), DEFAULT_MODEL))
  }

  /** `ai_settings.max_summary_length or settings.MAX_SUMMARY_LENGTH or 100`,
      where 0 and None are falsy. */
  function MaxLength(rec: AISettingsRecord, env: AppSettings): (r: int)
    ensures r != 0
    ensures rec.maxSummaryLength.Some? && rec.maxSummaryLength.value != 0 ==> r == rec.maxSummaryLength.value
    ensures (rec.maxSummaryLength.None? || rec.maxSummaryLength.value == 0) && env.maxSummaryLength != 0 ==>
      r == env.maxSummaryLength
  {
    if rec.maxSummaryLength.Some? && rec.maxSummaryLength.value != 0 then rec.maxSummaryLength.value
    else if env.maxSummaryLength != 0 then env.maxSummaryLength
    else DEFAULT_MAX_LENGTH
  }

  /** `ai_settings.api_key or settings.ZHIPUAI_API_KEY or settings.OPENAI_API_KEY`. */
  function ApiKey(rec: AISettingsRecord, env: AppSettings): (r: string)
    ensures r == [] <==> !Truthy(rec.apiKey) && env.zhipuaiApiKey == [] && env.openaiApiKey == []
  {
    OrElse(rec.apiKey, OrElse(Some(env.zhipuaiApiKey), env.openaiApiKey))
  }

  function BaseUrl(rec: AISettingsRecord): (r: string)
    ensures r != []
    ensures Truthy(rec.baseUrl) ==> r == rec.baseUrl.value
  {
    OrElse(rec.baseUrl, ZHIPUAI_BASE_URL)
  }

  datatype AiConfig = AiConfig(model: string, maxSummaryLength: int, baseUrl: string, hasApiKey: bool, enabled: Option<bool>)

  /** `get_ai_config` on the settings record. */
  function GetAiConfig(rec: AISettingsRecord, env: AppSettings): (c: AiConfig)
    ensures c.model != [] && c.maxSummaryLength != 0 && c.baseUrl != []
    ensures c.hasApiKey <==> Truthy(rec.apiKey) || env.zhipuaiApiKey != [] || env.openaiApiKey != []
    ensures c.enabled == rec.enabled
  {
    AiConfig(ModelName(rec, env), MaxLength(rec, env), BaseUrl(rec), ApiKey(rec, env) != [], rec.enabled)
  }

  /** A freshly created settings row under the default environment reports
      glm-4, 100 characters, the Zhipu endpoint and no key. */
  lemma DefaultAiConfig()
    ensures GetAiConfig(DEFAULT_AI_SETTINGS, DEFAULT_SETTINGS) ==
      AiConfig("glm-4", 100, ZHIPUAI_BASE_URL, false, Some(true))
  {
  }

  /** `get_ai_settings`: the singleton row, created with its defaults when missing. */
  method GetAiSettings(db: Db) returns (rec: AISettingsRecord)
    modifies db
    ensures rec == old(db.aiSettings).GetOr(DEFAULT_AI_SETTINGS)
    ensures db.aiSettings == Some(rec)
    ensures db.Tables() == old(db.Tables())
    ensures db.webhookConfig == old(db.webhookConfig) && db.aiFilterConfig == old(db.aiFilterConfig)
  {
    if db.aiSettings.None? {
      db.aiSettings := Some(DEFAULT_AI_SETTINGS);
    }
    rec := db.aiSettings.value;
  }

  // ---------------------------------------------------------------------------
  // save_ai_settings

  /** The arguments of `save_ai_settings`; None means "leave unchanged". */
  datatype AiSettingsUpdate = AiSettingsUpdate(
    apiKey: Option<string>,
    baseUrl: Option<string>,
    model: Option<string>,
    maxSummaryLength: Option<int>,
    enabled: Option<bool>)

  /** A blank base URL is stored as None, any other trimmed. */
  function CleanBaseUrl(u: string): (r: Option<string>)
    ensures r.None? <==> AllSpace(u)
    ensures r.Some? ==> r.value == Strip(u) && Strip(r.value) == r.value
  {
    StripShape(u);
    StripIdempotent(u);
    if Strip(u) != [] then Some(Strip(u)) else None
  }

  function ApplyAiUpdate(rec: AISettingsRecord, u: AiSettingsUpdate): (r: AISettingsRecord)
    ensures u.apiKey.Some? ==> r.apiKey == u.apiKey
    ensures u.apiKey.None? ==> r.apiKey == rec.apiKey
    ensures u.baseUrl.Some? ==> r.baseUrl == CleanBaseUrl(u.baseUrl.value)
    ensures u.baseUrl.None? ==> r.baseUrl == rec.baseUrl
    ensures u.model.Some? ==> r.model == u.model
    ensures u.model.None? ==> r.model == rec.model
    ensures u.maxSummaryLength.Some? ==> r.maxSummaryLength == u.maxSummaryLength
    ensures u.maxSummaryLength.None? ==> r.maxSummaryLength == rec.maxSummaryLength
    ensures u.enabled.Some? ==> r.enabled == u.enabled
    ensures u.enabled.None? ==> r.enabled == rec.enabled
  {
    AISettingsRecord(
      if u.apiKey.Some? then u.apiKey else rec.apiKey,
      if u.baseUrl.Some? then CleanBaseUrl(u.baseUrl.value) else rec.baseUrl,
      if u.model.Some? then u.model else rec.model,
      if u.maxSummaryLength.Some? then u.maxSummaryLength else rec.maxSummaryLength,
      if u.enabled.Some? then u.enabled else rec.enabled)
  }

  /** Saving the same settings twice is saving them once; an empty update
      changes nothing. */
  lemma ApplyAiUpdateIdempotent(rec: AISettingsRecord, u: AiSettingsUpdate)
    ensures ApplyAiUpdate(ApplyAiUpdate(rec, u), u) == ApplyAiUpdate(rec, u)
    ensures ApplyAiUpdate(rec, AiSettingsUpdate(None, None, None, None, None)) == rec
  {
  }

  /** `save_ai_settings`: assign each supplied field of the singleton. */
  method SaveAiSettings(db: Db, u: AiSettingsUpdate) returns (rec: AISettingsRecord)
    modifies db
    ensures rec == ApplyAiUpdate(old(db.aiSettings).GetOr(DEFAULT_AI_SETTINGS), u)
    ensures db.aiSettings == Some(rec)
    ensures db.Tables() == old(db.Tables())
    ensures db.webhookConfig == old(db.webhookConfig) && db.aiFilterConfig == old(db.aiFilterConfig)
  {
    rec := GetAiSettings(db);
    if u.apiKey.Some? {
      rec := rec.(apiKey := u.apiKey);
    }
    if u.baseUrl.Some? {
      var trimmed := Strip(u.baseUrl.value);
      rec := rec.(baseUrl := if trimmed != [] then Some(trimmed) else None);
    }
    if u.model.Some? {
      rec := rec.(model := u.model);
    }
    if u.maxSummaryLength.Some? {
      rec := rec.(maxSummaryLength := u.maxSummaryLength);
    }
    if u.enabled.Some? {
      rec := rec.(enabled := u.enabled);
    }
    db.aiSettings := Some(rec);
  }

  // ---------------------------------------------------------------------------
  // summarize_article_async

  /** What the chat-completion call did, given the model name and the prompt:
      a reply text, the client's rate-limit error, an httpx timeout, another
      API error, or an exception of any other kind. */
  datatype AiReply = Completion(text: string) | RateLimited | HttpTimeout | ApiFailure | Unexpected

  datatype AiError = APIKeyMissingError | APIRateLimitError | APITimeoutError | APIGenericError | Unhandled

  /** The errors the callers catch as AISummaryError. */
  predicate IsSummaryError(e: AiError) {
    !e.Unhandled?
  }

  const ELLIPSIS := "..."
  const LENGTH_SLACK := 50

  /** A summary more than 50 characters over the limit is cut to the limit
      and marked with an ellipsis. */
  function PostProcess(summary: string, maxLength: int): (r: string)
    ensures |summary| <= maxLength + LENGTH_SLACK ==> r == summary
    ensures |summary| > maxLength + LENGTH_SLACK ==>
      r == PyPrefix(summary, maxLength) + ELLIPSIS
    ensures maxLength >= 0 ==> |r| <= maxLength + LENGTH_SLACK
  {
    if |summary| > maxLength + LENGTH_SLACK then PyPrefix(summary, maxLength) + ELLIPSIS else summary
  }

  /** For a non-negative limit the post-processed summary is left alone by a
      second pass. */
  lemma PostProcessStable(summary: string, maxLength: nat)
    ensures PostProcess(PostProcess(summary, maxLength), maxLength) == PostProcess(summary, maxLength)
  {
  }

  /** The outcome of one summarisation once a client exists. */
  function SummaryOutcome(rec: AISettingsRecord, env: AppSettings, title: string, content: string,
                          ai: (string, string) -> AiReply): (r: Result<string, AiError>)
    ensures r.Err? ==> r.error != APIKeyMissingError
    ensures r.Ok? ==> MaxLength(rec, env) >= 0 ==> |r.value| <= MaxLength(rec, env) + LENGTH_SLACK
    ensures r.Ok? <==> ai(ModelName(rec, env), SummaryPrompt(title, content)).Completion?
  {
    match ai(ModelName(rec, env), SummaryPrompt(title, content))
    case Completion(text) => Ok(PostProcess(Strip(text), MaxLength(rec, env)))
    case RateLimited => Err(APIRateLimitError)
    case HttpTimeout => Err(APITimeoutError)
    case ApiFailure => Err(APIGenericError)
    case Unexpected => Err(Unhandled)
  }

  /** `summarize_article_async`, where `clientGiven` says whether the caller
      passed a client. Without one, a missing key raises before the call. */
  function Summarize(rec: AISettingsRecord, env: AppSettings, title: string, content: string, clientGiven: bool,
                     ai: (string, string) -> AiReply): (r: Result<string, AiError>)
    ensures r == Err(APIKeyMissingError) <==> !clientGiven && ApiKey(rec, env) == []
  {
    if !clientGiven && ApiKey(rec, env) == [] then Err(APIKeyMissingError)
    else SummaryOutcome(rec, env, title, content, ai)
  }

  method SummarizeArticleAsync(db: Db, env: AppSettings, title: string, content: string, clientGiven: bool,
                               ai: (string, string) -> AiReply) returns (r: Result<string, AiError>)
    modifies db
    ensures r == Summarize(old(db.aiSettings).GetOr(DEFAULT_AI_SETTINGS), env, title, content, clientGiven, ai)
    ensures db.aiSettings == Some(old(db.aiSettings).GetOr(DEFAULT_AI_SETTINGS))
    ensures db.Tables() == old(db.Tables())
    ensures db.webhookConfig == old(db.webhookConfig) && db.aiFilterConfig == old(db.aiFilterConfig)
  {
    if !clientGiven {
      var rec0 := GetAiSettings(db);
      if ApiKey(rec0, env) == [] {
        return Err(APIKeyMissingError);
      }
    }
    var rec := GetAiSettings(db);
    var reply := ai(ModelName(rec, env), SummaryPrompt(title, content));
    match reply
    case Completion(text) =>
      r := Ok(PostProcess(Strip(text), MaxLength(rec, env)));
    case RateLimited =>
      r := Err(APIRateLimitError);
    case HttpTimeout =>
      r := Err(APITimeoutError);
    case ApiFailure =>
      r := Err(APIGenericError);
    case Unexpected =>
      r := Err(Unhandled);
  }

  // ---------------------------------------------------------------------------
  // summarize_single_article

  const MIN_SINGLE_CONTENT := 50
  const MIN_BATCH_CONTENT := 50

  /** Index of the article with id `id`, if any. */
  function FindArticle(rows: seq<Article>, id: int): (r: Option<nat>)
    ensures r.Some? ==> r.value < |rows| && rows[r.value].id == id
    ensures r.None? ==> forall i :: 0 <= i < |rows| ==> rows[i].id != id
    decreases |rows|
  {
    if rows == [] then None
    else if rows[|rows| - 1].id == id then Some(|rows| - 1)
    else FindArticle(rows[..|rows| - 1], id)
  }

  /** The row with its summary recorded. */
  function WithSummary(a: Article, summary: string): (r: Article)
    ensures r.hasSummary && r.summary == Some(summary)
    ensures r.title == a.title && r.content == a.content && r.id == a.id
  {
    a.(summary := Some(summary), hasSummary := true)
  }

  /** `summarize_single_article`. Ok(None) is a `None` return; an Err is an
      exception other than AISummaryError escaping to the caller. */
  method SummarizeSingleArticle(db: Db, env: AppSettings, articleId: int, ai: (string, string) -> AiReply)
    returns (r: Result<Option<string>, AiError>)
    requires db.Valid()
    modifies db
    ensures db.Valid()
    ensures FindArticle(old(db.articles), articleId).None? ==> r == Ok(None) && db.articles == old(db.articles)
    ensures FindArticle(old(db.articles), articleId).Some? ==>
      var i := FindArticle(old(db.articles), articleId).value;
      var a := old(db.articles)[i];
      var out := Summarize(old(db.aiSettings).GetOr(DEFAULT_AI_SETTINGS), env, a.title, a.content.GetOr(""), false, ai);
      if a.hasSummary then r == Ok(a.summary) && db.articles == old(db.articles)
      else if !Truthy(a.content) || |a.content.value| < MIN_SINGLE_CONTENT then r == Ok(None) && db.articles == old(db.articles)
      else
        && (out.Ok? ==> r == Ok(Some(out.value)))
        && (out.Err? ==> r == if IsSummaryError(out.error) then Ok(None) else Err(out.error))
        && db.articles == if out.Ok? && out.value != [] then old(db.articles)[i := WithSummary(a, out.value)] else old(db.articles)
    ensures db.aiSettings ==
      var f := FindArticle(old(db.articles), articleId);
      if f.Some? && !old(db.articles)[f.value].hasSummary && Truthy(old(db.articles)[f.value].content) &&
         |old(db.articles)[f.value].content.value| >= MIN_SINGLE_CONTENT
      then Some(old(db.aiSettings).GetOr(DEFAULT_AI_SETTINGS)) else old(db.aiSettings)
    ensures db.nextArticleId == old(db.nextArticleId) && db.sources == old(db.sources)
    ensures db.keywords == old(db.keywords)
    ensures db.webhookConfig == old(db.webhookConfig) && db.aiFilterConfig == old(db.aiFilterConfig)
  {
    var found := FindArticle(db.articles, articleId);
    if found.None? {
      return Ok(None);
    }
    var i := found.value;
    var a := db.articles[i];
    if a.hasSummary {
      return Ok(a.summary);
    }
    if !Truthy(a.content) || |a.content.value| < MIN_SINGLE_CONTENT {
      return Ok(None);
    }
    var out := SummarizeArticleAsync(db, env, a.title, a.content.value, false, ai);
    if out.Err? {
      if IsSummaryError(out.error) {
        return Ok(None);
      }
      return Err(out.error);
    }
    if out.value != [] {
      SetArticle(db, i, WithSummary(a, out.value));
    }
    r := Ok(Some(out.value));
  }

  /** Replaces row `i` of the article table by a row with the same id,
      source and guid. */
  method SetArticle(db: Db, i: int, a: Article)
    requires db.Valid() && 0 <= i < |db.articles|
    requires a.id == db.articles[i].id && a.sourceId == db.articles[i].sourceId && a.guid == db.articles[i].guid
    modifies db
    ensures db.Valid()
    ensures db.articles == old(db.articles)[i := a]
    ensures db.nextArticleId == old(db.nextArticleId) && db.sources == old(db.sources)
    ensures db.keywords == old(db.keywords)
    ensures db.webhookConfig == old(db.webhookConfig) && db.aiSettings == old(db.aiSettings)
    ensures db.aiFilterConfig == old(db.aiFilterConfig)
  {
    db.articles := db.articles[i := a];
  }

  // ---------------------------------------------------------------------------
  // summarize_articles_batch

  /** The batch's filter: no summary yet and more than 50 characters of content. */
  predicate BatchEligible(a: Article) {
    !a.hasSummary && Truthy(a.content) && |a.content.value| > MIN_BATCH_CONTENT
  }

  /** The positions of the listed articles the batch will summarise, in list order. */
  function EligiblePositions(rows: seq<Article>, batch: seq<nat>): (r: seq<nat>)
    requires forall k :: 0 <= k < |batch| ==> batch[k] < |rows|
    ensures |r| <= |batch|
    ensures forall k :: 0 <= k < |r| ==> r[k] < |rows| && BatchEligible(rows[r[k]])
    ensures forall k :: 0 <= k < |batch| && BatchEligible(rows[batch[k]]) ==> batch[k] in r
    ensures forall p :: p in r ==> p in batch
    decreases |batch|
  {
    if batch == [] then []
    else
      var init := EligiblePositions(rows, batch[..|batch| - 1]);
      var p := batch[|batch| - 1];
      assert forall k :: 0 <= k < |batch| - 1 ==> batch[..|batch| - 1][k] == batch[k];
      if BatchEligible(rows[p]) then init + [p] else init
  }

  /** The summary the batch obtains for a row (the client is passed in). */
  function BatchOutcome(rec: AISettingsRecord, env: AppSettings, a: Article, ai: (string, string) -> AiReply): Result<string, AiError> {
    SummaryOutcome(rec, env, a.title, a.content.GetOr(""), ai)
  }

  predicate Summarised(rec: AISettingsRecord, env: AppSettings, a: Article, ai: (string, string) -> AiReply) {
    BatchOutcome(rec, env, a, ai).Ok? && BatchOutcome(rec, env, a, ai).value != []
  }

  /** A row after the batch has been through it. */
  function AfterBatch(rec: AISettingsRecord, env: AppSettings, a: Article, ai: (string, string) -> AiReply): (r: Article)
    ensures r.title == a.title && r.content == a.content && r.id == a.id && r.sourceId == a.sourceId && r.guid == a.guid
    ensures Summarised(rec, env, a, ai) ==> r.hasSummary && r.summary == Some(BatchOutcome(rec, env, a, ai).value)
    ensures !Summarised(rec, env, a, ai) ==> r == a
  {
    if Summarised(rec, env, a, ai) then WithSummary(a, BatchOutcome(rec, env, a, ai).value) else a
  }

  /** How many of the positions get a non-empty summary. */
  function CountSummarised(rec: AISettingsRecord, env: AppSettings, rows: seq<Article>, ps: seq<nat>,
                           ai: (string, string) -> AiReply): (n: nat)
    requires forall k :: 0 <= k < |ps| ==> ps[k] < |rows|
    ensures n <= |ps|
    decreases |ps|
  {
    if ps == [] then 0
    else
      CountSummarised(rec, env, rows, ps[..|ps| - 1], ai) + (if Summarised(rec, env, rows[ps[|ps| - 1]], ai) then 1 else 0)
  }

  /** `summarize_articles_batch` over the listed positions of the article
      table: returns the number of listed eligible articles that received a
      non-empty summary; exactly those rows change. */
  method SummarizeArticlesBatch(db: Db, env: AppSettings, batch: seq<nat>, ai: (string, string) -> AiReply)
    returns (successCount: nat)
    requires db.Valid()
    requires forall k :: 0 <= k < |batch| ==> batch[k] < |db.articles|
    modifies db
    ensures db.Valid()
    ensures var el := EligiblePositions(old(db.articles), batch);
      var rec := old(db.aiSettings).GetOr(DEFAULT_AI_SETTINGS);
      if el == [] || ApiKey(rec, env) == [] then successCount == 0 && db.articles == old(db.articles)
      else
        && successCount == CountSummarised(rec, env, old(db.articles), el, ai)
        && |db.articles| == |old(db.articles)|
        && forall i :: 0 <= i < |db.articles| ==>
             db.articles[i] == if i in el then AfterBatch(rec, env, old(db.articles)[i], ai) else old(db.articles)[i]
    ensures db.aiSettings == if EligiblePositions(old(db.articles), batch) == [] then old(db.aiSettings)
                             else Some(old(db.aiSettings).GetOr(DEFAULT_AI_SETTINGS))
    ensures db.nextArticleId == old(db.nextArticleId) && db.sources == old(db.sources)
    ensures db.keywords == old(db.keywords)
    ensures db.webhookConfig == old(db.webhookConfig) && db.aiFilterConfig == old(db.aiFilterConfig)
  {
    var el := EligiblePositions(db.articles, batch);
    if el == [] {
      return 0;
    }
    var rec := GetAiSettings(db);
    if ApiKey(rec, env) == [] {
      return 0;
    }
    ghost var rows0 := db.articles;
    successCount := 0;
    var j := 0;
    while j < |el|
      invariant 0 <= j <= |el|
      invariant db.Valid()
      invariant db.aiSettings == Some(rec)
      invariant BatchDone(rec, env, rows0, db.articles, el[..j], ai)
      invariant successCount == CountSummarised(rec, env, rows0, el[..j], ai)
      invariant db.nextArticleId == old(db.nextArticleId) && db.sources == old(db.sources)
      invariant db.keywords == old(db.keywords)
      invariant db.webhookConfig == old(db.webhookConfig) && db.aiFilterConfig == old(db.aiFilterConfig)
    {
      successCount := SummarizeOne(db, env, rows0, el, j, rec, successCount, ai);
      j := j + 1;
    }
    assert el[..j] == el;
    assert BatchDone(rec, env, rows0, db.articles, el, ai);
  }

  /** The table after the batch has handled the positions in `done`. */
  ghost predicate BatchDone(rec: AISettingsRecord, env: AppSettings, rows0: seq<Article>, rows: seq<Article>,
                            done: seq<nat>, ai: (string, string) -> AiReply) {
    |rows| == |rows0| &&
    forall i :: 0 <= i < |rows0| ==> rows[i] == if i in done then AfterBatch(rec, env, rows0[i], ai) else rows0[i]
  }

  /** The batch's work on its `j`-th eligible article. */
  method SummarizeOne(db: Db, env: AppSettings, ghost rows0: seq<Article>, el: seq<nat>, j: int,
                      rec: AISettingsRecord, count: nat, ai: (string, string) -> AiReply)
    returns (count': nat)
    requires db.Valid() && db.aiSettings == Some(rec)
    requires 0 <= j < |el|
    requires forall k :: 0 <= k < |el| ==> el[k] < |rows0|
    requires BatchDone(rec, env, rows0, db.articles, el[..j], ai)
    requires count == CountSummarised(rec, env, rows0, el[..j], ai)
    modifies db
    ensures db.Valid() && db.aiSettings == Some(rec)
    ensures BatchDone(rec, env, rows0, db.articles, el[..j + 1], ai)
    ensures count' == CountSummarised(rec, env, rows0, el[..j + 1], ai)
    ensures db.nextArticleId == old(db.nextArticleId) && db.sources == old(db.sources)
    ensures db.keywords == old(db.keywords)
    ensures db.webhookConfig == old(db.webhookConfig) && db.aiFilterConfig == old(db.aiFilterConfig)
  {
    var p := el[j];
    var a := db.articles[p];
    ghost var rows := db.articles;
    BatchStep(rec, env, rows0, rows, el, j, ai);
    assert a == if p in el[..j] then AfterBatch(rec, env, rows0[p], ai) else rows0[p];
    var out := SummarizeArticleAsync(db, env, a.title, a.content.GetOr(""), true, ai);
    assert out == BatchOutcome(rec, env, rows0[p], ai);
    count' := count;
    if out.Ok? && out.value != [] {
      SetArticle(db, p, WithSummary(a, out.value));
      count' := count + 1;
    }
  }

  /** One more position handled: the row at `el[j]` gets its summary when
      the outcome is a non-empty text, and the count grows by one exactly
      then. */
  lemma BatchStep(rec: AISettingsRecord, env: AppSettings, rows0: seq<Article>, rows: seq<Article>,
                  el: seq<nat>, j: int, ai: (string, string) -> AiReply)
    requires 0 <= j < |el| && forall k :: 0 <= k < |el| ==> el[k] < |rows0|
    requires BatchDone(rec, env, rows0, rows, el[..j], ai)
    ensures var p := el[j];
      BatchDone(rec, env, rows0,
                if Summarised(rec, env, rows0[p], ai) then rows[p := WithSummary(rows[p], BatchOutcome(rec, env, rows0[p], ai).value)] else rows,
                el[..j + 1], ai)
    ensures CountSummarised(rec, env, rows0, el[..j + 1], ai) ==
      CountSummarised(rec, env, rows0, el[..j], ai) + (if Summarised(rec, env, rows0[el[j]], ai) then 1 else 0)
  {
    var p := el[j];
    assert el[..j + 1][..j] == el[..j] && el[..j + 1][j] == p;
    assert forall i :: i in el[..j + 1] <==> i in el[..j] || i == p;
  }

}
