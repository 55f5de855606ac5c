/** The AI keep/filter pass (app/services/ai_filter_service.py): the
    configuration singleton, the guard chain, the bulk reset of
    `is_ai_filtered`, and the marking of the loaded articles against the
    ids the model says to keep. The chat call and the JSON decoder are
    oracles; the newest-100 query is a parameter. */
module AiFilterService {
  import opened Common
  import opened Store
  import A = AiService

  // ---------------------------------------------------------------------------
  // Configuration

  /** `get_ai_filter_config`: the singleton, created disabled with an empty
      prompt and auto-apply on when missing. */
  method GetAiFilterConfig(db: Db) returns (cfg: AIFilterConfig)
    modifies db
    ensures cfg == old(db.aiFilterConfig).GetOr(DEFAULT_AI_FILTER_CONFIG)
    ensures db.aiFilterConfig == Some(cfg)
    ensures db.Tables() == old(db.Tables())
    ensures db.webhookConfig == old(db.webhookConfig) && db.aiSettings == old(db.aiSettings)
  {
    if db.aiFilterConfig.None? {
      db.aiFilterConfig := Some(DEFAULT_AI_FILTER_CONFIG);
    }
    cfg := db.aiFilterConfig.value;
  }

  /** The keyword arguments of `save_ai_filter_config`; None leaves a field. */
  datatype FilterConfigUpdate = FilterConfigUpdate(enabled: Option<bool>, filterPrompt: Option<string>, autoApply: Option<bool>)

  function ApplyFilterUpdate(cfg: AIFilterConfig, u: FilterConfigUpdate): (r: AIFilterConfig)
    ensures r.enabled == (if u.enabled.Some? then u.enabled.value else cfg.enabled)
    ensures r.filterPrompt == (if u.filterPrompt.Some? then u.filterPrompt else cfg.filterPrompt)
    ensures r.autoApply == (if u.autoApply.Some? then u.autoApply.value else cfg.autoApply)
  {
    AIFilterConfig(
      if u.enabled.Some? then u.enabled.value else cfg.enabled,
      if u.filterPrompt.Some? then u.filterPrompt else cfg.filterPrompt,
      if u.autoApply.Some? then u.autoApply.value else cfg.autoApply)
  }

  /** Applying an update twice is applying it once; an empty update is the
      identity. */
  lemma ApplyFilterUpdateIdempotent(cfg: AIFilterConfig, u: FilterConfigUpdate)
    ensures ApplyFilterUpdate(ApplyFilterUpdate(cfg, u), u) == ApplyFilterUpdate(cfg, u)
    ensures ApplyFilterUpdate(cfg, FilterConfigUpdate(None, None, None)) == cfg
  {
  }

  /** `save_ai_filter_config`. */
  method SaveAiFilterConfig(db: Db, u: FilterConfigUpdate) returns (cfg: AIFilterConfig)
    modifies db
    ensures cfg == ApplyFilterUpdate(old(db.aiFilterConfig).GetOr(DEFAULT_AI_FILTER_CONFIG), u)
    ensures db.aiFilterConfig == Some(cfg)
    ensures db.Tables() == old(db.Tables())
    ensures db.webhookConfig == old(db.webhookConfig) && db.aiSettings == old(db.aiSettings)
  {
    var current := GetAiFilterConfig(db);
    cfg := ApplyFilterUpdate(current, u);
    db.aiFilterConfig := Some(cfg);
  }

  // ---------------------------------------------------------------------------
  // The prompt

  const RULES_HEAD := "请根据以下筛选规则判断每篇文章是否符合要求。\n\n筛选规则（保留符合这些规则的文章，不符合的标记为过滤）：\n"
  const LIST_HEAD := "\n\n文章列表：\n"
  const PROMPT_FOOT := "请按以下 JSON 格式返回需要保留的文章ID列表（即符合筛选条件的文章），只返回ID列表，不要其他内容：\n{\"keep_ids\": [文章ID列表]}\n\n只返回符合筛选条件的文章ID，这些文章将保留在主列表中。其他文章将被标记为AI过滤。如果都符合条件则返回全部ID。"
  const DESCRIPTION_LIMIT := 200
  const NO_DESCRIPTION := "无"
  const FILTER_DEFAULT_MODEL := "glm-4"

  /** The description shown for an article: its first 200 characters, or
      "无" when it has none. */
  function PromptDescription(a: Article): (r: string)
    ensures r != []
    ensures Truthy(a.description) ==> r == PyPrefix(a.description.value, DESCRIPTION_LIMIT)
  {
    if Truthy(a.description) then PyPrefix(a.description.value, DESCRIPTION_LIMIT) else NO_DESCRIPTION
  }

  /** The numbered entry of one article. */
  function PromptLine(n: nat, a: Article): (r: string)
    ensures OccursAt(r, DecimalString(n), 0)
  {
    var num := DecimalString(n);
    var r := num + ". 标题：" + a.title + "\n   描述：" + PromptDescription(a) + "\n\n";
    assert r[..|num|] == num;
    r
  }

  /** The entries of `arts`, numbered from `start`. */
  function PromptLines(arts: seq<Article>, start: nat): (r: string)
    ensures arts != [] ==> OccursAt(r, PromptLine(start, arts[0]), 0)
    decreases |arts|
  {
    if arts == [] then ""
    else
      var first := PromptLine(start, arts[0]);
      var r := first + PromptLines(arts[1..], start + 1);
      assert r[..|first|] == first;
      r
  }

  /** The user prompt: the rules verbatim, then one entry per loaded
      article numbered from 1, then the answer format. */
  function FilterPrompt(rules: string, arts: seq<Article>): (r: string)
    ensures OccursAt(r, rules, |RULES_HEAD|)
    ensures OccursAt(r, PromptLines(arts, 1), |RULES_HEAD| + |rules| + |LIST_HEAD|)
  {
    var lines := PromptLines(arts, 1);
    var r := RULES_HEAD + rules + LIST_HEAD + lines + PROMPT_FOOT;
    assert r[|RULES_HEAD|..|RULES_HEAD| + |rules|] == rules;
    assert r[|RULES_HEAD| + |rules| + |LIST_HEAD|..|RULES_HEAD| + |rules| + |LIST_HEAD| + |lines|] == lines;
    r
  }

  // ---------------------------------------------------------------------------
  // Reading the answer

  /** Index of the first `c` in `s`. */
  function FirstIndex(s: string, c: char): (r: Option<nat>)
    ensures r.Some? ==> r.value < |s| && s[r.value] == c && c !in s[..r.value]
    ensures r.None? ==> c !in s
    decreases |s|
  {
    if s == [] then None
    else if s[0] == c then Some(0)
    else
      match FirstIndex(s[1..], c)
      case None => None
      case Some(i) =>
        assert s[..i + 1] == [s[0]] + s[1..][..i];
        Some(i + 1)
  }

  /** Index of the last `c` in `s`. */
  function LastIndex(s: string, c: char): (r: Option<nat>)
    ensures r.Some? ==> r.value < |s| && s[r.value] == c && c !in s[r.value + 1..]
    ensures r.None? ==> c !in s
    decreases |s|
  {
    if s == [] then None
    else if s[|s| - 1] == c then Some(|s| - 1)
    else
      match LastIndex(s[..|s| - 1], c)
      case None => None
      case Some(i) =>
        assert s[i + 1..] == s[..|s| - 1][i + 1..] + [s[|s| - 1]];
        Some(i)
  }

  /** `re.search(r'\{.*\}', text, re.DOTALL)`: the greedy match runs from
      the first `{` to the last `}` after it. */
  function BraceSpan(text: string): (r: Option<string>)
    ensures r.Some? ==> |r.value| >= 2 && r.value[0] == '{' && r.value[|r.value| - 1] == '}'
    ensures r.None? ==> forall i, j :: 0 <= i < j < |text| && text[i] == '{' ==> text[j] != '}'
  {
    match (FirstIndex(text, '{'), LastIndex(text, '}'))
    case (Some(i), Some(j)) =>
      if i < j then Some(text[i..j + 1])
      else
        assert forall p, q :: 0 <= p < q < |text| && text[p] == '{' ==> text[q] != '}' by {
          forall p, q | 0 <= p < q < |text| && text[p] == '{' ensures text[q] != '}' {
            if q > j { assert text[j + 1..][q - j - 1] == text[q]; }
          }
        }
        None
    case (None, _) =>
      assert forall p :: 0 <= p < |text| ==> text[p] != '{';
      None
    case (_, None) =>
      assert forall q :: 0 <= q < |text| ==> text[q] != '}';
      None
  }

  /** `{int(id) for id in keep_ids if str(id).isdigit()}` given the `str()`
      of each listed value. */
  function KeepSet(items: seq<string>): (r: set<int>)
    ensures forall x :: x in r <==> exists k :: 0 <= k < |items| && AllDigits(items[k]) && DigitsValue(items[k]) == x
    decreases |items|
  {
    if items == [] then {}
    else
      var init := KeepSet(items[..|items| - 1]);
      var last := items[|items| - 1];
      assert forall k :: 0 <= k < |items| - 1 ==> items[..|items| - 1][k] == items[k];
      if AllDigits(last) then init + {DigitsValue(last)} else init
  }

  /** The keep set of an answer: empty without a `{...}` span; None where
      decoding the span raises. `decode` yields the `str()` of each
      `keep_ids` entry, or None when `json.loads` fails. */
  function KeepIds(text: string, decode: string -> Option<seq<string>>): (r: Option<set<int>>)
    ensures BraceSpan(text).None? ==> r == Some({})
    ensures BraceSpan(text).Some? ==> (r.None? <==> decode(BraceSpan(text).value).None?)
  {
    match BraceSpan(text)
    case None => Some({})
    case Some(span) =>
      match decode(span)
      case None => None
      case Some(items) => Some(KeepSet(items))
  }

  // ---------------------------------------------------------------------------
  // The pass

  /** The bulk `UPDATE articles SET is_ai_filtered = false`. */
  function ResetAll(rows: seq<Article>): (r: seq<Article>)
    ensures |r| == |rows|
    ensures forall i :: 0 <= i < |rows| ==> r[i] == rows[i].(isAiFiltered := false)
  {
    seq(|rows|, i requires 0 <= i < |rows| => rows[i].(isAiFiltered := false))
  }

  /** The intended marking: every loaded row flagged exactly when its id is
      not kept, written in load order. What the code's commit stores instead
      is `FlushChanged` below. */
  function Marked(rows: seq<Article>, loaded: seq<nat>, keep: set<int>): (r: seq<Article>)
    requires forall k :: 0 <= k < |loaded| ==> loaded[k] < |rows|
    ensures |r| == |rows|
    decreases |loaded|
  {
    if loaded == [] then rows
    else
      var p := loaded[|loaded| - 1];
      Marked(rows, loaded[..|loaded| - 1], keep)[p := rows[p].(isAiFiltered := rows[p].id !in keep)]
  }

  /** Row by row: a loaded row carries the keep decision, any other row is
      as it was. */
  lemma {:induction false} MarkedAt(rows: seq<Article>, loaded: seq<nat>, keep: set<int>, i: int)
    requires forall k :: 0 <= k < |loaded| ==> loaded[k] < |rows|
    requires 0 <= i < |rows|
    ensures Marked(rows, loaded, keep)[i] == if i in loaded then rows[i].(isAiFiltered := rows[i].id !in keep) else rows[i]
    decreases |loaded|
  {
    if loaded != [] {
      var init := loaded[..|loaded| - 1];
      MarkedAt(rows, init, keep, i);
      assert loaded == init + [loaded[|loaded| - 1]];
    }
  }

  /** The commit as the session performs it. The bulk reset is a Core
      statement, so the loaded objects keep their pre-reset flags (`stale`),
      and the flush writes a flag only where the assigned value differs from
      the loaded one; elsewhere the row keeps what the reset stored. */
  function FlushChanged(stored: seq<Article>, stale: seq<Article>, loaded: seq<nat>, keep: set<int>): (r: seq<Article>)
    requires |stale| == |stored|
    requires forall k :: 0 <= k < |loaded| ==> loaded[k] < |stored|
    ensures |r| == |stored|
    decreases |loaded|
  {
    if loaded == [] then stored
    else
      var p := loaded[|loaded| - 1];
      var rest := FlushChanged(stored, stale, loaded[..|loaded| - 1], keep);
      var v := stale[p].id !in keep;
      if v == stale[p].isAiFiltered then rest else rest[p := rest[p].(isAiFiltered := v)]
  }

  /** Row by row: a loaded row whose assigned flag differs from its loaded
      flag is written, every other row keeps its stored value. */
  lemma {:induction false} FlushChangedAt(stored: seq<Article>, stale: seq<Article>, loaded: seq<nat>, keep: set<int>, i: int)
    requires |stale| == |stored|
    requires forall k :: 0 <= k < |loaded| ==> loaded[k] < |stored|
    requires 0 <= i < |stored|
    ensures FlushChanged(stored, stale, loaded, keep)[i] ==
      if i in loaded && (stale[i].id !in keep) != stale[i].isAiFiltered
      then stored[i].(isAiFiltered := stale[i].id !in keep) else stored[i]
    decreases |loaded|
  {
    if loaded != [] {
      var init := loaded[..|loaded| - 1];
      FlushChangedAt(stored, stale, init, keep, i);
      assert loaded == init + [loaded[|loaded| - 1]];
    }
  }

  /** As written, after the reset and the flush a row is flagged exactly when
      it was loaded, is not kept, and was not flagged when loaded: exactly the
      rows `filtered_count` counts. A loaded row that was flagged and is not
      kept ends unflagged. */
  lemma AsWrittenStoresCounted(rows0: seq<Article>, loaded: seq<nat>, keep: set<int>, i: int)
    requires forall k :: 0 <= k < |loaded| ==> loaded[k] < |rows0|
    requires 0 <= i < |rows0|
    ensures var after := FlushChanged(ResetAll(rows0), rows0, loaded, keep);
      && after[i].(isAiFiltered := rows0[i].isAiFiltered) == rows0[i]
      && (after[i].isAiFiltered <==> i in loaded && rows0[i].id !in keep && !rows0[i].isAiFiltered)
  {
    FlushChangedAt(ResetAll(rows0), rows0, loaded, keep, i);
  }

  /** One loaded article, already flagged, and an answer that keeps nothing:
      the code as written leaves it unflagged, the intended marking leaves it
      flagged, and neither counts it. Run again on the same answer, the code
      as written flags it again, so the flag alternates between runs. */
  lemma AsWrittenDropsFlag(a: Article)
    requires a.isAiFiltered
    ensures FlushChanged(ResetAll([a]), [a], [0], {}) == [a.(isAiFiltered := false)]
    ensures FlushChanged(ResetAll([a.(isAiFiltered := false)]), [a.(isAiFiltered := false)], [0], {}) == [a]
    ensures Marked(ResetAll([a]), [0], {}) == [a]
    ensures NewlyFiltered([a], [0], {}) == 0
  {
    var b := a.(isAiFiltered := false);
    assert ResetAll([a]) == [b];
    assert ResetAll([b]) == [b];
    assert [0][..0] == [];
  }

  /** `filtered_count`: loaded articles that are not kept and whose loaded
      (pre-reset) flag was false. */
  function NewlyFiltered(rows0: seq<Article>, loaded: seq<nat>, keep: set<int>): (n: nat)
    requires forall k :: 0 <= k < |loaded| ==> loaded[k] < |rows0|
    ensures n <= |loaded|
    decreases |loaded|
  {
    if loaded == [] then 0
    else
      var a := rows0[loaded[|loaded| - 1]];
      NewlyFiltered(rows0, loaded[..|loaded| - 1], keep) + (if a.id !in keep && !a.isAiFiltered then 1 else 0)
  }

  datatype FilterResult =
    | Skipped          // "skipped": the pass is disabled
    | NoPrompt         // "error": blank filter prompt
    | NoClient         // "error": no API key
    | NoArticles       // "success" with filtered_count 0
    | Filtered(count: nat)
    | Failed           // "error": the model call or the decoding raised

  /** The loaded articles, in load order. */
  function LoadedRows(rows: seq<Article>, loaded: seq<nat>): (r: seq<Article>)
    requires forall k :: 0 <= k < |loaded| ==> loaded[k] < |rows|
    ensures |r| == |loaded| && forall k :: 0 <= k < |loaded| ==> r[k] == rows[loaded[k]]
  {
    seq(|loaded|, k requires 0 <= k < |loaded| => rows[loaded[k]])
  }

  /** What the pass returns and the article table it leaves, given the
      configuration row, the AI settings row and the loaded positions. */
  function FilterPass(cfg: AIFilterConfig, rec: AISettingsRecord, env: AppSettings, rows: seq<Article>, loaded: seq<nat>,
                      ai: (string, string) -> A.AiReply, decode: string -> Option<seq<string>>): (FilterResult, seq<Article>)
    requires forall k :: 0 <= k < |loaded| ==> loaded[k] < |rows|
  {
    if !cfg.enabled then (Skipped, rows)
    else if !Truthy(cfg.filterPrompt) || Strip(cfg.filterPrompt.value) == [] then (NoPrompt, rows)
    else if A.ApiKey(rec, env) == [] then (NoClient, rows)
    else if loaded == [] then (NoArticles, ResetAll(rows))
    else
      var reply := ai(OrElse(rec.model, FILTER_DEFAULT_MODEL), FilterPrompt(cfg.filterPrompt.value, LoadedRows(rows, loaded)));
      if !reply.Completion? then (Failed, ResetAll(rows))
      else
        match KeepIds(reply.text, decode)
        case None => (Failed, ResetAll(rows))
        case Some(keep) => (Filtered(NewlyFiltered(rows, loaded, keep)), Marked(ResetAll(rows), loaded, keep))
  }

  /** The guard chain: a disabled pass, a blank prompt or a missing key
      returns before any article is touched. */
  lemma FilterPassGuards(cfg: AIFilterConfig, rec: AISettingsRecord, env: AppSettings, rows: seq<Article>, loaded: seq<nat>,
                         ai: (string, string) -> A.AiReply, decode: string -> Option<seq<string>>)
    requires forall k :: 0 <= k < |loaded| ==> loaded[k] < |rows|
    ensures var (r, after) := FilterPass(cfg, rec, env, rows, loaded, ai, decode);
      && (!cfg.enabled ==> r == Skipped)
      && (cfg.enabled && (!Truthy(cfg.filterPrompt) || AllSpace(cfg.filterPrompt.value)) ==> r == NoPrompt)
      && (cfg.enabled && Truthy(cfg.filterPrompt) && !AllSpace(cfg.filterPrompt.value) && A.ApiKey(rec, env) == [] ==> r == NoClient)
      && (r.Skipped? || r.NoPrompt? || r.NoClient? ==> after == rows)
  {
    StripShape(cfg.filterPrompt.GetOr(""));
  }

  /** Once past the guards, every article outside the loaded ones ends
      unflagged; after a success a loaded one is flagged exactly when its
      id was not kept, and after a failure none is flagged. */
  lemma FilterPassFlags(cfg: AIFilterConfig, rec: AISettingsRecord, env: AppSettings, rows: seq<Article>, loaded: seq<nat>,
                        ai: (string, string) -> A.AiReply, decode: string -> Option<seq<string>>, i: int)
    requires forall k :: 0 <= k < |loaded| ==> loaded[k] < |rows|
    requires 0 <= i < |rows|
    requires var r := FilterPass(cfg, rec, env, rows, loaded, ai, decode).0; r.NoArticles? || r.Filtered? || r.Failed?
    ensures var (r, after) := FilterPass(cfg, rec, env, rows, loaded, ai, decode);
      && |after| == |rows|
      && after[i].(isAiFiltered := rows[i].isAiFiltered) == rows[i]
      && (i !in loaded || !r.Filtered? ==> !after[i].isAiFiltered)
      && (r.Filtered? && i in loaded ==> (after[i].isAiFiltered <==> exists keep: set<int> ::
            KeepIds(ai(OrElse(rec.model, FILTER_DEFAULT_MODEL), FilterPrompt(cfg.filterPrompt.value, LoadedRows(rows, loaded))).text, decode) == Some(keep) &&
            rows[i].id !in keep))
  {
    var r := FilterPass(cfg, rec, env, rows, loaded, ai, decode).0;
    if r.Filtered? {
      var reply := ai(OrElse(rec.model, FILTER_DEFAULT_MODEL), FilterPrompt(cfg.filterPrompt.value, LoadedRows(rows, loaded)));
      var keep := KeepIds(reply.text, decode).value;
      MarkedAt(ResetAll(rows), loaded, keep, i);
    }
  }

  /** The pass gets as far as building the AI client (and so reads, or
      creates, the AI settings row): enabled, with a non-blank prompt. */
  predicate ReachesClient(cfg: AIFilterConfig) {
    cfg.enabled && Truthy(cfg.filterPrompt) && Strip(cfg.filterPrompt.value) != []
  }

  /** `filter_articles_by_ai`, with the intended marking (`Marked`) as the
      stored result; `AsWrittenDropsFlag` shows where the code's commit
      differs. `loaded` are the positions the newest-100 query returns. */
  method FilterArticlesByAi(db: Db, env: AppSettings, loaded: seq<nat>,
                            ai: (string, string) -> A.AiReply, decode: string -> Option<seq<string>>)
    returns (r: FilterResult)
    requires db.Valid()
    requires |loaded| <= 100
    requires forall k :: 0 <= k < |loaded| ==> loaded[k] < |db.articles|
    requires forall k, l :: 0 <= k < l < |loaded| ==> loaded[k] != loaded[l]
    modifies db
    ensures db.Valid()
    ensures (r, db.articles) == FilterPass(old(db.aiFilterConfig).GetOr(DEFAULT_AI_FILTER_CONFIG),
      old(db.aiSettings).GetOr(DEFAULT_AI_SETTINGS), env, old(db.articles), loaded, ai, decode)
    ensures db.aiSettings == if ReachesClient(old(db.aiFilterConfig).GetOr(DEFAULT_AI_FILTER_CONFIG))
                             then Some(old(db.aiSettings).GetOr(DEFAULT_AI_SETTINGS)) else old(db.aiSettings)
    ensures db.nextArticleId == old(db.nextArticleId) && db.sources == old(db.sources)
    ensures db.keywords == old(db.keywords)
    ensures db.webhookConfig == old(db.webhookConfig)
    ensures db.aiFilterConfig == Some(old(db.aiFilterConfig).GetOr(DEFAULT_AI_FILTER_CONFIG))
  {
    var cfg := GetAiFilterConfig(db);
    if !cfg.enabled {
      return Skipped;
    }
    if !Truthy(cfg.filterPrompt) || Strip(cfg.filterPrompt.value) == [] {
      return NoPrompt;
    }
    var rec := A.GetAiSettings(db);
    if A.ApiKey(rec, env) == [] {
      return NoClient;
    }
    var rows := db.articles;
    var arts := LoadedRows(rows, loaded);
    ResetKeepsValid(db);
    if loaded == [] {
      return NoArticles;
    }
    var reply := ai(OrElse(rec.model, FILTER_DEFAULT_MODEL), FilterPrompt(cfg.filterPrompt.value, arts));
    if !reply.Completion? {
      return Failed;
    }
    var keep := KeepIds(reply.text, decode);
    if keep.None? {
      return Failed;
    }
    var count := MarkLoaded(db, rows, loaded, arts, keep.value);
    r := Filtered(count);
  }

  /** `run_ai_filter`: the pass, after which the configuration row exists.
      The `last_run` stamp is a clock reading and is not part of the row here. */
  method RunAiFilter(db: Db, env: AppSettings, loaded: seq<nat>,
                     ai: (string, string) -> A.AiReply, decode: string -> Option<seq<string>>)
    returns (r: FilterResult)
    requires db.Valid()
    requires |loaded| <= 100
    requires forall k :: 0 <= k < |loaded| ==> loaded[k] < |db.articles|
    requires forall k, l :: 0 <= k < l < |loaded| ==> loaded[k] != loaded[l]
    modifies db
    ensures db.Valid()
    ensures (r, db.articles) == FilterPass(old(db.aiFilterConfig).GetOr(DEFAULT_AI_FILTER_CONFIG),
      old(db.aiSettings).GetOr(DEFAULT_AI_SETTINGS), env, old(db.articles), loaded, ai, decode)
    ensures db.aiSettings == if ReachesClient(old(db.aiFilterConfig).GetOr(DEFAULT_AI_FILTER_CONFIG))
                             then Some(old(db.aiSettings).GetOr(DEFAULT_AI_SETTINGS)) else old(db.aiSettings)
    ensures db.aiFilterConfig == Some(old(db.aiFilterConfig).GetOr(DEFAULT_AI_FILTER_CONFIG))
    ensures db.nextArticleId == old(db.nextArticleId) && db.sources == old(db.sources)
    ensures db.keywords == old(db.keywords)
    ensures db.webhookConfig == old(db.webhookConfig)
  {
    r := FilterArticlesByAi(db, env, loaded, ai, decode);
    var cfg := GetAiFilterConfig(db);
  }

  /** The bulk reset, which changes only flags. */
  method ResetKeepsValid(db: Db)
    requires db.Valid()
    modifies db
    ensures db.Valid() && db.articles == ResetAll(old(db.articles))
    ensures db.nextArticleId == old(db.nextArticleId) && db.sources == old(db.sources)
    ensures db.keywords == old(db.keywords)
    ensures db.webhookConfig == old(db.webhookConfig) && db.aiSettings == old(db.aiSettings)
    ensures db.aiFilterConfig == old(db.aiFilterConfig)
  {
    WriteFlags(db, ResetAll(db.articles));
  }

  /** The commit of an article table that differs from the stored one in
      `is_ai_filtered` flags only. */
  method WriteFlags(db: Db, rows: seq<Article>)
    requires db.Valid() && |rows| == |db.articles|
    requires forall i :: 0 <= i < |rows| ==> rows[i].(isAiFiltered := db.articles[i].isAiFiltered) == db.articles[i]
    modifies db
    ensures db.Valid() && db.articles == rows
    ensures db.nextArticleId == old(db.nextArticleId) && db.sources == old(db.sources)
    ensures db.keywords == old(db.keywords)
    ensures db.webhookConfig == old(db.webhookConfig) && db.aiSettings == old(db.aiSettings)
    ensures db.aiFilterConfig == old(db.aiFilterConfig)
  {
    assert forall i :: 0 <= i < |rows| ==>
      rows[i].id == db.articles[i].id && rows[i].sourceId == db.articles[i].sourceId && rows[i].guid == db.articles[i].guid;
    db.articles := rows;
  }

  /** The marking loop over the loaded articles, reading each one's flag as
      it was loaded; the session is committed once at the end. */
  method MarkLoaded(db: Db, ghost rows0: seq<Article>, loaded: seq<nat>, arts: seq<Article>, keep: set<int>)
    returns (count: nat)
    requires db.Valid() && db.articles == ResetAll(rows0)
    requires forall k :: 0 <= k < |loaded| ==> loaded[k] < |rows0|
    requires |arts| == |loaded| && forall k :: 0 <= k < |loaded| ==> arts[k] == rows0[loaded[k]]
    modifies db
    ensures db.Valid()
    ensures db.articles == Marked(ResetAll(rows0), loaded, keep)
    ensures count == NewlyFiltered(rows0, loaded, keep)
    ensures db.nextArticleId == old(db.nextArticleId) && db.sources == old(db.sources)
    ensures db.keywords == old(db.keywords)
    ensures db.webhookConfig == old(db.webhookConfig) && db.aiSettings == old(db.aiSettings)
    ensures db.aiFilterConfig == old(db.aiFilterConfig)
  {
    ghost var reset := db.articles;
    var rows := db.articles;
    count := 0;
    var j := 0;
    while j < |loaded|
      invariant 0 <= j <= |loaded|
      invariant rows == Marked(reset, loaded[..j], keep)
      invariant count == NewlyFiltered(rows0, loaded[..j], keep)
    {
      var p := loaded[j];
      var a := arts[j];
      assert loaded[..j + 1][..j] == loaded[..j] && loaded[..j + 1][j] == p;
      if a.id in keep {
        rows := rows[p := a.(isAiFiltered := false)];
      } else {
        if !a.isAiFiltered {
          count := count + 1;
        }
        rows := rows[p := a.(isAiFiltered := true)];
      }
      j := j + 1;
    }
    assert loaded[..j] == loaded;
    forall i | 0 <= i < |rows|
      ensures rows[i].(isAiFiltered := reset[i].isAiFiltered) == reset[i]
    {
      MarkedAt(reset, loaded, keep, i);
    }
    WriteFlags(db, rows);
  }

  /** Positions among the first `n` loaded whose loaded flag was false. */
  ghost function Unflagged(rows0: seq<Article>, loaded: seq<nat>, n: nat): set<int>
    requires n <= |loaded|
    requires forall k :: 0 <= k < |loaded| ==> loaded[k] < |rows0|
  {
    set k | 0 <= k < n && !rows0[loaded[k]].isAiFiltered
  }

  /** With nothing to keep (no `{...}` in the answer), every loaded article
      is flagged and the count is the number that were not flagged before. */
  lemma NothingKept(rows0: seq<Article>, loaded: seq<nat>)
    requires forall k :: 0 <= k < |loaded| ==> loaded[k] < |rows0|
    ensures NewlyFiltered(rows0, loaded, {}) == |set k | 0 <= k < |loaded| && !rows0[loaded[k]].isAiFiltered|
  {
    NothingKeptUpTo(rows0, loaded, |loaded|);
    assert loaded[..|loaded|] == loaded;
  }

  /** The same count over the first `n` loaded articles. */
  lemma {:induction false} NothingKeptUpTo(rows0: seq<Article>, loaded: seq<nat>, n: nat)
    requires n <= |loaded|
    requires forall k :: 0 <= k < |loaded| ==> loaded[k] < |rows0|
    ensures NewlyFiltered(rows0, loaded[..n], {}) == |Unflagged(rows0, loaded, n)|
  {
    if n > 0 {
      NothingKeptUpTo(rows0, loaded, n - 1);
      NewlyFilteredStep(rows0, loaded, n);
      UnflaggedStep(rows0, loaded, n);
    }
  }

  /** One more loaded article adds one to the count when it was unflagged. */
  lemma NewlyFilteredStep(rows0: seq<Article>, loaded: seq<nat>, n: nat)
    requires 0 < n <= |loaded|
    requires forall k :: 0 <= k < |loaded| ==> loaded[k] < |rows0|
    ensures NewlyFiltered(rows0, loaded[..n], {}) ==
            NewlyFiltered(rows0, loaded[..n - 1], {}) + (if rows0[loaded[n - 1]].isAiFiltered then 0 else 1)
  {
    assert loaded[..n][..n - 1] == loaded[..n - 1];
  }

  /** One more position adds itself to the unflagged ones when it was
      unflagged. */
  lemma UnflaggedStep(rows0: seq<Article>, loaded: seq<nat>, n: nat)
    requires 0 < n <= |loaded|
    requires forall k :: 0 <= k < |loaded| ==> loaded[k] < |rows0|
    ensures |Unflagged(rows0, loaded, n)| == |Unflagged(rows0, loaded, n - 1)| + (if rows0[loaded[n - 1]].isAiFiltered then 0 else 1)
  {
    var before, after := Unflagged(rows0, loaded, n - 1), Unflagged(rows0, loaded, n);
    if rows0[loaded[n - 1]].isAiFiltered {
      assert after == before;
    } else {
      assert after == before + {n - 1};
    }
  }
}
