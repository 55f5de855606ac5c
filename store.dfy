/** The persistent state the pipeline works on: one record type per table,
    the process settings (app/config.py), and the session that holds every
    table. Rows are values; the tables are fields of `Db` that the services
    reassign, the way the ORM mutates loaded rows.

    The records follow the files under app/models, with two additions the
    services assume but the models do not declare: the `is_ai_filtered`
    flag of an article and the AI filter configuration row
    (`AIFilterConfig`), whose fields are read off their use in
    app/services/ai_filter_service.py. */
module Store {
  import opened Common

  /** A point in time. `instant` orders timestamps; `utcOffset` is None for a
      naive datetime. */
  datatype DateTime = DateTime(instant: int, utcOffset: Option<int>)

  datatype Article = Article(
    id: int,
    sourceId: int,
    guid: string,
    title: string,
    link: string,
    description: Option<string>,
    content: Option<string>,
    author: Option<string>,
    publishedAt: Option<DateTime>,
    isFiltered: bool,
    hasSummary: bool,
    summary: Option<string>,
    isRead: bool,
    isFavorite: bool,
    isAiFiltered: bool)

  datatype Source = Source(
    id: int,
    name: string,
    url: string,
    enabled: bool,
    lastFetched: Option<DateTime>,
    fetchErrorCount: int)

  datatype KeywordRule = KeywordRule(id: int, keyword: string, enabled: bool, matchCount: int)

  datatype WebhookConfig = WebhookConfig(
    enabled: bool,
    url: Option<string>,
    platform: string,
    name: Option<string>,
    description: Option<string>,
    scheduleEnabled: bool,
    scheduleFrequency: string,
    scheduleTime: string,
    scheduleDayOfWeek: int,
    scheduleDayOfMonth: int,
    pushFavorites: bool,
    pushFiltered: bool)

  /** Column defaults of the webhook configuration row together with the
      values `get_or_create_webhook_config` passes explicitly. */
  const DEFAULT_WEBHOOK_CONFIG := WebhookConfig(
    false, None, "generic", None, None,
    false, "hourly", "09:00", 1, 1, true, false)

  datatype AISettingsRecord = AISettingsRecord(
    apiKey: Option<string>,
    baseUrl: Option<string>,
    model: Option<string>,
    maxSummaryLength: Option<int>,
    enabled: Option<bool>)

  const DEFAULT_AI_SETTINGS := AISettingsRecord(None, None, Some("glm-4"), Some(100), Some(true))

  datatype AIFilterConfig = AIFilterConfig(enabled: bool, filterPrompt: Option<string>, autoApply: bool)

  const DEFAULT_AI_FILTER_CONFIG := AIFilterConfig(false, Some(""), true)

  /** The process-wide settings object read from the environment. */
  datatype AppSettings = AppSettings(
    openaiApiKey: string,
    zhipuaiApiKey: string,
    aiModel: string,
    maxSummaryLength: int,
    fetchIntervalMinutes: int,
    webhookEnabled: bool,
    webhookUrl: string)

  const DEFAULT_SETTINGS := AppSettings("", "", "glm-4", 100, 60, false, "")

  const ZHIPUAI_BASE_URL := "https://open.bigmodel.cn/api/paas/v4"

  // ---------------------------------------------------------------------------
  // Table invariants

  /** Autoincrement ids: strictly increasing in table order, all below the
      next id to hand out. */
  ghost predicate ArticleIdsOk(rows: seq<Article>, next: int) {
    (forall i, j :: 0 <= i < j < |rows| ==> rows[i].id < rows[j].id) &&
    (forall i :: 0 <= i < |rows| ==> rows[i].id < next)
  }

  /** The natural key (source id, guid) identifies at most one article. */
  ghost predicate NaturalKeysUnique(rows: seq<Article>) {
    forall i, j :: 0 <= i < j < |rows| ==>
      (rows[i].sourceId, rows[i].guid) != (rows[j].sourceId, rows[j].guid)
  }

  ghost predicate SourceIdsUnique(rows: seq<Source>) {
    forall i, j :: 0 <= i < j < |rows| ==> rows[i].id != rows[j].id
  }

  /** Keyword rules have increasing ids, and their texts are normalised and
      pairwise distinct. */
  ghost predicate KeywordTableOk(ks: seq<KeywordRule>) {
    (forall i, j :: 0 <= i < j < |ks| ==> ks[i].id < ks[j].id) &&
    (forall i :: 0 <= i < |ks| ==> Normalize(ks[i].keyword) == ks[i].keyword) &&
    (forall i, j :: 0 <= i < j < |ks| ==> ks[i].keyword != ks[j].keyword)
  }

  /** The id SQLite gives a new keyword row. The table is declared without
      AUTOINCREMENT, so the new rowid is one more than the largest id present
      (1 for an empty table), and the id of a deleted top row is handed out
      again. */
  function NextKeywordId(ks: seq<KeywordRule>): (n: int)
    ensures forall i :: 0 <= i < |ks| ==> ks[i].id < n
    ensures ks == [] ==> n == 1
    ensures ks != [] ==> exists i :: 0 <= i < |ks| && n == ks[i].id + 1
    decreases |ks|
  {
    if ks == [] then 1
    else
      var m := NextKeywordId(ks[..|ks| - 1]);
      var last := ks[|ks| - 1].id + 1;
      if |ks| == 1 || m < last then last else m
  }

  function ArticleIds(rows: seq<Article>): (r: seq<int>)
    ensures |r| == |rows|
    ensures forall i :: 0 <= i < |rows| ==> r[i] == rows[i].id
  {
    seq(|rows|, i requires 0 <= i < |rows| => rows[i].id)
  }

  /** The database session: every table the core reads or writes. */
  class Db {
    var articles: seq<Article>
    var nextArticleId: int
    var sources: seq<Source>
    var keywords: seq<KeywordRule>
    var webhookConfig: Option<WebhookConfig>
    var aiSettings: Option<AISettingsRecord>
    var aiFilterConfig: Option<AIFilterConfig>

    ghost predicate Valid()
      reads this
    {
      ArticleIdsOk(articles, nextArticleId) &&
      NaturalKeysUnique(articles) &&
      SourceIdsUnique(sources) &&
      KeywordTableOk(keywords)
    }

    /** Every table, leaving out the configuration singletons. */
    ghost function Tables(): (seq<Article>, int, seq<Source>, seq<KeywordRule>)
      reads this
    {
      (articles, nextArticleId, sources, keywords)
    }

    constructor ()
      ensures Valid()
      ensures articles == [] && sources == [] && keywords == []
      ensures webhookConfig == None && aiSettings == None && aiFilterConfig == None
    {
      articles, nextArticleId := [], 1;
      sources := [];
      keywords := [];
      webhookConfig, aiSettings, aiFilterConfig := None, None, None;
    }
  }
}
