/** The webhook configuration routes (app/routes/webhook.py): the request
    validators, the singleton configuration row, the partial update that
    rebuilds the push schedule, the test notification and the two manual
    pushes. */
module WebhookRoutes {
  import opened Common
  import opened Store
  import opened Jobs
  import W = WebhookService
  import S = WebhookScheduler

  // ---------------------------------------------------------------------------
  // Request validation (the update body's field constraints)

  const PLATFORMS: set<string> := {"wecom", "dingtalk", "feishu", "feishu-card", "feishu-flow", "generic"}
  const FREQUENCIES: set<string> := {"hourly", "daily", "weekly", "monthly"}
  const MAX_URL_LENGTH := 500
  const MAX_NAME_LENGTH := 100

  /** `[01]?[0-9]|2[0-3]`: one digit, or two digits from 00 to 23. */
  predicate HourText(h: string) {
    (|h| == 1 && IsAsciiDigit(h[0])) ||
    (|h| == 2 && (((h[0] == '0' || h[0] == '1') && IsAsciiDigit(h[1])) || (h[0] == '2' && '0' <= h[1] <= '3')))
  }

  /** `[0-5][0-9]`. */
  predicate MinuteText(m: string) {
    |m| == 2 && '0' <= m[0] <= '5' && IsAsciiDigit(m[1])
  }

  /** The whole-string pattern `^([01]?[0-9]|2[0-3]):[0-5][0-9]$`: the
      minutes are always the last two characters, the colon before them. */
  predicate ValidTime(s: string) {
    |s| >= 4 && s[|s| - 3] == ':' && HourText(s[..|s| - 3]) && MinuteText(s[|s| - 2..])
  }

  /** A validated time parses, as the scheduler reads it, to an hour in
      0..23 and a minute in 0..59. */
  lemma ValidTimeParses(s: string)
    requires ValidTime(s)
    ensures ParseScheduleTimeOk(s)
  {
    var h, m := s[..|s| - 3], s[|s| - 2..];
    TimeColon(s);
    TimeSplits(s);
    DigitsParse(h);
    DigitsParse(m);
    HourValue(h);
    TwoDigits(m);
  }

  /** A valid time has no colon but the one before the minutes. */
  lemma TimeColon(s: string)
    requires ValidTime(s)
    ensures ':' !in s[..|s| - 3] && ':' !in s[|s| - 2..]
  {
    var h, m := s[..|s| - 3], s[|s| - 2..];
    assert ':' !in h by {
      assert forall i :: 0 <= i < |h| ==> IsAsciiDigit(h[i]);
    }
    assert ':' !in m by {
      assert forall i :: 0 <= i < |m| ==> IsAsciiDigit(m[i]);
    }
  }

  /** A time with one colon, three characters from the end, splits there
      into hours and minutes. */
  lemma TimeSplits(s: string)
    requires |s| >= 4 && s[|s| - 3] == ':'
    requires ':' !in s[..|s| - 3] && ':' !in s[|s| - 2..]
    ensures Split(s, ':') == [s[..|s| - 3], s[|s| - 2..]]
  {
    SplitTwo(s[..|s| - 3], s[|s| - 2..], ':');
    AroundIndex(s, |s| - 3);
  }

  /** A run of digits is read by `int()` as its value. */
  lemma DigitsParse(t: string)
    requires AllDigits(t)
    ensures ParseInt(t) == Some(DigitsValue(t))
  {
    StripNoop(t);
  }

  /** The parsed schedule time is a clock time. */
  predicate ParseScheduleTimeOk(s: string) {
    var p := S.ParseScheduleTime(s);
    p.Some? && 0 <= p.value.0 <= 23 && 0 <= p.value.1 <= 59
  }

  lemma TwoDigits(s: string)
    requires |s| == 2 && IsAsciiDigit(s[0]) && IsAsciiDigit(s[1])
    ensures DigitsValue(s) == (s[0] as int - '0' as int) * 10 + (s[1] as int - '0' as int)
  {
    var first := s[..1];
    assert first[..0] == [];
    assert DigitsValue(first) == s[0] as int - '0' as int;
    assert s[..|s| - 1] == first;
  }

  lemma HourValue(h: string)
    requires HourText(h)
    ensures DigitsValue(h) <= 23
  {
    if |h| == 1 {
      assert h[..0] == [];
    } else {
      TwoDigits(h);
    }
  }

  /** Every constraint the update body puts on the fields it carries. */
  predicate ValidUpdate(u: WebhookConfigUpdate) {
    (u.url.Some? ==> |u.url.value| <= MAX_URL_LENGTH) &&
    (u.platform.Some? ==> u.platform.value in PLATFORMS) &&
    (u.name.Some? ==> |u.name.value| <= MAX_NAME_LENGTH) &&
    (u.scheduleFrequency.Some? ==> u.scheduleFrequency.value in FREQUENCIES) &&
    (u.scheduleTime.Some? ==> ValidTime(u.scheduleTime.value)) &&
    (u.scheduleDayOfWeek.Some? ==> 1 <= u.scheduleDayOfWeek.value <= 7) &&
    (u.scheduleDayOfMonth.Some? ==> 1 <= u.scheduleDayOfMonth.value <= 28)
  }

  /** A schedule the validators would let through: known frequency, clock
      time, weekday 1..7, day of month 1..28. */
  predicate ScheduleOk(cfg: WebhookConfig) {
    cfg.scheduleFrequency in FREQUENCIES && ValidTime(cfg.scheduleTime) &&
    1 <= cfg.scheduleDayOfWeek <= 7 && 1 <= cfg.scheduleDayOfMonth <= 28
  }

  /** A validated schedule always yields a trigger, so switching it on
      always installs the push job. */
  lemma ScheduleOkTriggers(cfg: WebhookConfig)
    requires ScheduleOk(cfg)
    ensures S.DeriveTrigger(cfg).Some?
    ensures cfg.scheduleEnabled ==> S.ScheduledJob(Some(cfg)).Some?
  {
    ValidTimeParses(cfg.scheduleTime);
    var p := S.ParseScheduleTime(cfg.scheduleTime).value;
    if cfg.scheduleFrequency == "hourly" {
      S.HourlyTrigger(cfg);
    } else {
      S.CronTriggers(cfg, p.0, p.1);
    }
  }

  /** The row created on first access has a valid schedule. */
  lemma DefaultScheduleOk()
    ensures ScheduleOk(DEFAULT_WEBHOOK_CONFIG)
  {
    var t := DEFAULT_WEBHOOK_CONFIG.scheduleTime;
    assert t[..|t| - 3] == "09" && t[|t| - 2..] == "00";
  }

  // ---------------------------------------------------------------------------
  // get_or_create_webhook_config

  /** The stored row, or a fresh default one written first. */
  method GetOrCreateWebhookConfig(db: Db) returns (cfg: WebhookConfig)
    modifies db
    ensures old(db.webhookConfig).Some? ==> cfg == old(db.webhookConfig).value
    ensures old(db.webhookConfig).None? ==> cfg == DEFAULT_WEBHOOK_CONFIG
    ensures db.webhookConfig == Some(cfg)
    ensures db.Tables() == old(db.Tables())
    ensures db.aiSettings == old(db.aiSettings) && db.aiFilterConfig == old(db.aiFilterConfig)
  {
    if db.webhookConfig.None? {
      db.webhookConfig := Some(DEFAULT_WEBHOOK_CONFIG);
    }
    cfg := db.webhookConfig.value;
  }

  // ---------------------------------------------------------------------------
  // update_webhook_config

  /** The update body: every field optional, None meaning "leave as is". */
  datatype WebhookConfigUpdate = WebhookConfigUpdate(
    enabled: Option<bool>,
    url: Option<string>,
    platform: Option<string>,
    name: Option<string>,
    description: Option<string>,
    scheduleEnabled: Option<bool>,
    scheduleFrequency: Option<string>,
    scheduleTime: Option<string>,
    scheduleDayOfWeek: Option<int>,
    scheduleDayOfMonth: Option<int>,
    pushFavorites: Option<bool>,
    pushFiltered: Option<bool>)

  const EMPTY_UPDATE := WebhookConfigUpdate(None, None, None, None, None, None, None, None, None, None, None, None)

  /** `s.strip() if s.strip() else None`. */
  function TrimmedOrNone(s: string): (r: Option<string>)
    ensures r.None? <==> AllSpace(s)
    ensures r.Some? ==> r.value == Strip(s) && Strip(r.value) == r.value
  {
    StripShape(s);
    StripIdempotent(s);
    if Strip(s) == [] then None else Some(Strip(s))
  }

  function Pick<T>(given: Option<T>, current: T): T {
    if given.Some? then given.value else current
  }

  /** The three text fields are stored trimmed, a blank one as None. */
  function PickText(given: Option<string>, current: Option<string>): Option<string> {
    if given.Some? then TrimmedOrNone(given.value) else current
  }

  /** The route's field-by-field assignments. */
  function ApplyWebhookUpdate(cfg: WebhookConfig, u: WebhookConfigUpdate): WebhookConfig {
    WebhookConfig(
      Pick(u.enabled, cfg.enabled),
      PickText(u.url, cfg.url),
      Pick(u.platform, cfg.platform),
      PickText(u.name, cfg.name),
      PickText(u.description, cfg.description),
      Pick(u.scheduleEnabled, cfg.scheduleEnabled),
      Pick(u.scheduleFrequency, cfg.scheduleFrequency),
      Pick(u.scheduleTime, cfg.scheduleTime),
      Pick(u.scheduleDayOfWeek, cfg.scheduleDayOfWeek),
      Pick(u.scheduleDayOfMonth, cfg.scheduleDayOfMonth),
      Pick(u.pushFavorites, cfg.pushFavorites),
      Pick(u.pushFiltered, cfg.pushFiltered))
  }

  /** A text value with no surrounding whitespace and not blank. */
  predicate Tidy(t: Option<string>) {
    t.Some? ==> t.value != [] && Strip(t.value) == t.value
  }

  /** Omitted fields keep their value; a supplied url, name or description
      is stored trimmed, and as None exactly when it is blank, so a url of
      spaces switches the manual pushes off. */
  lemma ApplyWebhookUpdateSpec(cfg: WebhookConfig, u: WebhookConfigUpdate)
    ensures var r := ApplyWebhookUpdate(cfg, u);
      (u.url.None? ==> r.url == cfg.url) &&
      (u.name.None? ==> r.name == cfg.name) &&
      (u.description.None? ==> r.description == cfg.description) &&
      (u.url.Some? ==> Tidy(r.url) && (Truthy(r.url) <==> !AllSpace(u.url.value))) &&
      (u.name.Some? ==> Tidy(r.name) && (r.name.None? <==> AllSpace(u.name.value))) &&
      (u.description.Some? ==> Tidy(r.description) && (r.description.None? <==> AllSpace(u.description.value))) &&
      (u.enabled.Some? ==> r.enabled == u.enabled.value) &&
      (u.enabled.None? ==> r.enabled == cfg.enabled) &&
      (u.scheduleTime.None? ==> r.scheduleTime == cfg.scheduleTime) &&
      (u.scheduleTime.Some? ==> r.scheduleTime == u.scheduleTime.value)
  {
    if u.url.Some? { StripShape(u.url.value); }
    if u.name.Some? { StripShape(u.name.value); }
    if u.description.Some? { StripShape(u.description.value); }
  }

  /** Sending the same update twice stores what sending it once did. */
  lemma ApplyWebhookUpdateIdempotent(cfg: WebhookConfig, u: WebhookConfigUpdate)
    ensures ApplyWebhookUpdate(ApplyWebhookUpdate(cfg, u), u) == ApplyWebhookUpdate(cfg, u)
  {
  }

  /** The empty body changes nothing. */
  lemma EmptyUpdateIsIdentity(cfg: WebhookConfig)
    ensures ApplyWebhookUpdate(cfg, EMPTY_UPDATE) == cfg
  {
  }

  /** A validated update keeps a valid schedule valid (so the rebuilt job
      exists whenever the schedule is on), and a validated update that
      supplies all four schedule fields makes any schedule valid. */
  lemma ValidUpdateKeepsSchedule(cfg: WebhookConfig, u: WebhookConfigUpdate)
    requires ValidUpdate(u)
    requires ScheduleOk(cfg) ||
      (u.scheduleFrequency.Some? && u.scheduleTime.Some? && u.scheduleDayOfWeek.Some? && u.scheduleDayOfMonth.Some?)
    ensures ScheduleOk(ApplyWebhookUpdate(cfg, u))
    ensures ApplyWebhookUpdate(cfg, u).scheduleEnabled ==> S.ScheduledJob(Some(ApplyWebhookUpdate(cfg, u))).Some?
  {
    ScheduleOkTriggers(ApplyWebhookUpdate(cfg, u));
  }

  /** `update_webhook_config`: a body that fails validation is refused
      (None, nothing changes); otherwise the row (created if missing) is
      updated and the push job rebuilt from it. */
  method UpdateWebhookConfig(db: Db, sched: JobTable, u: WebhookConfigUpdate) returns (r: Option<WebhookConfig>)
    requires sched.Valid()
    modifies db, sched
    ensures !ValidUpdate(u) ==> r.None? && db.webhookConfig == old(db.webhookConfig) && sched.jobs == old(sched.jobs)
    ensures ValidUpdate(u) ==>
      r == Some(ApplyWebhookUpdate(old(db.webhookConfig).GetOr(DEFAULT_WEBHOOK_CONFIG), u)) &&
      db.webhookConfig == r &&
      sched.jobs == S.RebuiltJobs(old(sched.jobs), r)
    ensures sched.Valid() && sched.running == old(sched.running)
    ensures db.Tables() == old(db.Tables())
    ensures db.aiSettings == old(db.aiSettings) && db.aiFilterConfig == old(db.aiFilterConfig)
  {
    if !ValidUpdate(u) {
      return None;
    }
    var cfg := GetOrCreateWebhookConfig(db);
    db.webhookConfig := Some(ApplyWebhookUpdate(cfg, u));
    S.UpdateWebhookSchedule(sched, db);
    r := db.webhookConfig;
  }

  // ---------------------------------------------------------------------------
  // test_webhook_config

  const NO_TARGET := "请先配置 Webhook URL"
  const ROUTE_TEST_CONTENT := "这是一条测试通知，用于验证 Webhook 配置是否正确。如果收到此消息，说明配置成功！"
  const ROUTE_TEST_NOT_SENT := "测试通知发送失败，请检查 URL 和网络连接"
  const SEND_FAILED_PREFIX := "推送失败: "
  const RAISED_PREFIX := "推送异常: "
  /** The TypeError text for the keyword argument the sender does not take. */
  const PLATFORM_TYPE_ERROR := "send_webhook_notification() got an unexpected keyword argument 'platform'"

  /** `test_url or config.url`, None when both are missing or empty. */
  function TestTarget(testUrl: Option<string>, stored: Option<string>): (r: Option<string>)
    ensures r.Some? <==> Truthy(testUrl) || Truthy(stored)
    ensures r.Some? ==> r.value != []
    ensures Truthy(testUrl) ==> r == testUrl
    ensures !Truthy(testUrl) && Truthy(stored) ==> r == stored
  {
    if Truthy(testUrl) then testUrl else if Truthy(stored) then stored else None
  }

  /** The route as written: once there is a target, the sender is called
      with a `platform` keyword it does not accept, the TypeError lands in
      the generic handler, and the test can only fail. */
  function TestWebhookConfigAsWritten(cfg: WebhookConfig, testUrl: Option<string>): (r: W.TestReport)
    ensures !r.success
    ensures TestTarget(testUrl, cfg.url).None? <==> r.message == NO_TARGET
  {
    if TestTarget(testUrl, cfg.url).None? then W.TestReport(false, NO_TARGET)
    else W.TestReport(false, RAISED_PREFIX + PLATFORM_TYPE_ERROR)
  }

  /** The route as intended: the sender is called with the target alone.
      It succeeds exactly when the POST to the target succeeds; a failed
      POST is reported with the sender's message; no request is made
      without a target. */
  function TestWebhookConfig(env: AppSettings, cfg: WebhookConfig, testUrl: Option<string>,
                             post: (string, W.Payload) -> W.PostReply): (r: W.TestReport)
    ensures TestTarget(testUrl, cfg.url).None? ==> r == W.TestReport(false, NO_TARGET)
    ensures r.success <==>
      TestTarget(testUrl, cfg.url).Some? &&
      post(TestTarget(testUrl, cfg.url).value, W.BuildWebhookMessage(W.TEST_TITLE, ROUTE_TEST_CONTENT, None)) == W.Posted
    ensures r.message != ROUTE_TEST_NOT_SENT
  {
    match TestTarget(testUrl, cfg.url)
    case None => W.TestReport(false, NO_TARGET)
    case Some(target) =>
      assert W.SendTarget(env, Some(target)) == Some(target);
      match W.SendWebhookNotification(env, W.TEST_TITLE, ROUTE_TEST_CONTENT, None, Some(target), post)
      case Ok(sent) => W.TestReport(sent, if sent then W.TEST_SENT else ROUTE_TEST_NOT_SENT)
      case Err(failure) =>
        if failure.WebhookSendError? then
          assert (SEND_FAILED_PREFIX + failure.message)[0] != ROUTE_TEST_NOT_SENT[0];
          W.TestReport(false, SEND_FAILED_PREFIX + failure.message)
        else W.TestReport(false, RAISED_PREFIX)
  }

  /** The body's url wins over the stored one, so a url can be tried
      before it is saved. */
  lemma TestPrefersBodyUrl(env: AppSettings, cfg: WebhookConfig, testUrl: Option<string>,
                           post: (string, W.Payload) -> W.PostReply)
    requires Truthy(testUrl)
    ensures TestWebhookConfig(env, cfg, testUrl, post) == TestWebhookConfig(env, cfg.(url := None), testUrl, post)
  {
  }

  /** With a stored url and a network that accepts every POST, the
      intended route reports success while the route as written fails. */
  lemma TestAsWrittenFails(env: AppSettings, cfg: WebhookConfig)
    requires Truthy(cfg.url)
    ensures TestWebhookConfig(env, cfg, None, (_, _) => W.Posted).success
    ensures !TestWebhookConfigAsWritten(cfg, None).success
    ensures TestWebhookConfigAsWritten(cfg, None).message == RAISED_PREFIX + PLATFORM_TYPE_ERROR
  {
  }

  // ---------------------------------------------------------------------------
  // push_favorites / push_filtered

  const NOT_ENABLED := "Webhook 未启用或 URL 未配置"
  const NO_FAVORITES := "没有收藏的文章"
  const NO_FILTERED := "没有过滤的文章"

  /** How a manual push ended; `Pushed(n)` is the "pushed n articles"
      success, `SendRaised` a `WebhookError` reported with its own text. */
  datatype PushOutcome = NotEnabled | NothingToPush | Pushed(count: nat) | PushFailed | SendRaised

  /** One manual push: the guard on the stored row, the empty check, then
      one message built and sent. Also returns what was sent, if anything. */
  function ManualPush<M>(cfg: WebhookConfig, rows: seq<Article>, favorites: bool,
                         build: (seq<S.ArticleRef>, string) -> M, send: (string, M) -> S.SendResult)
    : (r: (PushOutcome, Option<seq<S.ArticleRef>>))
    ensures !cfg.enabled || !Truthy(cfg.url) ==> r == (NotEnabled, None)
    ensures r.1.Some? <==> cfg.enabled && Truthy(cfg.url) && S.PushRefs(rows, favorites) != []
    ensures r.1.Some? ==> r.1.value == S.PushRefs(rows, favorites)
    ensures r.0.Pushed? <==>
      r.1.Some? && send(cfg.url.value, build(r.1.value, cfg.platform)) == S.Delivered
    ensures r.0.Pushed? ==> r.0.count == |r.1.value| > 0
  {
    if !cfg.enabled || !Truthy(cfg.url) then (NotEnabled, None)
    else
      var refs := S.PushRefs(rows, favorites);
      if refs == [] then (NothingToPush, None)
      else
        match send(cfg.url.value, build(refs, cfg.platform))
        case Delivered => (Pushed(|refs|), Some(refs))
        case NotDelivered => (PushFailed, Some(refs))
        case Raised => (SendRaised, Some(refs))
  }

  /** The manual push and the scheduled task send the same list to the
      same url when the task's flag for that list is on. */
  lemma ManualPushMatchesTask<M>(cfg: WebhookConfig, rows: seq<Article>,
                                 build: (seq<S.ArticleRef>, string) -> M, send: (string, M) -> S.SendResult)
    requires cfg.scheduleEnabled && cfg.pushFavorites
    ensures var m := ManualPush(cfg, rows, true, build, send);
      m.1.Some? <==> (S.PushTask(Some(cfg), rows, build, send).sent != [] &&
                      S.PushTask(Some(cfg), rows, build, send).sent[0] == S.PushRefs(rows, true))
  {
  }

  /** `push_favorites` (favorites) or `push_filtered`: the row is created
      if missing, which leaves pushes disabled. */
  method PushArticles<M>(db: Db, favorites: bool, build: (seq<S.ArticleRef>, string) -> M,
                         send: (string, M) -> S.SendResult) returns (outcome: PushOutcome)
    modifies db
    ensures outcome == ManualPush(old(db.webhookConfig).GetOr(DEFAULT_WEBHOOK_CONFIG), old(db.articles), favorites, build, send).0
    ensures old(db.webhookConfig).None? ==> outcome == NotEnabled
    ensures db.Tables() == old(db.Tables())
    ensures db.webhookConfig == Some(old(db.webhookConfig).GetOr(DEFAULT_WEBHOOK_CONFIG))
    ensures db.aiSettings == old(db.aiSettings) && db.aiFilterConfig == old(db.aiFilterConfig)
  {
    var cfg := GetOrCreateWebhookConfig(db);
    outcome := ManualPush(cfg, db.articles, favorites, build, send).0;
  }
}
