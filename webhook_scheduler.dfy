/** Scheduled webhook pushes (app/services/webhook_scheduler.py): the
    trigger derived from the webhook configuration, the rebuild of the
    `webhook_push` job, and the push task's guards and two sends. The
    message builder and the sender are imported names that the service
    module does not define; they are oracles here. */
module WebhookScheduler {
  import opened Common
  import opened Store
  import opened Jobs

  const PUSH_JOB_ID := "webhook_push"
  const PUSH_JOB_NAME := "webhook_push_task"

  // ---------------------------------------------------------------------------
  // Trigger derivation

  /** `schedule_time.split(":")` followed by `int()` of the first two
      pieces; None where Python raises (no colon, a piece that is not an
      integer). */
  function ParseScheduleTime(t: string): (r: Option<(int, int)>)
    ensures r.Some? ==> |Split(t, ':')| >= 2
    ensures r.Some? <==> |Split(t, ':')| >= 2 && ParseInt(Split(t, ':')[0]).Some? && ParseInt(Split(t, ':')[1]).Some?
  {
    var parts := Split(t, ':');
    if |parts| < 2 then None
    else
      match (ParseInt(parts[0]), ParseInt(parts[1]))
      case (Some(h), Some(m)) => Some((h, m))
      case _ => None
  }

  /** "H:M" written with `str()` parses back to (H, M). */
  lemma ParseScheduleTimeRoundTrip(h: nat, m: nat)
    ensures ParseScheduleTime(DecimalString(h) + ":" + DecimalString(m)) == Some((h, m))
  {
    var a, b := DecimalString(h), DecimalString(m);
    assert ':' !in a && ':' !in b by {
      assert forall i :: 0 <= i < |a| ==> IsAsciiDigit(a[i]);
      assert forall i :: 0 <= i < |b| ==> IsAsciiDigit(b[i]);
    }
    SplitFirst(a, b, ':');
    SplitNoSep(b, ':');
    DecimalStringParses(h);
    DecimalStringParses(m);
  }

  /** Anything after a second colon is ignored: "09:00:30" schedules 09:00. */
  lemma ParseScheduleTimeIgnoresRest(a: string, b: string, rest: string)
    requires ':' !in a && ':' !in b
    ensures ParseScheduleTime(a + ":" + b + ":" + rest) == ParseScheduleTime(a + ":" + b)
  {
    assert a + ":" + b + ":" + rest == a + [':'] + (b + [':'] + rest);
    SplitFirst(a, b + [':'] + rest, ':');
    SplitFirst(b, rest, ':');
    assert a + ":" + b == a + [':'] + b;
    SplitFirst(a, b, ':');
    SplitNoSep(b, ':');
  }

  /** The trigger a frequency asks for, before the library checks its
      ranges; None for an unknown frequency. */
  function FrequencyTrigger(cfg: WebhookConfig, hour: int, minute: int): (r: Option<Trigger>)
    ensures r.None? <==> cfg.scheduleFrequency !in {"hourly", "daily", "weekly", "monthly"}
  {
    match cfg.scheduleFrequency
    case "hourly" => Some(Interval(1, 0))
    case "daily" => Some(Cron(None, None, Some(hour), [minute]))
    case "weekly" => Some(Cron(Some(cfg.scheduleDayOfWeek - 1), None, Some(hour), [minute]))
    case "monthly" => Some(Cron(None, Some(cfg.scheduleDayOfMonth), Some(hour), [minute]))
    case _ => None
  }

  /** The trigger `update_webhook_schedule` installs for an enabled
      schedule; None where it returns early or catches an exception. */
  function DeriveTrigger(cfg: WebhookConfig): (r: Option<Trigger>)
    ensures r.Some? ==> ParseScheduleTime(cfg.scheduleTime).Some? && CronValid(r.value)
    ensures r.Some? ==> cfg.scheduleFrequency in {"hourly", "daily", "weekly", "monthly"}
  {
    match ParseScheduleTime(cfg.scheduleTime)
    case None => None
    case Some((h, m)) =>
      match FrequencyTrigger(cfg, h, m)
      case None => None
      case Some(t) => if CronValid(t) then Some(t) else None
  }

  /** Hourly pushes run every hour whatever the time says, provided the
      time still parses. */
  lemma HourlyTrigger(cfg: WebhookConfig)
    requires cfg.scheduleFrequency == "hourly"
    ensures DeriveTrigger(cfg) == if ParseScheduleTime(cfg.scheduleTime).Some? then Some(Interval(1, 0)) else None
  {
  }

  /** A daily, weekly or monthly push fires at the parsed hour and minute;
      weekly maps days 1..7 to the library's 0..6, monthly uses the day of
      the month as given; out-of-range values leave no trigger. */
  lemma CronTriggers(cfg: WebhookConfig, h: int, m: int)
    requires ParseScheduleTime(cfg.scheduleTime) == Some((h, m))
    ensures cfg.scheduleFrequency == "daily" ==>
      DeriveTrigger(cfg) == if 0 <= h <= 23 && 0 <= m <= 59 then Some(Cron(None, None, Some(h), [m])) else None
    ensures cfg.scheduleFrequency == "weekly" ==>
      DeriveTrigger(cfg) ==
        if 1 <= cfg.scheduleDayOfWeek <= 7 && 0 <= h <= 23 && 0 <= m <= 59
        then Some(Cron(Some(cfg.scheduleDayOfWeek - 1), None, Some(h), [m])) else None
    ensures cfg.scheduleFrequency == "monthly" ==>
      DeriveTrigger(cfg) ==
        if 1 <= cfg.scheduleDayOfMonth <= 31 && 0 <= h <= 23 && 0 <= m <= 59
        then Some(Cron(None, Some(cfg.scheduleDayOfMonth), Some(h), [m])) else None
  {
    match cfg.scheduleFrequency
    case "daily" => CronValidAt(None, None, h, m);
    case "weekly" => CronValidAt(Some(cfg.scheduleDayOfWeek - 1), None, h, m);
    case "monthly" => CronValidAt(None, Some(cfg.scheduleDayOfMonth), h, m);
    case _ =>
  }

  lemma CronValidAt(dayOfWeek: Option<int>, day: Option<int>, h: int, m: int)
    ensures CronValid(Cron(dayOfWeek, day, Some(h), [m])) <==>
      (dayOfWeek.Some? ==> 0 <= dayOfWeek.value <= 6) && (day.Some? ==> 1 <= day.value <= 31) &&
      0 <= h <= 23 && 0 <= m <= 59
  {
    var t := Cron(dayOfWeek, day, Some(h), [m]);
    assert t.minute[0] == m;
  }

  // ---------------------------------------------------------------------------
  // update_webhook_schedule

  /** The job the configuration asks for: none without a row or with the
      schedule switched off. */
  function ScheduledJob(cfg: Option<WebhookConfig>): (r: Option<Job>)
    ensures cfg.None? || !cfg.value.scheduleEnabled ==> r.None?
    ensures r.Some? ==> r.value.id == PUSH_JOB_ID && r.value.task == WebhookPushJob && CronValid(r.value.trigger)
    ensures r.Some? <==> cfg.Some? && cfg.value.scheduleEnabled && DeriveTrigger(cfg.value).Some?
  {
    if cfg.None? || !cfg.value.scheduleEnabled then None
    else
      match DeriveTrigger(cfg.value)
      case None => None
      case Some(t) => Some(Job(PUSH_JOB_ID, PUSH_JOB_NAME, WebhookPushJob, t, 1))
  }

  /** The job table after the rebuild: the old push job removed, the new
      one (if any) added. */
  function RebuiltJobs(jobs: map<string, Job>, cfg: Option<WebhookConfig>): map<string, Job> {
    var rest := jobs - {PUSH_JOB_ID};
    match ScheduledJob(cfg)
    case None => rest
    case Some(j) => rest[PUSH_JOB_ID := j]
  }

  /** Other jobs are untouched, and the push job is present exactly when
      the configuration asks for one. */
  lemma RebuiltJobsShape(jobs: map<string, Job>, cfg: Option<WebhookConfig>)
    ensures forall id :: id != PUSH_JOB_ID ==> (id in RebuiltJobs(jobs, cfg) <==> id in jobs)
    ensures forall id :: id != PUSH_JOB_ID && id in jobs ==> RebuiltJobs(jobs, cfg)[id] == jobs[id]
    ensures PUSH_JOB_ID in RebuiltJobs(jobs, cfg) <==> ScheduledJob(cfg).Some?
    ensures ScheduledJob(cfg).Some? ==> RebuiltJobs(jobs, cfg)[PUSH_JOB_ID] == ScheduledJob(cfg).value
  {
  }

  /** Rebuilding twice from the same configuration is rebuilding once. */
  lemma RebuiltJobsIdempotent(jobs: map<string, Job>, cfg: Option<WebhookConfig>)
    ensures RebuiltJobs(RebuiltJobs(jobs, cfg), cfg) == RebuiltJobs(jobs, cfg)
  {
  }

  /** `update_webhook_schedule`: remove the push job, then add the one the
      stored configuration asks for. */
  method UpdateWebhookSchedule(sched: JobTable, db: Db)
    requires sched.Valid()
    modifies sched
    ensures sched.Valid()
    ensures sched.jobs == RebuiltJobs(old(sched.jobs), db.webhookConfig)
    ensures sched.running == old(sched.running)
  {
    if PUSH_JOB_ID in sched.jobs {
      sched.RemoveJob(PUSH_JOB_ID);
    }
    assert sched.jobs == old(sched.jobs) - {PUSH_JOB_ID};
    var job := ScheduledJob(db.webhookConfig);
    if job.Some? {
      sched.AddJob(job.value);
    }
  }

  /** `start_webhook_scheduler`: rebuild the job, then start the scheduler
      unless it already runs. */
  method StartWebhookScheduler(sched: JobTable, db: Db)
    requires sched.Valid()
    modifies sched
    ensures sched.Valid() && sched.running
    ensures sched.jobs == RebuiltJobs(old(sched.jobs), db.webhookConfig)
  {
    UpdateWebhookSchedule(sched, db);
    if !sched.running {
      sched.Start();
    }
  }

  /** `stop_webhook_scheduler`: shut down only a running scheduler. */
  method StopWebhookScheduler(sched: JobTable)
    modifies sched
    ensures !sched.running && sched.jobs == old(sched.jobs)
  {
    if sched.running {
      sched.Shutdown();
    }
  }

  // ---------------------------------------------------------------------------
  // webhook_push_task

  /** The `{"title", "link"}` dictionaries handed to the message builder. */
  datatype ArticleRef = ArticleRef(title: string, link: string)

  /** What the sender did: reported success, reported failure, or raised. */
  datatype SendResult = Delivered | NotDelivered | Raised

  predicate InPush(a: Article, favorites: bool) {
    if favorites then a.isFavorite else a.isFiltered
  }

  /** The favourite (or filtered) articles, in table order. */
  function PushRefs(rows: seq<Article>, favorites: bool): (r: seq<ArticleRef>)
    ensures |r| <= |rows|
    ensures r == [] <==> forall i :: 0 <= i < |rows| ==> !InPush(rows[i], favorites)
    decreases |rows|
  {
    if rows == [] then []
    else
      var init := PushRefs(rows[..|rows| - 1], favorites);
      var a := rows[|rows| - 1];
      assert forall i :: 0 <= i < |rows| - 1 ==> rows[..|rows| - 1][i] == rows[i];
      if InPush(a, favorites) then init + [ArticleRef(a.title, a.link)] else init
  }

  /** The push task runs only for a stored, scheduled, enabled configuration
      with a URL. */
  predicate PushAllowed(cfg: Option<WebhookConfig>) {
    cfg.Some? && cfg.value.scheduleEnabled && cfg.value.enabled && Truthy(cfg.value.url)
  }

  /** What the task did: the article lists it sent, in order, the `pushed`
      counter, and whether a send raised (ending the task). */
  datatype PushReport = PushReport(sent: seq<seq<ArticleRef>>, pushed: nat, raised: bool)

  /** One of the two pushes: sent only when its flag is on and its list is
      non-empty; counted only when the send reports success. */
  function PushOne<M>(url: string, platform: string, flag: bool, refs: seq<ArticleRef>,
                      build: (seq<ArticleRef>, string) -> M, send: (string, M) -> SendResult): (r: PushReport)
    ensures r.sent == (if flag && refs != [] then [refs] else [])
    ensures r.pushed == (if flag && refs != [] && send(url, build(refs, platform)) == Delivered then |refs| else 0)
    ensures r.raised <==> flag && refs != [] && send(url, build(refs, platform)) == Raised
  {
    if flag && refs != [] then
      var res := send(url, build(refs, platform));
      PushReport([refs], if res == Delivered then |refs| else 0, res == Raised)
    else PushReport([], 0, false)
  }

  /** The task's whole behaviour: guards, then the favourites push, then
      the filtered push unless the first one raised. */
  function PushTask<M>(cfg: Option<WebhookConfig>, rows: seq<Article>,
                       build: (seq<ArticleRef>, string) -> M, send: (string, M) -> SendResult): (r: PushReport)
    ensures !PushAllowed(cfg) ==> r == PushReport([], 0, false)
  {
    if !PushAllowed(cfg) then PushReport([], 0, false)
    else
      var c := cfg.value;
      var f := PushOne(c.url.value, c.platform, c.pushFavorites, PushRefs(rows, true), build, send);
      if f.raised then f
      else
        var g := PushOne(c.url.value, c.platform, c.pushFiltered, PushRefs(rows, false), build, send);
        PushReport(f.sent + g.sent, f.pushed + g.pushed, g.raised)
  }

  /** The two pushes are independent: whether the favourites went out or
      not, the filtered list is sent when its flag is on and it is
      non-empty; only an exception stops it. */
  lemma PushesIndependent<M>(cfg: Option<WebhookConfig>, rows: seq<Article>,
                             build: (seq<ArticleRef>, string) -> M, send: (string, M) -> SendResult)
    requires PushAllowed(cfg)
    requires !PushOne(cfg.value.url.value, cfg.value.platform, cfg.value.pushFavorites, PushRefs(rows, true), build, send).raised
    ensures var r := PushTask(cfg, rows, build, send);
      (cfg.value.pushFiltered && PushRefs(rows, false) != []) <==>
        (r.sent != [] && r.sent[|r.sent| - 1] == PushRefs(rows, false) &&
         !(cfg.value.pushFavorites && PushRefs(rows, true) != [] && |r.sent| == 1))
  {
  }

  /** `pushed` counts only articles in lists that were reported sent. */
  lemma PushedBound<M>(cfg: Option<WebhookConfig>, rows: seq<Article>,
                       build: (seq<ArticleRef>, string) -> M, send: (string, M) -> SendResult)
    ensures PushTask(cfg, rows, build, send).pushed <= |PushRefs(rows, true)| + |PushRefs(rows, false)|
    ensures |PushTask(cfg, rows, build, send).sent| <= 2
  {
  }

  /** `webhook_push_task` over the stored configuration and articles. */
  method WebhookPushTask<M>(db: Db, build: (seq<ArticleRef>, string) -> M, send: (string, M) -> SendResult)
    returns (report: PushReport)
    ensures report == PushTask(db.webhookConfig, db.articles, build, send)
  {
    var cfg := db.webhookConfig;
    if cfg.None? || !cfg.value.scheduleEnabled {
      return PushReport([], 0, false);
    }
    var c := cfg.value;
    if !c.enabled || !Truthy(c.url) {
      return PushReport([], 0, false);
    }
    var pushed := 0;
    var sent: seq<seq<ArticleRef>> := [];
    if c.pushFavorites {
      var favorites := PushRefs(db.articles, true);
      if favorites != [] {
        var res := send(c.url.value, build(favorites, c.platform));
        sent := sent + [favorites];
        if res == Raised {
          return PushReport(sent, pushed, true);
        }
        if res == Delivered {
          pushed := pushed + |favorites|;
        }
      }
    }
    if c.pushFiltered {
      var filtered := PushRefs(db.articles, false);
      if filtered != [] {
        var res := send(c.url.value, build(filtered, c.platform));
        sent := sent + [filtered];
        if res == Raised {
          return PushReport(sent, pushed, true);
        }
        if res == Delivered {
          pushed := pushed + |filtered|;
        }
      }
    }
    report := PushReport(sent, pushed, false);
  }
}
