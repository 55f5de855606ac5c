/** The periodic task scheduler (app/services/scheduler_service.py): its
    start/stop flags and job table, `run_now` dispatch, and the two task
    bodies with the aggregation of their results. */
module SchedulerService {
  import opened Common
  import opened Store
  import opened Jobs
  import R = RssService
  import K = KeywordService
  import A = AiService

  const FETCH_JOB_ID := "fetch_rss"
  const SUMMARY_JOB_ID := "ai_summary"
  const SUMMARY_BATCH_LIMIT := 20

  /** The fetch job: every `FETCH_INTERVAL_MINUTES` minutes, one instance at a time. */
  function FetchJob(env: AppSettings): (j: Job)
    ensures j.id == FETCH_JOB_ID && j.task == FetchRssJob && j.maxInstances == 1
    ensures j.trigger == Interval(0, env.fetchIntervalMinutes)
  {
    Job(FETCH_JOB_ID, "RSS Feed Fetcher", FetchRssJob, Interval(0, env.fetchIntervalMinutes), 1)
  }

  /** The summary job: at minutes 5 and 35 of every hour, two instances at most. */
  const SUMMARY_JOB := Job(SUMMARY_JOB_ID, "AI Article Summarizer", AiSummaryJob, Cron(None, None, None, [5, 35]), 2)

  /** Which task coroutine `run_now` hands back; None for an unknown id. */
  function RunNow(taskId: string): (r: Option<Task>)
    ensures r == Some(FetchRssJob) <==> taskId == FETCH_JOB_ID
    ensures r == Some(AiSummaryJob) <==> taskId == SUMMARY_JOB_ID
    ensures r.None? <==> taskId != FETCH_JOB_ID && taskId != SUMMARY_JOB_ID
  {
    if taskId == FETCH_JOB_ID then Some(FetchRssJob)
    else if taskId == SUMMARY_JOB_ID then Some(AiSummaryJob)
    else None
  }

  // ---------------------------------------------------------------------------
  // Aggregation of the fetch round

  /** `sum(1 for v in results.values() if v < 0)`. */
  function FailedCount(results: seq<(int, int)>): (n: nat)
    ensures n <= |results|
    decreases |results|
  {
    if results == [] then 0
    else FailedCount(results[..|results| - 1]) + (if results[|results| - 1].1 < 0 then 1 else 0)
  }

  /** The enabled sources whose fetch fails, in table order. */
  function FailedSources(srcs: seq<Source>, env: R.Env): (r: seq<Source>)
    ensures |r| <= |srcs|
    ensures forall s :: s in r ==> s in srcs && s.enabled && R.FetchOutcome(env, s.url).Err?
    decreases |srcs|
  {
    if srcs == [] then []
    else
      var init := FailedSources(srcs[..|srcs| - 1], env);
      var s := srcs[|srcs| - 1];
      if s.enabled && R.FetchOutcome(env, s.url).Err? then init + [s] else init
  }

  /** The `failed_sources` figure of a round is the number of enabled
      sources whose fetch failed. */
  lemma {:induction false} RoundFailedCount(t: R.ArticleTable, srcs: seq<Source>, env: R.Env)
    ensures FailedCount(R.Round(t, srcs, env).results) == |FailedSources(srcs, env)|
    decreases |srcs|
  {
    if srcs != [] {
      var init := srcs[..|srcs| - 1];
      RoundFailedCount(t, init, env);
      var prev := R.Round(t, init, env);
      var s := srcs[|srcs| - 1];
      var res := R.Round(t, srcs, env).results;
      if s.enabled {
        assert res[..|res| - 1] == prev.results;
      }
    }
  }

  datatype TaskReport =
    | FetchReport(newArticles: int, filteredCount: nat, failedSources: nat)
    | NothingToSummarise
    | SummaryReport(total: nat, success: nat)

  // ---------------------------------------------------------------------------
  // Selection of the summary task

  predicate Pending(a: Article) {
    !a.hasSummary && !a.isFiltered && a.content.Some? && a.content.value != []
  }

  /** Positions of every pending article, in table order. */
  function PendingPositions(rows: seq<Article>): (r: seq<nat>)
    ensures |r| <= |rows|
    ensures forall k :: 0 <= k < |r| ==> r[k] < |rows| && Pending(rows[r[k]])
    ensures forall i :: 0 <= i < |rows| && Pending(rows[i]) ==> i in r
    decreases |rows|
  {
    if rows == [] then []
    else
      var n := |rows| - 1;
      var init := PendingPositions(rows[..n]);
      assert forall i :: 0 <= i < n ==> rows[..n][i] == rows[i];
      if Pending(rows[n]) then init + [n] else init
  }

  /** The query of `ai_summary_task`: the first 20 pending articles. */
  function SummarySelection(rows: seq<Article>): (r: seq<nat>)
    ensures |r| <= SUMMARY_BATCH_LIMIT && |r| <= |rows|
    ensures forall k :: 0 <= k < |r| ==> r[k] < |rows| && Pending(rows[r[k]])
    ensures r == [] <==> forall i :: 0 <= i < |rows| ==> !Pending(rows[i])
  {
    var all := PendingPositions(rows);
    assert all != [] ==> all[0] < |rows| && Pending(rows[all[0]]);
    if |all| <= SUMMARY_BATCH_LIMIT then all else all[..SUMMARY_BATCH_LIMIT]
  }

  // ---------------------------------------------------------------------------
  // What each task leaves behind

  /** The tables `fetch_rss_task` writes, and its report. */
  datatype FetchState = FetchState(articles: seq<Article>, next: int, keywords: seq<KeywordRule>, report: TaskReport)

  /** `fetch_rss_task` on a well-formed article table: the fetch round over
      every source, then the keyword pass over every unfiltered article of
      the table the round left. The report counts the rows the round added,
      the articles the pass flagged and the sources whose fetch failed. */
  function FetchTask(rows: seq<Article>, next: int, srcs: seq<Source>, ks: seq<KeywordRule>, renv: R.Env): (f: FetchState)
    requires ArticleIdsOk(rows, next) && NaturalKeysUnique(rows)
    ensures ArticleIdsOk(f.articles, f.next) && NaturalKeysUnique(f.articles)
    ensures f.report.FetchReport? && f.report.newArticles == |f.articles| - |rows| >= 0
    ensures f.report.failedSources == |FailedSources(srcs, renv)|
    ensures f.report.filteredCount <= |f.articles|
    ensures |f.keywords| == |ks|
    ensures forall i :: 0 <= i < |rows| ==>
      f.articles[i].id == rows[i].id && (rows[i].isFiltered ==> f.articles[i].isFiltered)
  {
    var t := R.ArticleTable(rows, next);
    var rs := R.Round(t, srcs, renv);
    R.RoundTable(t, srcs, renv);
    RoundFailedCount(t, srcs, renv);
    var m := K.FilterPassMatches(rs.table.rows, ks, []);
    var ids := ArticleIds(m);
    K.MarkFilteredKeepsTable(rs.table.rows, rs.table.next, ids);
    assert forall i :: 0 <= i < |rows| ==> rs.table.rows[i] == rows[i];
    FilterPassFewer(rs.table.rows, ks);
    FetchState(K.MarkFiltered(rs.table.rows, ids), rs.table.next,
               K.BumpForArticles(ks, K.PassKeywords(ks), m),
               FetchReport(R.TotalSaved(rs.results), |ids|, FailedCount(rs.results)))
  }

  /** The keyword pass flags no more articles than the table holds. */
  lemma FilterPassFewer(rows: seq<Article>, ks: seq<KeywordRule>)
    ensures |K.FilterPassMatches(rows, ks, [])| <= |rows|
  {
    if K.PassKeywords(ks) != [] {
      var c := K.Candidates(rows, []);
      K.FilterPartition(K.PassKeywords(ks), c);
      assert |multiset(K.MatchedArticles(K.PassKeywords(ks), c))| <= |multiset(c)|;
    }
  }

  /** The table after the batch summary over the positions `el`: each of
      them goes through `AfterBatch`, every other row is kept. */
  function BatchRows(rec: AISettingsRecord, env: AppSettings, rows: seq<Article>, el: seq<nat>,
                     ai: (string, string) -> A.AiReply): (r: seq<Article>)
    ensures |r| == |rows|
    ensures forall i :: 0 <= i < |rows| && i !in el ==> r[i] == rows[i]
    ensures forall i :: 0 <= i < |rows| ==>
      r[i].id == rows[i].id && r[i].title == rows[i].title && r[i].content == rows[i].content
  {
    seq(|rows|, i requires 0 <= i < |rows| => if i in el then A.AfterBatch(rec, env, rows[i], ai) else rows[i])
  }

  /** A table that agrees with the batch row by row is `BatchRows`. */
  lemma BatchRowsAre(rec: AISettingsRecord, env: AppSettings, rows: seq<Article>, el: seq<nat>,
                     ai: (string, string) -> A.AiReply, out: seq<Article>)
    requires |out| == |rows|
    requires forall i :: 0 <= i < |out| ==> out[i] == if i in el then A.AfterBatch(rec, env, rows[i], ai) else rows[i]
    ensures out == BatchRows(rec, env, rows, el, ai)
  {
    var b := BatchRows(rec, env, rows, el, ai);
    forall i | 0 <= i < |out| ensures out[i] == b[i] {
      assert b[i] == if i in el then A.AfterBatch(rec, env, rows[i], ai) else rows[i];
    }
  }

  /** What the batch summary leaves on a non-empty selection is what
      `SummaryTask` describes. */
  lemma BatchIsSummaryTask(rows: seq<Article>, settings: Option<AISettingsRecord>, env: AppSettings,
                           ai: (string, string) -> A.AiReply, out: seq<Article>,
                           settingsOut: Option<AISettingsRecord>, success: nat)
    requires SummarySelection(rows) != []
    requires var el := A.EligiblePositions(rows, SummarySelection(rows));
      var rec := settings.GetOr(DEFAULT_AI_SETTINGS);
      && (if el == [] || A.ApiKey(rec, env) == [] then success == 0 && out == rows
          else
            && success == A.CountSummarised(rec, env, rows, el, ai)
            && |out| == |rows|
            && forall i :: 0 <= i < |out| ==>
                 out[i] == if i in el then A.AfterBatch(rec, env, rows[i], ai) else rows[i])
      && settingsOut == if el == [] then settings else Some(rec)
    ensures SummaryTask(rows, settings, env, ai) ==
      SummaryState(out, settingsOut, SummaryReport(|SummarySelection(rows)|, success))
  {
    var el := A.EligiblePositions(rows, SummarySelection(rows));
    var rec := settings.GetOr(DEFAULT_AI_SETTINGS);
    if el != [] && A.ApiKey(rec, env) != [] {
      BatchRowsAre(rec, env, rows, el, ai, out);
    }
  }

  /** The article table and AI settings row `ai_summary_task` writes, and its report. */
  datatype SummaryState = SummaryState(articles: seq<Article>, settings: Option<AISettingsRecord>, report: TaskReport)

  /** `ai_summary_task`: the batch summary over the first 20 pending
      articles, or "nothing to do" when there is none. The batch creates the
      default AI settings row once some selected article is eligible, and
      summarises nothing without an API key. */
  function SummaryTask(rows: seq<Article>, settings: Option<AISettingsRecord>, env: AppSettings,
                       ai: (string, string) -> A.AiReply): (s: SummaryState)
    ensures |s.articles| == |rows|
    ensures s.report == NothingToSummarise <==> SummarySelection(rows) == []
    ensures s.report == NothingToSummarise ==> s.articles == rows && s.settings == settings
    ensures s.report.SummaryReport? || s.report == NothingToSummarise
    ensures s.report.SummaryReport? ==>
      s.report.total == |SummarySelection(rows)| && s.report.success <= s.report.total <= SUMMARY_BATCH_LIMIT
    ensures s.settings == settings || s.settings == Some(settings.GetOr(DEFAULT_AI_SETTINGS))
    ensures forall i :: 0 <= i < |rows| && i !in SummarySelection(rows) ==> s.articles[i] == rows[i]
    ensures forall i :: 0 <= i < |rows| && rows[i].isFiltered ==> s.articles[i] == rows[i]
    ensures forall i :: 0 <= i < |rows| ==>
      s.articles[i].id == rows[i].id && s.articles[i].title == rows[i].title && s.articles[i].content == rows[i].content
  {
    var sel := SummarySelection(rows);
    if sel == [] then SummaryState(rows, settings, NothingToSummarise)
    else
      var el := A.EligiblePositions(rows, sel);
      var rec := settings.GetOr(DEFAULT_AI_SETTINGS);
      if el == [] then SummaryState(rows, settings, SummaryReport(|sel|, 0))
      else if A.ApiKey(rec, env) == [] then SummaryState(rows, Some(rec), SummaryReport(|sel|, 0))
      else
        assert forall i :: i in el ==> i in sel;
        assert forall i :: 0 <= i < |rows| && rows[i].isFiltered ==> i !in sel;
        SummaryState(BatchRows(rec, env, rows, el, ai), Some(rec),
                     SummaryReport(|sel|, A.CountSummarised(rec, env, rows, el, ai)))
  }

  // ---------------------------------------------------------------------------
  // Status report

  /** One entry of the `get_status` job list: the job's id, name and
      trigger (`next_run` is a clock reading and is not modelled). */
  datatype JobStatus = JobStatus(id: string, name: string, trigger: Trigger)

  function StatusOf(j: Job): JobStatus {
    JobStatus(j.id, j.name, j.trigger)
  }

  /** The job list of `get_status` for a table keyed by job id: exactly one
      entry per registered job, carrying that job's name and trigger. */
  function JobStatuses(jobs: map<string, Job>): (r: set<JobStatus>)
    requires forall id :: id in jobs ==> jobs[id].id == id
    ensures forall s :: s in r <==> s.id in jobs && s == StatusOf(jobs[s.id])
  {
    set id | id in jobs :: StatusOf(jobs[id])
  }

  /** The job list has as many entries as the table has jobs. */
  lemma {:induction false} JobStatusesCount(jobs: map<string, Job>)
    requires forall id :: id in jobs ==> jobs[id].id == id
    ensures |JobStatuses(jobs)| == |jobs|
    decreases |jobs|
  {
    if jobs != map[] {
      var k :| k in jobs;
      var rest := jobs - {k};
      JobStatusesCount(rest);
      assert JobStatuses(jobs) == JobStatuses(rest) + {StatusOf(jobs[k])};
      assert StatusOf(jobs[k]) !in JobStatuses(rest);
      assert jobs.Keys == rest.Keys + {k};
    }
  }

  /** After `start` on a stopped scheduler the status lists the fetch job
      and the summary job under their ids, names and triggers; started from
      an empty table it lists exactly those two. */
  lemma StartedStatus(env: AppSettings, jobs: map<string, Job>)
    requires forall id :: id in jobs ==> jobs[id].id == id
    ensures var after := jobs[FETCH_JOB_ID := FetchJob(env)][SUMMARY_JOB_ID := SUMMARY_JOB];
      && (forall id :: id in after ==> after[id].id == id)
      && JobStatus(FETCH_JOB_ID, "RSS Feed Fetcher", Interval(0, env.fetchIntervalMinutes)) in JobStatuses(after)
      && JobStatus(SUMMARY_JOB_ID, "AI Article Summarizer", Cron(None, None, None, [5, 35])) in JobStatuses(after)
      && (jobs == map[] ==> |JobStatuses(after)| == 2)
  {
    var after := jobs[FETCH_JOB_ID := FetchJob(env)][SUMMARY_JOB_ID := SUMMARY_JOB];
    assert SUMMARY_JOB_ID in after && after[SUMMARY_JOB_ID] == SUMMARY_JOB;
    assert FETCH_JOB_ID in after && after[FETCH_JOB_ID] == FetchJob(env);
    if jobs == map[] {
      JobStatusesCount(after);
      assert after.Keys == {FETCH_JOB_ID, SUMMARY_JOB_ID};
    }
  }

  /** The scheduler object: its own job table and the `_is_running` flag,
      which always agrees with the table's running state. */
  class TaskScheduler {
    const scheduler: JobTable
    var isRunning: bool

    ghost predicate Valid()
      reads this, scheduler
    {
      scheduler.Valid() && isRunning == scheduler.running
    }

    constructor ()
      ensures Valid() && !isRunning && scheduler.jobs == map[] && fresh(scheduler)
    {
      scheduler := new JobTable();
      isRunning := false;
    }

    /** `start`: a second start changes nothing; otherwise both jobs are
        registered (replacing any of the same id) and the scheduler runs. */
    method Start(env: AppSettings)
      requires Valid()
      modifies this, scheduler
      ensures Valid() && isRunning
      ensures old(isRunning) ==> scheduler.jobs == old(scheduler.jobs)
      ensures !old(isRunning) ==>
        scheduler.jobs == old(scheduler.jobs)[FETCH_JOB_ID := FetchJob(env)][SUMMARY_JOB_ID := SUMMARY_JOB]
      ensures StatusOf(FetchJob(env)) in Status().1 || old(isRunning)
      ensures StatusOf(SUMMARY_JOB) in Status().1 || old(isRunning)
    {
      if isRunning {
        return;
      }
      scheduler.AddJob(FetchJob(env));
      scheduler.AddJob(SUMMARY_JOB);
      scheduler.Start();
      isRunning := true;
    }

    /** `stop`: shuts a running scheduler down; a second stop is a no-op. */
    method Stop()
      requires Valid()
      modifies this, scheduler
      ensures Valid() && !isRunning
      ensures scheduler.jobs == old(scheduler.jobs)
      ensures !old(isRunning) ==> scheduler.running == old(scheduler.running)
    {
      if scheduler.running {
        scheduler.Shutdown();
        isRunning := false;
      }
    }

    /** `get_status`: the running flag and one entry per registered job. */
    function Status(): (r: (bool, set<JobStatus>))
      requires Valid()
      reads this, scheduler
      ensures r.0 == isRunning
      ensures forall s :: s in r.1 <==> s.id in scheduler.jobs && s == StatusOf(scheduler.jobs[s.id])
      ensures |r.1| == |scheduler.jobs|
    {
      JobStatusesCount(scheduler.jobs);
      (isRunning, JobStatuses(scheduler.jobs))
    }

    /** `fetch_rss_task`: the fetch round, then the keyword pass over every
        unfiltered article; `new_articles` is the number of rows the round
        added and `failed_sources` the number of enabled sources whose fetch
        failed. */
    method FetchRssTask(db: Db, renv: R.Env) returns (r: TaskReport)
      requires db.Valid()
      modifies db
      ensures db.Valid() && r.FetchReport?
      ensures var mid := R.Round(R.ArticleTable(old(db.articles), old(db.nextArticleId)), old(db.sources), renv).table.rows;
        var ids := ArticleIds(K.FilterPassMatches(mid, old(db.keywords), []));
        && db.articles == K.MarkFiltered(mid, ids)
        && r.newArticles == |mid| - |old(db.articles)|
        && r.filteredCount == |ids|
      ensures r.newArticles >= 0 && r.newArticles == |db.articles| - |old(db.articles)|
      ensures r.failedSources == |FailedSources(old(db.sources), renv)|
      ensures |db.sources| == |old(db.sources)|
      ensures forall i :: 0 <= i < |db.sources| ==> db.sources[i] == R.SourceAfter(old(db.sources)[i], renv)
      ensures FetchTask(old(db.articles), old(db.nextArticleId), old(db.sources), old(db.keywords), renv) ==
        FetchState(db.articles, db.nextArticleId, db.keywords, r)
      ensures db.webhookConfig == old(db.webhookConfig) && db.aiSettings == old(db.aiSettings)
      ensures db.aiFilterConfig == old(db.aiFilterConfig)
    {
      ghost var t0 := R.ArticleTable(db.articles, db.nextArticleId);
      ghost var srcs0 := db.sources;
      var results := R.FetchAndSaveAllSources(db, renv);
      R.RoundTable(t0, srcs0, renv);
      RoundFailedCount(t0, srcs0, renv);
      var totalArticles := R.TotalSaved(results);
      var failed := FailedCount(results);
      var filtered := K.FilterArticlesByKeywords(db, []);
      r := FetchReport(totalArticles, |filtered|, failed);
    }

    /** `ai_summary_task`: the batch over the first 20 pending articles, or
        "nothing to do" when there is none. */
    method AiSummaryTask(db: Db, env: AppSettings, ai: (string, string) -> A.AiReply) returns (r: TaskReport)
      requires db.Valid()
      modifies db
      ensures db.Valid()
      ensures var sel := SummarySelection(old(db.articles));
        && (sel == [] ==> r == NothingToSummarise && db.articles == old(db.articles))
        && (sel != [] ==> r.SummaryReport? && r.total == |sel| && r.success <= r.total)
      ensures |db.articles| == |old(db.articles)|
      ensures forall i :: 0 <= i < |db.articles| && i !in SummarySelection(old(db.articles)) ==>
        db.articles[i] == old(db.articles)[i]
      ensures SummaryTask(old(db.articles), old(db.aiSettings), env, ai) == SummaryState(db.articles, db.aiSettings, r)
      ensures db.nextArticleId == old(db.nextArticleId) && db.sources == old(db.sources)
      ensures db.keywords == old(db.keywords)
      ensures db.webhookConfig == old(db.webhookConfig) && db.aiFilterConfig == old(db.aiFilterConfig)
    {
      var sel := SummarySelection(db.articles);
      if sel == [] {
        return NothingToSummarise;
      }
      ghost var rows0 := db.articles;
      var success := A.SummarizeArticlesBatch(db, env, sel, ai);
      r := SummaryReport(|sel|, success);
      BatchIsSummaryTask(rows0, old(db.aiSettings), env, ai, db.articles, db.aiSettings, success);
    }

    /** `run_full_pipeline`: the fetch task, then the summary task on the
        table the fetch left behind. */
    method RunFullPipeline(db: Db, renv: R.Env, env: AppSettings, ai: (string, string) -> A.AiReply)
      returns (fetch: TaskReport, summary: TaskReport)
      requires db.Valid()
      modifies db
      ensures db.Valid()
      ensures fetch.FetchReport? && fetch.failedSources == |FailedSources(old(db.sources), renv)|
      ensures summary == NothingToSummarise || (summary.SummaryReport? && summary.success <= summary.total <= SUMMARY_BATCH_LIMIT)
      ensures var f := FetchTask(old(db.articles), old(db.nextArticleId), old(db.sources), old(db.keywords), renv);
        var s := SummaryTask(f.articles, old(db.aiSettings), env, ai);
        && fetch == f.report && summary == s.report
        && db.articles == s.articles && db.nextArticleId == f.next
        && db.keywords == f.keywords && db.aiSettings == s.settings
      ensures |db.sources| == |old(db.sources)|
      ensures forall i :: 0 <= i < |db.sources| ==> db.sources[i] == R.SourceAfter(old(db.sources)[i], renv)
      ensures db.webhookConfig == old(db.webhookConfig) && db.aiFilterConfig == old(db.aiFilterConfig)
      ensures forall i :: 0 <= i < |old(db.articles)| && old(db.articles)[i].isFiltered ==>
        db.articles[i].isFiltered && db.articles[i].id == old(db.articles)[i].id
    {
      fetch := FetchRssTask(db, renv);
      summary := AiSummaryTask(db, env, ai);
    }
  }
}
