/** The part of an APScheduler scheduler that the services touch: a table of
    jobs keyed by id and the running flag. Firing times, executors and
    `max_instances` enforcement belong to the library and are not modelled. */
module Jobs {
  import opened Common

  /** `IntervalTrigger(hours=…, minutes=…)` or `CronTrigger(...)`; an
      absent cron field is the library's wildcard. */
  datatype Trigger =
    | Interval(hours: int, minutes: int)
    | Cron(dayOfWeek: Option<int>, day: Option<int>, hour: Option<int>, minute: seq<int>)

  /** The callables the two schedulers register. */
  datatype Task = FetchRssJob | AiSummaryJob | WebhookPushJob

  datatype Job = Job(id: string, name: string, task: Task, trigger: Trigger, maxInstances: nat)

  /** The ranges `CronTrigger` accepts; a value outside them raises
      ValueError when the trigger is built. */
  predicate CronValid(t: Trigger) {
    t.Cron? ==>
      (t.dayOfWeek.Some? ==> 0 <= t.dayOfWeek.value <= 6) &&
      (t.day.Some? ==> 1 <= t.day.value <= 31) &&
      (t.hour.Some? ==> 0 <= t.hour.value <= 23) &&
      (forall k :: 0 <= k < |t.minute| ==> 0 <= t.minute[k] <= 59)
  }

  /** A scheduler instance: its job table (pending jobs included) and
      whether it has been started. */
  class JobTable {
    var jobs: map<string, Job>
    var running: bool

    ghost predicate Valid()
      reads this
    {
      forall id :: id in jobs ==> jobs[id].id == id
    }

    constructor ()
      ensures Valid() && jobs == map[] && !running
    {
      jobs := map[];
      running := false;
    }

    /** `add_job(..., replace_existing=True)`. */
    method AddJob(job: Job)
      requires Valid()
      modifies this
      ensures Valid()
      ensures jobs == old(jobs)[job.id := job] && running == old(running)
    {
      jobs := jobs[job.id := job];
    }

    /** Removing the job with `id`, if there is one. */
    method RemoveJob(id: string)
      requires Valid()
      modifies this
      ensures Valid()
      ensures jobs == old(jobs) - {id} && running == old(running)
    {
      jobs := jobs - {id};
    }

    /** `start()`; the library raises when the scheduler already runs. */
    method Start()
      requires !running
      modifies this
      ensures running && jobs == old(jobs)
    {
      running := true;
    }

    /** `shutdown()`; the library raises when the scheduler does not run. */
    method Shutdown()
      requires running
      modifies this
      ensures !running && jobs == old(jobs)
    {
      running := false;
    }
  }
}
