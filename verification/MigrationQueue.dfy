/** The migration jobs as rows of the jobs table. */
module MigrationQueue {
  import opened Wrappers
  import opened Migration
  import J = Jobs

  function StatusOf(job: Job): J.JobStatus {
    match job.state
    case Waiting => if job.attempts == 0 then J.Queued else J.Retrying
    case InProgress => J.Running
    case Succeeded => J.Succeeded
    case GivenUp => J.Failed
  }

  /** Migration jobs carry no idempotency key. The platform is about one database, 0. */
  function Row(job: Job, nextRunAt: int): J.Job {
    J.Job(J.MigrateDatabase, None, J.DatabaseRow(0), StatusOf(job), job.attempts, MaxAttempts, nextRunAt)
  }

  function Rows(jobs: seq<Job>, nextRuns: seq<int>): (rows: seq<J.Job>)
    requires |nextRuns| == |jobs|
    ensures |rows| == |jobs| && forall j :: 0 <= j < |rows| ==> rows[j] == Row(jobs[j], nextRuns[j])
  {
    seq(|jobs|, j requires 0 <= j < |jobs| => Row(jobs[j], nextRuns[j]))
  }

  /** When the jobs run next, after an attempt of job j that ended at the given time; attempts counts it. */
  function NextRuns(attempts: nat, j: nat, nextRuns: seq<int>, raised: bool, done: int): (after: seq<int>)
    requires j < |nextRuns| && attempts > 0
    ensures |after| == |nextRuns|
  {
    if raised && attempts < MaxAttempts then nextRuns[j := done + J.Backoff(attempts) * J.Second] else nextRuns
  }

  /** The job once its attempt is over. */
  function Ended(job: Job, raised: bool): Job {
    Job(job.target, job.attempts + 1,
        if !raised then Succeeded else if job.attempts + 1 >= MaxAttempts then GivenUp else Waiting)
  }

  /** Claim and verdict are the queue's own. */
  lemma EndedIsAPass(jobs: seq<Job>, j: nat, nextRuns: seq<int>, now: int, raised: bool, done: int)
    requires |nextRuns| == |jobs| && J.OldestDue(Rows(jobs, nextRuns), now) == Some(j)
    ensures j < |jobs| && jobs[j].state == Waiting
    ensures
      Rows(jobs[j := Ended(jobs[j], raised)], NextRuns(jobs[j].attempts + 1, j, nextRuns, raised, done)) ==
      J.Passed(J.Tables(Rows(jobs, nextRuns), map[]), now, J.Handling(map[], raised, done)).jobs
  {
    var rows := Rows(jobs, nextRuns);
    assert J.Due(rows[j], now) && rows[j] == Row(jobs[j], nextRuns[j]);
  }
}
