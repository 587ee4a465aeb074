/** The jobs table as a queue, and the worker's passes over it. */
module Jobs {
  import opened Wrappers
  import opened Sums

  // ------------------------------------------------------------ rows

  datatype JobKind =
    | CreateDatabase | DeleteDatabase | SuspendDatabase | ResumeDatabase | RestoreDatabase | MigrateDatabase
    | BackupDatabase | DeliverWebhook | VerifyBackup

  datatype JobStatus = Queued | Running | Retrying | Succeeded | Failed

  /** Times are in microseconds. */
  datatype Job = Job(kind: JobKind, idempotencyKey: Option<Key>, resource: Resource, status: JobStatus,
                     attempts: nat, maxAttempts: nat, nextRunAt: int)

  datatype Resource = DatabaseRow(id: nat) | BackupRow(id: nat) | DeliveryRow(id: nat)

  datatype ResourceStatus = InProgress | Up | Down

  /** jobs: in the order of created_at */
  datatype Tables = Tables(jobs: seq<Job>, resources: map<Resource, ResourceStatus>)

  const DefaultMaxAttempts: nat := 5
  const Second: int := 1_000_000

  // ------------------------------------------------------------ specification

  function PowerOfTwo(n: nat): (r: nat)
    ensures r >= 1
  {
    if n == 0 then 1 else 2 * PowerOfTwo(n - 1)
  }

  /** Seconds until the next attempt, after the given number of attempts. */
  function Backoff(attempts: nat): int
    requires attempts > 0
  {
    if 5 * PowerOfTwo(attempts - 1) < 300 then 5 * PowerOfTwo(attempts - 1) else 300
  }

  predicate Due(job: Job, now: int) {
    (job.status == Queued || job.status == Retrying) && job.nextRunAt <= now
  }

  function OldestDue(jobs: seq<Job>, now: int): (found: Option<nat>)
    ensures found.Some? ==> found.value < |jobs| && Due(jobs[found.value], now)
    ensures found.Some? ==> forall i :: 0 <= i < found.value ==> !Due(jobs[i], now)
    ensures found.None? ==> forall i :: 0 <= i < |jobs| ==> !Due(jobs[i], now)
  {
    if jobs == [] then None
    else
      var last := |jobs| - 1;
      var earlier := OldestDue(jobs[..last], now);
      assert forall i :: 0 <= i < last ==> jobs[i] == jobs[..last][i];
      if earlier.Some? then earlier else if Due(jobs[last], now) then Some(last) else None
  }

  function WithKey(jobs: seq<Job>, key: Key): (found: Option<nat>)
    ensures found.Some? ==> found.value < |jobs| && jobs[found.value].idempotencyKey == Some(key)
    ensures found.None? ==> forall i :: 0 <= i < |jobs| ==> jobs[i].idempotencyKey != Some(key)
  {
    if jobs == [] then None
    else
      var last := |jobs| - 1;
      assert forall i :: 0 <= i < last ==> jobs[i] == jobs[..last][i];
      if jobs[last].idempotencyKey == Some(key) then Some(last) else WithKey(jobs[..last], key)
  }

  function NewJob(kind: JobKind, key: Option<Key>, resource: Resource, now: int): Job {
    Job(kind, key, resource, Queued, 0, DefaultMaxAttempts, now)
  }

  function Enqueued(t: Tables, kind: JobKind, key: Option<Key>, resource: Resource, now: int): Tables {
    if key.Some? && WithKey(t.jobs, key.value).Some? then t
    else t.(jobs := t.jobs + [NewJob(kind, key, resource, now)])
  }

  function Claimed(job: Job): Job {
    job.(status := Running, attempts := job.attempts + 1)
  }

  function FailedOrRetried(job: Job, now: int): Job
    requires job.attempts > 0
  {
    if job.attempts >= job.maxAttempts then job.(status := Failed)
    else job.(status := Retrying, nextRunAt := now + Backoff(job.attempts) * Second)
  }

  /** The terminal failure handlers mark the row the job works on, verify_backup's excepted. */
  function MarkedDown(resources: map<Resource, ResourceStatus>, job: Job): map<Resource, ResourceStatus> {
    if job.kind != VerifyBackup && job.resource in resources then resources[job.resource := Down] else resources
  }

  /** What the handler did to the rows before it returned or raised, and when that was. */
  datatype Handling = Handling(resources: map<Resource, ResourceStatus>, raised: bool, done: int)

  function Finished(t: Tables, j: nat, h: Handling): Tables
    requires j < |t.jobs| && t.jobs[j].attempts > 0
  {
    if !h.raised then Tables(t.jobs[j := t.jobs[j].(status := Succeeded)], h.resources)
    else
      var job := FailedOrRetried(t.jobs[j], h.done);
      Tables(t.jobs[j := job], if job.status == Failed then MarkedDown(h.resources, job) else h.resources)
  }

  /** One pass of the worker. */
  function Passed(t: Tables, now: int, h: Handling): Tables {
    match OldestDue(t.jobs, now)
    case None => t
    case Some(j) => Finished(t.(jobs := t.jobs[j := Claimed(t.jobs[j])]), j, h)
  }

  // ------------------------------------------------------------ the code

  class JobQueue {
    var jobs: seq<Job>
    var resources: map<Resource, ResourceStatus>

    function State(): Tables
      reads this
    {
      Tables(jobs, resources)
    }

    method Enqueue(kind: JobKind, key: Option<Key>, resource: Resource, now: int) returns (j: nat)
      modifies this`jobs
      ensures State() == Enqueued(old(State()), kind, key, resource, now)
      ensures j < |jobs| && (key.Some? ==> jobs[j].idempotencyKey == key)
      ensures
        if key.Some? && exists i :: 0 <= i < |old(jobs)| && old(jobs)[i].idempotencyKey == key then jobs == old(jobs)
        else jobs == old(jobs) + [Job(kind, key, resource, Queued, 0, 5, now)] && j == |old(jobs)|
    {
      if key.Some? {
        var existing := WithKey(jobs, key.value);
        if existing.Some? {
          return existing.value;
        }
      }
      j := |jobs|;
      jobs := jobs + [NewJob(kind, key, resource, now)];
    }

    method ClaimNextJob(now: int) returns (claimed: Option<nat>)
      modifies this`jobs
      ensures claimed == OldestDue(old(jobs), now)
      ensures jobs == if claimed.None? then old(jobs) else old(jobs)[claimed.value := Claimed(old(jobs)[claimed.value])]
    {
      claimed := OldestDue(jobs, now);
      if claimed.Some? {
        var j := claimed.value;
        jobs := jobs[j := jobs[j].(status := Running, attempts := jobs[j].attempts + 1)];
      }
    }

    method MarkSucceeded(j: nat)
      requires j < |jobs|
      modifies this`jobs
      ensures jobs == old(jobs)[j := old(jobs)[j].(status := Succeeded)]
    {
      jobs := jobs[j := jobs[j].(status := Succeeded)];
    }

    method MarkFailedOrRetry(j: nat, now: int)
      requires j < |jobs| && jobs[j].attempts > 0
      modifies this`jobs
      ensures jobs == old(jobs)[j := FailedOrRetried(old(jobs)[j], now)]
    {
      var job := jobs[j];
      if job.attempts >= job.maxAttempts {
        jobs := jobs[j := job.(status := Failed)];
        return;
      }
      jobs := jobs[j := job.(status := Retrying, nextRunAt := now + Backoff(job.attempts) * Second)];
    }

    /** handling says what the handler of the claimed job does. */
    method RunOnce(now: int, handling: Handling) returns (found: bool)
      modifies this
      ensures State() == Passed(old(State()), now, handling)
      ensures found == OldestDue(old(jobs), now).Some?
    {
      var claimed := ClaimNextJob(now);
      if claimed.None? {
        return false;
      }
      var j := claimed.value;
      resources := handling.resources;
      if !handling.raised {
        MarkSucceeded(j);
      } else {
        MarkFailedOrRetry(j, handling.done);
        if jobs[j].status == Failed {
          if jobs[j].kind != VerifyBackup && jobs[j].resource in resources {
            resources := resources[jobs[j].resource := Down];
          }
        }
      }
      return true;
    }
  }

  // ------------------------------------------------------------ runs

  datatype Event =
    | Enqueue(kind: JobKind, key: Option<Key>, resource: Resource, at: int)
    | Pass(now: int, handling: Handling)

  /** One claim that the worker made, and how it ended. */
  datatype Claim = Claim(job: nat, at: int, done: int, raised: bool)

  datatype World = World(tables: Tables, log: seq<Claim>)

  function Next(w: World, e: Event): World {
    match e
    case Enqueue(kind, key, resource, at) => w.(tables := Enqueued(w.tables, kind, key, resource, at))
    case Pass(now, h) =>
      var found := OldestDue(w.tables.jobs, now);
      World(Passed(w.tables, now, h),
            if found.None? then w.log else w.log + [Claim(found.value, now, h.done, h.raised)])
  }

  function Run(resources: map<Resource, ResourceStatus>, events: seq<Event>): World {
    if events == [] then World(Tables([], resources), [])
    else Next(Run(resources, events[..|events| - 1]), events[|events| - 1])
  }

  // ------------------------------------------------------------ counting claims

  function ClaimsOf(log: seq<Claim>, job: nat): nat {
    if log == [] then 0
    else ClaimsOf(log[..|log| - 1], job) + if log[|log| - 1].job == job then 1 else 0
  }

  function FailuresOf(log: seq<Claim>, job: nat): nat {
    if log == [] then 0
    else
      var last := log[|log| - 1];
      FailuresOf(log[..|log| - 1], job) + if last.job == job && last.raised then 1 else 0
  }

  function LastClaim(log: seq<Claim>, job: nat): (last: Option<nat>)
    ensures last.Some? ==> last.value < |log| && log[last.value].job == job
  {
    if log == [] then None
    else if log[|log| - 1].job == job then Some(|log| - 1)
    else LastClaim(log[..|log| - 1], job)
  }

  /** A job is claimed again only after a failure, and only once its backoff is over. */
  predicate Spaced(log: seq<Claim>) {
    log == [] ||
    var before, last := log[..|log| - 1], log[|log| - 1];
    && Spaced(before)
    && match LastClaim(before, last.job)
       case None => ClaimsOf(before, last.job) == 0
       case Some(i) =>
         && before[i].raised && ClaimsOf(before, last.job) > 0
         && last.at >= before[i].done + Backoff(ClaimsOf(before, last.job)) * Second
  }

  function Attempts(jobs: seq<Job>): (counts: seq<int>)
    ensures |counts| == |jobs|
  {
    seq(|jobs|, i requires 0 <= i < |jobs| => jobs[i].attempts)
  }

  function Budgets(jobs: seq<Job>): (counts: seq<int>)
    ensures |counts| == |jobs|
  {
    seq(|jobs|, i requires 0 <= i < |jobs| => jobs[i].maxAttempts)
  }

  // ------------------------------------------------------------ the invariant

  predicate JobOk(job: Job) {
    && job.maxAttempts > 0
    && match job.status
       case Queued => job.attempts == 0
       case Running => false
       case Retrying => 0 < job.attempts < job.maxAttempts
       case Succeeded => 0 < job.attempts <= job.maxAttempts
       case Failed => job.attempts == job.maxAttempts
  }

  /** The log agrees with the row of job j. */
  predicate LogAgrees(w: World, j: nat)
    requires j < |w.tables.jobs|
  {
    var job := w.tables.jobs[j];
    && ClaimsOf(w.log, j) == job.attempts
    && FailuresOf(w.log, j) == (if job.status == Succeeded then job.attempts - 1 else job.attempts)
    && match LastClaim(w.log, j)
       case None => job.attempts == 0
       case Some(i) =>
         && job.attempts > 0
         && (job.status == Retrying ==>
               w.log[i].raised && job.nextRunAt == w.log[i].done + Backoff(job.attempts) * Second)
  }

  ghost predicate Inv(w: World) {
    && (forall j :: 0 <= j < |w.tables.jobs| ==> JobOk(w.tables.jobs[j]) && LogAgrees(w, j))
    && (forall i :: 0 <= i < |w.log| ==> w.log[i].job < |w.tables.jobs|)
    && Spaced(w.log)
    && |w.log| == SumSeq(Attempts(w.tables.jobs))
    && (forall i, j :: 0 <= i < j < |w.tables.jobs| && w.tables.jobs[i].idempotencyKey.Some? ==>
          w.tables.jobs[i].idempotencyKey != w.tables.jobs[j].idempotencyKey)
  }

  lemma {:induction false} NeverClaimed(log: seq<Claim>, j: nat)
    requires forall i :: 0 <= i < |log| ==> log[i].job < j
    ensures ClaimsOf(log, j) == FailuresOf(log, j) == 0 && LastClaim(log, j) == None
  {
    if log == [] {
    } else {
      NeverClaimed(log[..|log| - 1], j);
    }
  }

  lemma EnqueueKeepsInv(w: World, kind: JobKind, key: Option<Key>, resource: Resource, at: int)
    requires Inv(w)
    ensures Inv(Next(w, Event.Enqueue(kind, key, resource, at)))
  {
    var after := Next(w, Event.Enqueue(kind, key, resource, at));
    if after != w {
      NeverClaimed(w.log, |w.tables.jobs|);
      var counts := Attempts(after.tables.jobs);
      assert counts[..|counts| - 1] == Attempts(w.tables.jobs);
      forall j | 0 <= j < |w.tables.jobs| ensures LogAgrees(after, j) {
        assert LogAgrees(w, j);
      }
    }
  }

  lemma LogOneMore(log: seq<Claim>, claim: Claim, j: nat)
    ensures ClaimsOf(log + [claim], j) == ClaimsOf(log, j) + if claim.job == j then 1 else 0
    ensures FailuresOf(log + [claim], j) == FailuresOf(log, j) + if claim.job == j && claim.raised then 1 else 0
    ensures LastClaim(log + [claim], j) == if claim.job == j then Some(|log|) else LastClaim(log, j)
  {
    assert (log + [claim])[..|log|] == log;
  }

  /** The claimed row after its pass, and the entry the pass adds to the log. */
  predicate PassedOver(w: World, j: nat, claim: Claim, after: World) {
    && j < |w.tables.jobs| && claim.job == j
    && after.log == w.log + [claim]
    && |after.tables.jobs| == |w.tables.jobs|
    && after.tables.jobs == w.tables.jobs[j := after.tables.jobs[j]]
    && var before, row := w.tables.jobs[j], after.tables.jobs[j];
       && (before.status == Queued || before.status == Retrying) && before.nextRunAt <= claim.at
       && row.(status := before.status, nextRunAt := before.nextRunAt) == before.(attempts := before.attempts + 1)
       && if !claim.raised then row.status == Succeeded
          else if row.attempts >= row.maxAttempts then row.status == Failed
          else row.status == Retrying && row.nextRunAt == claim.done + Backoff(row.attempts) * Second
  }

  lemma PassPassesOver(w: World, now: int, h: Handling)
    requires OldestDue(w.tables.jobs, now).Some?
    ensures
      var j := OldestDue(w.tables.jobs, now).value;
      PassedOver(w, j, Claim(j, now, h.done, h.raised), Next(w, Pass(now, h)))
  {
  }

  lemma RowsStayOk(w: World, j: nat, claim: Claim, after: World, i: nat)
    requires PassedOver(w, j, claim, after) && i < |w.tables.jobs|
    requires JobOk(w.tables.jobs[i]) && LogAgrees(w, i)
    ensures JobOk(after.tables.jobs[i]) && LogAgrees(after, i)
  {
    LogOneMore(w.log, claim, i);
  }

  lemma StaysSpaced(w: World, j: nat, claim: Claim, after: World)
    requires PassedOver(w, j, claim, after)
    requires JobOk(w.tables.jobs[j]) && LogAgrees(w, j) && Spaced(w.log)
    ensures Spaced(after.log)
  {
    assert after.log[..|w.log|] == w.log;
  }

  lemma StaysCounted(w: World, j: nat, claim: Claim, after: World)
    requires PassedOver(w, j, claim, after) && |w.log| == SumSeq(Attempts(w.tables.jobs))
    ensures |after.log| == SumSeq(Attempts(after.tables.jobs))
  {
    SumSeqUpdate(Attempts(w.tables.jobs), j, w.tables.jobs[j].attempts + 1);
    assert Attempts(after.tables.jobs) == Attempts(w.tables.jobs)[j := w.tables.jobs[j].attempts + 1];
  }

  lemma PassKeepsInv(w: World, now: int, h: Handling)
    requires Inv(w)
    ensures Inv(Next(w, Pass(now, h)))
  {
    var found := OldestDue(w.tables.jobs, now);
    if found.Some? {
      var after := Next(w, Pass(now, h));
      var j, claim := found.value, Claim(found.value, now, h.done, h.raised);
      PassPassesOver(w, now, h);
      forall i | 0 <= i < |w.tables.jobs| ensures JobOk(after.tables.jobs[i]) && LogAgrees(after, i) {
        RowsStayOk(w, j, claim, after, i);
      }
      StaysSpaced(w, j, claim, after);
      StaysCounted(w, j, claim, after);
    }
  }

  lemma {:induction false} RunKeepsInv(resources: map<Resource, ResourceStatus>, events: seq<Event>)
    ensures Inv(Run(resources, events))
  {
    if events == [] {
    } else {
      RunKeepsInv(resources, events[..|events| - 1]);
      var before, e := Run(resources, events[..|events| - 1]), events[|events| - 1];
      match e {
        case Enqueue(kind, key, resource, at) => EnqueueKeepsInv(before, kind, key, resource, at);
        case Pass(now, h) => PassKeepsInv(before, now, h);
      }
    }
  }

  // ------------------------------------------------------------ what it guarantees

  lemma {:induction false} SumIsMonotone(xs: seq<int>, ys: seq<int>)
    requires |xs| == |ys| && forall i :: 0 <= i < |xs| ==> xs[i] <= ys[i]
    ensures SumSeq(xs) <= SumSeq(ys)
  {
    if xs == [] {
    } else {
      SumIsMonotone(xs[..|xs| - 1], ys[..|ys| - 1]);
    }
  }

  /** The worker never makes more claims than the jobs' attempt budgets allow. */
  lemma ClaimsStayInBudget(resources: map<Resource, ResourceStatus>, events: seq<Event>)
    ensures
      var w := Run(resources, events);
      && |w.log| <= SumSeq(Budgets(w.tables.jobs))
      && forall j :: 0 <= j < |w.tables.jobs| ==> ClaimsOf(w.log, j) <= w.tables.jobs[j].maxAttempts
  {
    RunKeepsInv(resources, events);
    var jobs := Run(resources, events).tables.jobs;
    forall i | 0 <= i < |jobs| ensures Attempts(jobs)[i] <= Budgets(jobs)[i] {
      assert JobOk(jobs[i]);
    }
    SumIsMonotone(Attempts(jobs), Budgets(jobs));
    forall j | 0 <= j < |jobs| ensures ClaimsOf(Run(resources, events).log, j) <= jobs[j].maxAttempts {
      assert JobOk(jobs[j]) && LogAgrees(Run(resources, events), j);
    }
  }

  /** A job is FAILED exactly when its handler has raised as often as it may; between passes none is RUNNING. */
  lemma FailedExactlyAfterMaxFailures(resources: map<Resource, ResourceStatus>, events: seq<Event>, j: nat)
    requires j < |Run(resources, events).tables.jobs|
    ensures
      var w := Run(resources, events);
      var job := w.tables.jobs[j];
      && (job.status == Failed <==> FailuresOf(w.log, j) == job.maxAttempts)
      && (job.status == Succeeded <==> FailuresOf(w.log, j) < ClaimsOf(w.log, j))
      && job.status != Running
  {
    RunKeepsInv(resources, events);
    var w := Run(resources, events);
    assert JobOk(w.tables.jobs[j]) && LogAgrees(w, j);
  }

  /** Retries keep their distance: 5 seconds doubled with every failure, up to 300. */
  lemma RetriesAreSpaced(resources: map<Resource, ResourceStatus>, events: seq<Event>)
    ensures Spaced(Run(resources, events).log)
  {
    RunKeepsInv(resources, events);
  }

  lemma {:induction false} BackoffDoublesUpToTheCap(attempts: nat)
    requires attempts > 0
    ensures Backoff(1) == 5
    ensures Backoff(attempts) == 300 <==> attempts >= 7
    ensures Backoff(attempts + 1) == if attempts >= 6 then 300 else 2 * Backoff(attempts)
  {
    if attempts > 7 {
      BackoffDoublesUpToTheCap(attempts - 1);
    } else {
      assert PowerOfTwo(6) == 64;
    }
  }

  function Remaining(job: Job): nat {
    if (job.status == Queued || job.status == Retrying) && job.attempts < job.maxAttempts
    then job.maxAttempts - job.attempts else 0
  }

  function Measure(jobs: seq<Job>): (counts: seq<int>)
    ensures |counts| == |jobs|
  {
    seq(|jobs|, i requires 0 <= i < |jobs| => Remaining(jobs[i]))
  }

  lemma MeasureFalls(jobs: seq<Job>, j: nat, row: Job)
    requires j < |jobs| && Remaining(row) < Remaining(jobs[j])
    ensures 0 <= SumSeq(Measure(jobs[j := row])) < SumSeq(Measure(jobs))
  {
    SumSeqUpdate(Measure(jobs), j, Remaining(row));
    assert Measure(jobs[j := row]) == Measure(jobs)[j := Remaining(row)];
    SumSeqBound(Measure(jobs[j := row]));
  }

  /** Every pass that finds a job uses up some of what is left, so a queue that gets no new jobs runs dry. */
  lemma PassesRunDry(w: World, now: int, h: Handling)
    requires Inv(w) && OldestDue(w.tables.jobs, now).Some?
    ensures 0 <= SumSeq(Measure(Next(w, Pass(now, h)).tables.jobs)) < SumSeq(Measure(w.tables.jobs))
  {
    var j := OldestDue(w.tables.jobs, now).value;
    assert JobOk(w.tables.jobs[j]);
    PassPassesOver(w, now, h);
    MeasureFalls(w.tables.jobs, j, Next(w, Pass(now, h)).tables.jobs[j]);
  }

  /** A pass leaves the other rows as its handler left them, and the row its job works on too, unless the job has now
      failed for good: then it is marked, except by a verification. */
  lemma OnlyGivingUpMarksTheRow(t: Tables, now: int, h: Handling)
    ensures
      var found := OldestDue(t.jobs, now);
      var after := Passed(t, now, h);
      if found.None? then after == t
      else
        var j := found.value;
        && j < |t.jobs| && j < |after.jobs| && after.jobs[j].resource == t.jobs[j].resource
        && after.resources ==
           if h.raised && after.jobs[j].attempts >= t.jobs[j].maxAttempts && t.jobs[j].kind != VerifyBackup
              && t.jobs[j].resource in h.resources
           then h.resources[t.jobs[j].resource := Down] else h.resources
  {
  }

  /** Enqueueing again under a key that is taken changes nothing; jobs keep distinct keys in every run. */
  lemma KeysStayUnique(resources: map<Resource, ResourceStatus>, events: seq<Event>, again: Event)
    requires again.Enqueue? && again.key.Some?
    requires WithKey(Run(resources, events).tables.jobs, again.key.value).Some?
    ensures Next(Run(resources, events), again) == Run(resources, events)
    ensures
      var jobs := Run(resources, events).tables.jobs;
      forall i :: 0 <= i < |jobs| && jobs[i].idempotencyKey == again.key ==>
        i == WithKey(jobs, again.key.value).value
  {
    RunKeepsInv(resources, events);
  }
}
