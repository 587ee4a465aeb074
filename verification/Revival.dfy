/** A run of the platform in which a database deleted meanwhile comes back to a full node. */
module Revival {
  import opened Wrappers
  import opened Sums
  import opened Clusters
  import opened Placement
  import C = Capacity
  import J = Jobs
  import P = Provisioning

  const Unit := Size(1, 1, 1)

  /** One node with room for one database. */
  const Small := Tables([Node(0, true, Unit)], [], map[], {0})

  /** What happens to the tables: database 0's create job fails once after storing its cluster; database 0 is
      deleted, database 1 takes its room; then the create job gives up. */
  const TableEvents: seq<C.Event> := [
    C.Request(0, 0, true, Unit, false), C.Create(0, false, false), C.RequestDelete(0), C.Delete(0, true, false),
    C.Request(1, 0, true, Unit, false), C.Create(1, true, false), C.Create(0, true, true)]

  function Row(status: Status, cluster: Option<nat>): Database {
    Database(0, true, Unit, status, cluster)
  }

  /** The rows after each of those events. */
  const Rows: seq<map<nat, Database>> := [
    map[],
    map[0 := Row(Creating, None)],
    map[0 := Row(Creating, Some(0))],
    map[0 := Row(Deleting, Some(0))],
    map[0 := Row(Deleted, Some(0))],
    map[0 := Row(Deleted, Some(0)), 1 := Row(Creating, None)],
    map[0 := Row(Deleted, Some(0)), 1 := Row(Running, Some(0))],
    map[0 := Row(Failed, Some(0)), 1 := Row(Running, Some(0))]]

  function Stage(k: nat): Tables
    requires k <= 7
  {
    Small.(databases := Rows[k], clusters := if k < 2 then [] else [Cluster(0, true)])
  }

  lemma OneRow(t: Tables, a: Database, r: Resource)
    requires t.databases == map[0 := a]
    ensures Allocated(t, 0, r) == Share(t, a, 0, r)
  {
    SumOfOne(Shares(t, 0, r), 0);
  }

  lemma TwoRows(t: Tables, a: Database, b: Database, r: Resource)
    requires t.databases == map[0 := a, 1 := b]
    ensures Allocated(t, 0, r) == Share(t, a, 0, r) + Share(t, b, 0, r)
  {
    SumRemove(Shares(t, 0, r), 0);
    SumOfOne(Shares(t, 0, r) - {0}, 1);
  }

  /** The node is free when the two placements happen, and taken from then on. */
  lemma StageLoad(k: nat, r: Resource)
    requires 1 <= k <= 7
    ensures k == 1 || k == 5 ==> Allocated(Stage(k), 0, r) == 0
    ensures k == 6 ==> Allocated(Stage(k), 0, r) == 1
    ensures k == 7 ==> Allocated(Stage(k), 0, r) == 2
  {
    if k <= 4 {
      OneRow(Stage(k), Rows[k][0], r);
    } else {
      TwoRows(Stage(k), Rows[k][0], Rows[k][1], r);
    }
  }

  lemma OneNodeChoice(t: Tables)
    requires WellFormed(t) && t.nodes == Small.nodes && t.activeRegions == {0}
    ensures Allocated(t, 0, Cpu) == Allocated(t, 0, Ram) == Allocated(t, 0, Storage) == 0 ==>
              Choose(t, 0, Unit) == Chosen(0)
    ensures Allocated(t, 0, Cpu) == 1 ==> Choose(t, 0, Unit) == Refused(NoCapacity)
  {
    FitsEach(t, 0, Unit);
    assert Best(t, 0, Unit, 0) == None;
  }

  lemma StageChoice(k: nat)
    requires k == 1 || k == 5 || k == 6
    ensures WellFormed(Stage(k)) && Choose(Stage(k), 0, Unit) == if k == 6 then Refused(NoCapacity) else Chosen(0)
  {
    StageLoad(k, Cpu);
    StageLoad(k, Ram);
    StageLoad(k, Storage);
    OneNodeChoice(Stage(k));
  }

  lemma FirstCreate()
    ensures WellFormed(Stage(1)) && C.Next(Stage(1), TableEvents[1]) == Stage(2)
  {
    StageChoice(1);
    assert FindShared([], 0) == None;
  }

  lemma SecondCreate()
    ensures WellFormed(Stage(5)) && C.Next(Stage(5), TableEvents[5]) == Stage(6)
  {
    StageChoice(5);
    assert FindShared([], 0) == None;
    assert FindShared([Cluster(0, true)], 0) == Some(0);
  }

  lemma RefusedLastTry(t: Tables, id: nat, agentAnswers: bool)
    requires WellFormed(t) && id in t.databases && t.databases[id].status != Running
    requires Choose(t, t.databases[id].region, t.databases[id].size).Refused?
    ensures C.Next(t, C.Create(id, agentAnswers, true)) == Marked(t, id, Failed)
  {
  }

  /** Refused earlier than its last try, the job leaves the tables alone. */
  lemma RefusedEarly(t: Tables, id: nat, agentAnswers: bool)
    requires WellFormed(t) && id in t.databases && t.databases[id].status != Running
    requires Choose(t, t.databases[id].region, t.databases[id].size).Refused?
    ensures C.Next(t, C.Create(id, agentAnswers, false)) == t
    ensures forall last :: C.Attempted(t, C.Create(id, agentAnswers, last)).raised
  {
  }

  lemma RefusedTry()
    ensures WellFormed(Stage(6)) && C.Next(Stage(6), C.Create(0, true, false)) == Stage(6)
    ensures forall last :: C.Attempted(Stage(6), C.Create(0, true, last)).raised
  {
    StageChoice(6);
    RefusedEarly(Stage(6), 0, true);
  }

  lemma LastMark()
    ensures Marked(Stage(6), 0, Failed) == Stage(7)
  {
    assert Rows[6][0 := Row(Failed, Some(0))] == Rows[7];
  }

  lemma LastCreate()
    ensures WellFormed(Stage(6)) && C.Next(Stage(6), TableEvents[6]) == Stage(7)
  {
    StageChoice(6);
    RefusedLastTry(Stage(6), 0, true);
    LastMark();
  }

  lemma StageStep(k: nat)
    requires k < 7
    ensures WellFormed(Stage(k)) && C.Next(Stage(k), TableEvents[k]) == Stage(k + 1)
  {
    if k == 1 {
      FirstCreate();
    } else if k == 5 {
      SecondCreate();
    } else if k == 6 {
      LastCreate();
    }
  }

  // ------------------------------------------------------------ the same with the real queue

  /** The three jobs: to create database 0, to delete it, to create database 1. */
  function JobRow(kind: J.JobKind, id: nat, status: J.JobStatus, attempts: nat, next: int): J.Job {
    J.Job(kind, Some(P.KeyOf(kind, id)), J.DatabaseRow(id), status, attempts, J.DefaultMaxAttempts, next * J.Second)
  }

  function Creation(status: J.JobStatus, attempts: nat, next: int): J.Job {
    JobRow(J.CreateDatabase, 0, status, attempts, next)
  }

  const Deletion := JobRow(J.DeleteDatabase, 0, J.Succeeded, 1, 1)
  const Second := JobRow(J.CreateDatabase, 1, J.Succeeded, 1, 2)

  /** A pass at a second; the agent answers every call but the first. */
  function PassAt(second: int, agentAnswers: bool): P.Event {
    P.Pass(second * J.Second, second * J.Second, true, agentAnswers)
  }

  /** When database 0's job is tried again: after 5, 10, 20 and 40 seconds; the fifth failure is the last. */
  function RetryAt(k: nat): int {
    if k == 6 then 5 else if k == 7 then 15 else if k == 8 then 35 else 75
  }

  function EventAt(k: nat): P.Event {
    if k == 0 then P.RequestCreate(0, 0, true, Unit, 0)
    else if k == 1 then PassAt(0, false)
    else if k == 2 then P.RequestDelete(0, 1 * J.Second)
    else if k == 3 then PassAt(1, true)
    else if k == 4 then P.RequestCreate(1, 0, true, Unit, 2 * J.Second)
    else if k == 5 then PassAt(2, true)
    else PassAt(RetryAt(k), true)
  }

  function FirstEvents(k: nat): (events: seq<P.Event>)
    ensures |events| == k && forall i :: 0 <= i < k ==> events[i] == EventAt(i)
  {
    seq(k, i requires 0 <= i < k => EventAt(i))
  }

  const Events := FirstEvents(10)

  /** While database 0's job is being refused: so many attempts made, the next one at that second. */
  function Waiting(attempts: nat, second: int): P.World {
    P.World(Stage(6), [Creation(J.Retrying, attempts, second), Deletion, Second])
  }

  /** The platform after each of them. */
  function World(k: nat): P.World
    requires k <= 10
  {
    var pending := Creation(J.Retrying, 1, 5);
    if k == 0 then P.World(Stage(0), [])
    else if k == 1 then P.World(Stage(1), [Creation(J.Queued, 0, 0)])
    else if k == 2 then P.World(Stage(2), [pending])
    else if k == 3 then P.World(Stage(3), [pending, JobRow(J.DeleteDatabase, 0, J.Queued, 0, 1)])
    else if k == 4 then P.World(Stage(4), [pending, Deletion])
    else if k == 5 then P.World(Stage(5), [pending, Deletion, JobRow(J.CreateDatabase, 1, J.Queued, 0, 2)])
    else if k < 10 then Waiting(k - 5, RetryAt(k))
    else P.World(Stage(7), [Creation(J.Failed, 5, 75), Deletion, Second])
  }

  lemma Delays()
    ensures J.Backoff(1) == 5 && J.Backoff(2) == 10 && J.Backoff(3) == 20 && J.Backoff(4) == 40
  {
  }

  /** The oldest job is the one that runs whenever it is due. */
  lemma OldestIsDue(jobs: seq<J.Job>, now: int)
    requires jobs != [] && J.Due(jobs[0], now)
    ensures J.OldestDue(jobs, now) == Some(0)
  {
  }

  /** A pass over a create job, given what the attempt makes of the tables. */
  lemma CreatePass(w: P.World, e: P.Event, j: nat, t: Tables, raised: bool)
    requires P.RowsOk(w) && e.Pass? && J.OldestDue(w.jobs, e.now) == Some(j) && w.jobs[j].kind == J.CreateDatabase
    requires
      var job := w.jobs[j];
      var attempt := C.Create(job.resource.id, e.agentAnswers, job.attempts + 1 >= job.maxAttempts);
      C.Attempted(w.tables, attempt).raised == raised && C.Next(w.tables, attempt) == t
    ensures
      var claimed := J.Claimed(w.jobs[j]);
      P.Next(w, e) ==
      P.World(t, w.jobs[j := if raised then J.FailedOrRetried(claimed, e.done) else claimed.(status := J.Succeeded)])
  {
  }

  lemma StageIsOk(k: nat, jobs: seq<J.Job>)
    requires k <= 7
    requires forall j :: 0 <= j < |jobs| ==> P.IsOurs(jobs[j]) && jobs[j].resource.id in Stage(k).databases
    ensures P.RowsOk(P.World(Stage(k), jobs))
  {
  }

  /** A refused pass over the oldest job costs an attempt and a backoff. */
  lemma RefusedPass(t: Tables, job: J.Job, rest: seq<J.Job>, e: P.Event)
    requires e.Pass? && P.RowsOk(P.World(t, [job] + rest)) && J.Due(job, e.now)
    requires job.kind == J.CreateDatabase && job.attempts + 1 < job.maxAttempts
    requires
      var attempt := C.Create(job.resource.id, e.agentAnswers, false);
      C.Attempted(t, attempt).raised && C.Next(t, attempt) == t
    ensures
      P.Next(P.World(t, [job] + rest), e) == P.World(t, [J.FailedOrRetried(J.Claimed(job), e.done)] + rest)
  {
    var w := P.World(t, [job] + rest);
    OldestIsDue(w.jobs, e.now);
    CreatePass(w, e, 0, t, true);
    assert w.jobs[0 := J.FailedOrRetried(J.Claimed(job), e.done)] == [J.FailedOrRetried(J.Claimed(job), e.done)] + rest;
  }

  lemma RetriedRow(n: nat, second: int)
    requires 1 <= n <= 3
    ensures
      J.FailedOrRetried(J.Claimed(Creation(J.Retrying, n, second)), second * J.Second) ==
      Creation(J.Retrying, n + 1, second + J.Backoff(n + 1))
  {
  }

  lemma RefusedStep(n: nat, second: int)
    requires 1 <= n <= 3
    ensures P.RowsOk(Waiting(n, second))
    ensures P.Next(Waiting(n, second), PassAt(second, true)) == Waiting(n + 1, second + J.Backoff(n + 1))
  {
    var job, rest := Creation(J.Retrying, n, second), [Deletion, Second];
    assert [job, Deletion, Second] == [job] + rest;
    StageIsOk(6, [job] + rest);
    RefusedTry();
    RefusedPass(Stage(6), job, rest, PassAt(second, true));
    RetriedRow(n, second);
    var next := Creation(J.Retrying, n + 1, second + J.Backoff(n + 1));
    assert [next] + rest == [next, Deletion, Second];
  }

  lemma RequestSteps(k: nat)
    requires k == 0 || k == 2 || k == 4
    ensures P.RowsOk(World(k)) && P.Next(World(k), EventAt(k)) == World(k + 1)
  {
    StageStep(k);
  }

  lemma OnlyTheLastIsDue(jobs: seq<J.Job>, now: int)
    requires jobs != [] && J.Due(jobs[|jobs| - 1], now)
    requires forall i :: 0 <= i < |jobs| - 1 ==> !J.Due(jobs[i], now)
    ensures J.OldestDue(jobs, now) == Some(|jobs| - 1)
  {
  }

  /** The first create attempt, whose agent call fails. */
  lemma FirstPass()
    ensures P.RowsOk(World(1)) && P.Next(World(1), EventAt(1)) == World(2)
  {
    OldestIsDue(World(1).jobs, 0);
    Delays();
    StageStep(1);
    StageChoice(1);
  }

  lemma DeletionPass()
    ensures P.RowsOk(World(3)) && P.Next(World(3), EventAt(3)) == World(4)
  {
    OnlyTheLastIsDue(World(3).jobs, EventAt(3).now);
    StageStep(3);
  }

  /** A pass over the youngest job that brings its database up. */
  lemma SuccessfulPass(w: P.World, first: seq<J.Job>, job: J.Job, e: P.Event, t: Tables)
    requires P.RowsOk(w) && w.jobs == first + [job] && e.Pass? && job.kind == J.CreateDatabase && J.Due(job, e.now)
    requires forall i :: 0 <= i < |first| ==> !J.Due(first[i], e.now)
    requires
      var attempt := C.Create(job.resource.id, e.agentAnswers, job.attempts + 1 >= job.maxAttempts);
      !C.Attempted(w.tables, attempt).raised && C.Next(w.tables, attempt) == t
    ensures P.Next(w, e) == P.World(t, first + [J.Claimed(job).(status := J.Succeeded)])
  {
    OnlyTheLastIsDue(w.jobs, e.now);
    CreatePass(w, e, |first|, t, false);
    assert w.jobs[|first| := J.Claimed(job).(status := J.Succeeded)] ==
           first + [J.Claimed(job).(status := J.Succeeded)];
  }

  /** The creation of database 1, whatever other jobs wait. */
  lemma CreationOfTheSecond(first: seq<J.Job>)
    requires forall i :: 0 <= i < |first| ==>
               P.IsOurs(first[i]) && first[i].resource.id == 0 && !J.Due(first[i], 2 * J.Second)
    ensures
      var w := P.World(Stage(5), first + [JobRow(J.CreateDatabase, 1, J.Queued, 0, 2)]);
      P.RowsOk(w) && P.Next(w, PassAt(2, true)) == P.World(Stage(6), first + [Second])
  {
    var job := JobRow(J.CreateDatabase, 1, J.Queued, 0, 2);
    StageIsOk(5, first + [job]);
    SecondCreate();
    SuccessfulPass(P.World(Stage(5), first + [job]), first, job, PassAt(2, true), Stage(6));
  }

  lemma SecondPass()
    ensures P.RowsOk(World(5)) && P.Next(World(5), EventAt(5)) == World(6)
  {
    var first := [Creation(J.Retrying, 1, 5), Deletion];
    CreationOfTheSecond(first);
    assert World(5).jobs == first + [JobRow(J.CreateDatabase, 1, J.Queued, 0, 2)];
    assert World(6).jobs == first + [Second];
  }

  /** A pass over the oldest job on its last try, refused. */
  lemma LastRefusedPass(t: Tables, job: J.Job, rest: seq<J.Job>, e: P.Event, after: Tables)
    requires e.Pass? && P.RowsOk(P.World(t, [job] + rest)) && J.Due(job, e.now)
    requires job.kind == J.CreateDatabase && job.attempts + 1 == job.maxAttempts
    requires
      var attempt := C.Create(job.resource.id, e.agentAnswers, true);
      C.Attempted(t, attempt).raised && C.Next(t, attempt) == after
    ensures
      P.Next(P.World(t, [job] + rest), e) ==
      P.World(after, [job.(status := J.Failed, attempts := job.maxAttempts)] + rest)
  {
    var w := P.World(t, [job] + rest);
    OldestIsDue(w.jobs, e.now);
    CreatePass(w, e, 0, after, true);
    var failed := job.(status := J.Failed, attempts := job.maxAttempts);
    assert w.jobs[0 := failed] == [failed] + rest;
  }

  lemma LastPass(second: int)
    ensures P.RowsOk(Waiting(4, second))
    ensures P.Next(Waiting(4, second), PassAt(second, true)) ==
            P.World(Stage(7), [Creation(J.Failed, 5, second), Deletion, Second])
  {
    var job, rest := Creation(J.Retrying, 4, second), [Deletion, Second];
    assert [job, Deletion, Second] == [job] + rest;
    StageIsOk(6, [job] + rest);
    RefusedTry();
    LastCreate();
    LastRefusedPass(Stage(6), job, rest, PassAt(second, true), Stage(7));
    assert [Creation(J.Failed, 5, second)] + rest == [Creation(J.Failed, 5, second), Deletion, Second];
  }

  lemma TryStep(k: nat)
    requires 6 <= k < 9
    ensures P.RowsOk(World(k)) && P.Next(World(k), EventAt(k)) == World(k + 1)
  {
    Delays();
    RefusedStep(k - 5, RetryAt(k));
  }

  lemma WorldStep(k: nat)
    requires k < 10
    ensures P.RowsOk(World(k)) && P.Next(World(k), EventAt(k)) == World(k + 1)
  {
    if k == 0 || k == 2 || k == 4 {
      RequestSteps(k);
    } else if k == 1 {
      FirstPass();
    } else if k == 3 {
      DeletionPass();
    } else if k == 5 {
      SecondPass();
    } else if k < 9 {
      TryStep(k);
    } else {
      LastPass(RetryAt(k));
    }
  }

  lemma WorldStart()
    ensures World(0) == P.Empty(Small.nodes, {0}) && P.Inv(World(0))
  {
    P.EmptyIsOk(Small.nodes, {0});
  }

  lemma {:induction false} RunWorld(start: P.World, k: nat)
    requires k <= 10 && P.Inv(start) && start == World(0)
    ensures P.Run(start, FirstEvents(k)) == World(k)
  {
    if k == 0 {
    } else {
      RunWorld(start, k - 1);
      WorldStep(k - 1);
      assert FirstEvents(k)[..k - 1] == FirstEvents(k - 1);
    }
  }

  lemma RunOfEvents(start: P.World, events: seq<P.Event>) returns (end: P.World)
    requires start == World(0) && events == Events
    ensures P.Inv(start) && end == P.Run(start, events) && end == World(10)
  {
    WorldStart();
    RunWorld(start, |events|);
    end := P.Run(start, events);
  }

  lemma EmptyIsWithinCapacity(t: Tables)
    requires t.databases == map[] && forall n :: 0 <= n < |t.nodes| ==> forall r: Resource :: t.nodes[n].total.Of(r) > 0
    ensures WithinCapacity(t)
  {
    forall n, r | 0 <= n < |t.nodes| ensures Allocated(t, n, r) == 0 {
      assert Shares(t, n, r) == map[];
    }
  }

  lemma StageSevenOvercommits()
    ensures !WithinCapacity(Stage(7))
  {
    StageLoad(7, Cpu);
    assert Allocated(Stage(7), 0, Cpu) > Small.nodes[0].total.Of(Cpu);
  }

  /** An empty node of size one ends up hosting two databases of size one, with the queue's own five attempts. */
  lemma RevivalOvercommits()
    ensures P.Inv(World(0)) && World(0) == P.Empty(Small.nodes, {0}) && WithinCapacity(World(0).tables)
    ensures !WithinCapacity(P.Run(World(0), Events).tables)
  {
    var end := RunOfEvents(World(0), Events);
    EmptyIsWithinCapacity(World(0).tables);
    StageSevenOvercommits();
  }

  /** Database 0 is FAILED, its create and its delete job have both ended. */
  lemma RequestAbandons(w: P.World, now: int)
    requires P.Inv(w) && w == World(10)
    ensures P.Abandoned(P.Next(w, P.RequestDelete(0, now)), 0)
  {
    assert w.jobs[1] == Deletion;
    P.DeletionIsAbandonedIff(w, 0, now);
  }

  /** And when database 0 is then asked to be deleted again, it stays DELETING for ever. */
  lemma SecondDeletionIsAbandoned(now: int, later: seq<P.Event>)
    ensures P.Inv(World(0)) && P.Abandoned(P.Run(World(0), Events + [P.RequestDelete(0, now)] + later), 0)
  {
    var end := RunOfEvents(World(0), Events);
    var all := Events + [P.RequestDelete(0, now)];
    assert all[..|Events|] == Events;
    RequestAbandons(end, now);
    P.RunAppend(World(0), all, later);
    P.AbandonedForEver(P.Run(World(0), all), later, 0);
  }
}
