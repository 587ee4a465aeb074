/** The worker over one state: the jobs table and the databases its create, restore and delete jobs work on. */
module Provisioning {
  import opened Wrappers
  import opened Placement
  import C = Capacity
  import J = Jobs

  datatype World = World(tables: Tables, jobs: seq<J.Job>)

  // ------------------------------------------------------------ specification

  /** The keys that make one create, one restore and one delete job per database. */
  function KeyOf(kind: J.JobKind, id: nat): Key {
    match kind
    case CreateDatabase => 3 * id
    case RestoreDatabase => 3 * id + 1
    case _ => 3 * id + 2
  }

  function Enqueued(jobs: seq<J.Job>, kind: J.JobKind, id: nat, now: int): seq<J.Job> {
    J.Enqueued(J.Tables(jobs, map[]), kind, Some(KeyOf(kind, id)), J.DatabaseRow(id), now).jobs
  }

  predicate IsOurs(job: J.Job) {
    && (job.kind == J.CreateDatabase || job.kind == J.RestoreDatabase || job.kind == J.DeleteDatabase)
    && job.resource.DatabaseRow?
  }

  predicate IsCreation(job: J.Job) {
    job.kind == J.CreateDatabase || job.kind == J.RestoreDatabase
  }

  /** The attempt that the claimed job makes; it is the last one when the budget is used up. */
  function AttemptOf(job: J.Job, backupUsable: bool, agentAnswers: bool): C.Event
    requires IsOurs(job)
  {
    var lastTry := job.attempts >= job.maxAttempts;
    if job.kind == J.CreateDatabase then C.Create(job.resource.id, agentAnswers, lastTry)
    else if job.kind == J.RestoreDatabase then C.Restore(job.resource.id, backupUsable, agentAnswers, lastTry)
    else C.Delete(job.resource.id, agentAnswers, lastTry)
  }

  /** Requests come from the API, passes are the worker's: what the backup and the agent turn out to be is told. */
  datatype Event =
    | RequestCreate(id: nat, region: nat, shared: bool, size: Size, now: int)
    | RequestRestore(id: nat, region: nat, shared: bool, size: Size, now: int)
    | RequestDelete(id: nat, now: int)
    | Heartbeat(node: nat, eligible: bool)
    | Pass(now: int, done: int, backupUsable: bool, agentAnswers: bool)

  predicate RowsOk(w: World) {
    && WellFormed(w.tables) && C.Isolated(w.tables)
    && forall j :: 0 <= j < |w.jobs| ==> IsOurs(w.jobs[j]) && w.jobs[j].resource.id in w.tables.databases
  }

  ghost function Worked(w: World, j: nat, e: Event): World
    requires RowsOk(w) && e.Pass? && j < |w.jobs|
  {
    var job := J.Claimed(w.jobs[j]);
    var attempt := AttemptOf(job, e.backupUsable, e.agentAnswers);
    var ended := if C.Attempted(w.tables, attempt).raised then J.FailedOrRetried(job, e.done)
                 else job.(status := J.Succeeded);
    World(C.Next(w.tables, attempt), w.jobs[j := ended])
  }

  ghost function Next(w: World, e: Event): World
    requires RowsOk(w)
  {
    match e
    case RequestCreate(id, region, shared, size, now) =>
      if id in w.tables.databases then w
      else World(C.Next(w.tables, C.Request(id, region, shared, size, false)),
                 Enqueued(w.jobs, J.CreateDatabase, id, now))
    case RequestRestore(id, region, shared, size, now) =>
      if id in w.tables.databases then w
      else World(C.Next(w.tables, C.Request(id, region, shared, size, true)),
                 Enqueued(w.jobs, J.RestoreDatabase, id, now))
    case RequestDelete(id, now) =>
      if id !in w.tables.databases || w.tables.databases[id].status == Deleted then w
      else World(C.Next(w.tables, C.RequestDelete(id)), Enqueued(w.jobs, J.DeleteDatabase, id, now))
    case Heartbeat(n, eligible) => w.(tables := C.Next(w.tables, C.Heartbeat(n, eligible)))
    case Pass(now, _, _, _) =>
      match J.OldestDue(w.jobs, now)
      case None => w
      case Some(j) => Worked(w, j, e)
  }

  // ------------------------------------------------------------ the code

  /** The handler of the job's type. */
  method Handle(plane: ControlPlane, job: J.Job, backupUsable: bool, agentAnswers: bool) returns (raised: bool)
    requires WellFormed(plane.State()) && IsOurs(job)
    modifies plane
    ensures
      var attempt := C.Attempted(old(plane.State()), AttemptOf(job, backupUsable, agentAnswers));
      plane.State() == attempt.tables && raised == attempt.raised
  {
    var contacted: Option<nat>;
    if job.kind == J.CreateDatabase {
      contacted, raised := plane.ExecuteCreateDatabase(job.resource.id, agentAnswers);
    } else if job.kind == J.RestoreDatabase {
      contacted, raised := plane.ExecuteRestoreDatabase(job.resource.id, backupUsable, agentAnswers);
    } else {
      contacted, raised := plane.ExecuteDeleteDatabase(job.resource.id, agentAnswers);
    }
  }

  /** One pass of the worker over the two halves of the platform's database. */
  method RunOnce(queue: J.JobQueue, plane: ControlPlane, now: int, done: int, backupUsable: bool, agentAnswers: bool)
    returns (found: bool)
    requires RowsOk(World(plane.State(), queue.jobs))
    modifies queue, plane
    ensures
      World(plane.State(), queue.jobs) ==
      Next(old(World(plane.State(), queue.jobs)), Pass(now, done, backupUsable, agentAnswers))
    ensures found == J.OldestDue(old(queue.jobs), now).Some?
  {
    var claimed := queue.ClaimNextJob(now);
    if claimed.None? {
      return false;
    }
    var j := claimed.value;
    var id := queue.jobs[j].resource.id;
    var raised := Handle(plane, queue.jobs[j], backupUsable, agentAnswers);
    if !raised {
      queue.MarkSucceeded(j);
    } else {
      queue.MarkFailedOrRetry(j, done);
      if queue.jobs[j].status == J.Failed {
        plane.MarkDatabaseFailed(id);
      }
    }
    return true;
  }

  // ------------------------------------------------------------ the invariant

  predicate Open(job: J.Job) {
    job.status == J.Queued || job.status == J.Retrying
  }

  /** A job that will still work on the creation of the database. */
  predicate Awaited(w: World, id: nat) {
    exists j :: 0 <= j < |w.jobs| && w.jobs[j].resource == J.DatabaseRow(id) && IsCreation(w.jobs[j]) && Open(w.jobs[j])
  }

  predicate KeysFit(jobs: seq<J.Job>) {
    && (forall j :: 0 <= j < |jobs| ==>
          jobs[j].resource.DatabaseRow? && jobs[j].idempotencyKey == Some(KeyOf(jobs[j].kind, jobs[j].resource.id)))
    && (forall i, j :: 0 <= i < j < |jobs| ==> jobs[i].idempotencyKey != jobs[j].idempotencyKey)
  }

  /** Nothing is left behind: a database that is being created or restored has a job that will go on with it. */
  predicate NoneLeftBehind(w: World) {
    forall id :: id in w.tables.databases
                 && (w.tables.databases[id].status == Creating || w.tables.databases[id].status == Restoring) ==>
      Awaited(w, id)
  }

  predicate Inv(w: World) {
    && RowsOk(w) && KeysFit(w.jobs) && NoneLeftBehind(w)
    && forall j :: 0 <= j < |w.jobs| ==> J.JobOk(w.jobs[j])
  }

  // ------------------------------------------------------------ one pass

  /** The database of the job is the only row that an attempt touches, and this is where it ends up. */
  lemma AttemptEffect(t: Tables, attempt: C.Event)
    requires WellFormed(t) && (attempt.Create? || attempt.Restore? || attempt.Delete?)
    requires attempt.id in t.databases
    ensures
      var raised, after := C.Attempted(t, attempt).raised, C.Next(t, attempt);
      && after.databases.Keys == t.databases.Keys
      && (forall other :: other in t.databases && other != attempt.id ==>
            after.databases[other] == t.databases[other])
      && (!raised && !attempt.Delete? ==>
            after.databases[attempt.id].status == Running && after.databases[attempt.id].cluster.Some?)
      && (!raised && attempt.Delete? ==> after.databases[attempt.id].status == Deleted)
      && (raised ==>
            after.databases[attempt.id].status == if attempt.lastTry then Failed else t.databases[attempt.id].status)
  {
    if !attempt.Delete? {
      C.NormalReturnMeansRunning(t, attempt.id, attempt.Restore? ==> attempt.backupUsable, attempt.agentAnswers);
    }
  }

  lemma VerdictEffect(job: J.Job, raised: bool, done: int)
    requires J.JobOk(job) && Open(job)
    ensures
      var claimed := J.Claimed(job);
      var ended := if raised then J.FailedOrRetried(claimed, done) else claimed.(status := J.Succeeded);
      && J.JobOk(ended) && ended.kind == job.kind && ended.resource == job.resource
      && ended.idempotencyKey == job.idempotencyKey
      && ended.status ==
         if !raised then J.Succeeded else if claimed.attempts >= claimed.maxAttempts then J.Failed else J.Retrying
  {
  }

  /** What a pass does to its job and to the job's database. */
  lemma PassEffect(w: World, j: nat, e: Event)
    requires RowsOk(w) && e.Pass? && j < |w.jobs| && J.JobOk(w.jobs[j]) && Open(w.jobs[j])
    ensures
      var after := Worked(w, j, e);
      var job, id := after.jobs[j], w.jobs[j].resource.id;
      && after.jobs == w.jobs[j := job] && J.JobOk(job)
      && job.kind == w.jobs[j].kind && job.resource == w.jobs[j].resource
      && job.idempotencyKey == w.jobs[j].idempotencyKey
      && after.tables.databases.Keys == w.tables.databases.Keys
      && (forall other :: other in w.tables.databases && other != id ==>
            after.tables.databases[other] == w.tables.databases[other])
      && match job.status
         case Succeeded =>
           if IsCreation(job) then
             after.tables.databases[id].status == Running && after.tables.databases[id].cluster.Some?
           else after.tables.databases[id].status == Deleted
         case Failed => after.tables.databases[id].status == Failed
         case Retrying => after.tables.databases[id].status == w.tables.databases[id].status
         case _ => false
  {
    var attempt := AttemptOf(J.Claimed(w.jobs[j]), e.backupUsable, e.agentAnswers);
    AttemptEffect(w.tables, attempt);
    VerdictEffect(w.jobs[j], C.Attempted(w.tables, attempt).raised, e.done);
  }

  // ------------------------------------------------------------ every event keeps the invariant

  /** A database's second request of a kind finds the job of the first. */
  predicate HasJob(jobs: seq<J.Job>, kind: J.JobKind, id: nat) {
    exists j :: 0 <= j < |jobs| && jobs[j].kind == kind && jobs[j].resource == J.DatabaseRow(id)
  }

  lemma EnqueueEffect(jobs: seq<J.Job>, kind: J.JobKind, id: nat, now: int)
    requires KeysFit(jobs) && (forall j :: 0 <= j < |jobs| ==> IsOurs(jobs[j]))
    requires kind == J.CreateDatabase || kind == J.RestoreDatabase || kind == J.DeleteDatabase
    ensures
      Enqueued(jobs, kind, id, now) ==
      if HasJob(jobs, kind, id) then jobs
      else jobs + [J.NewJob(kind, Some(KeyOf(kind, id)), J.DatabaseRow(id), now)]
    ensures KeysFit(Enqueued(jobs, kind, id, now))
  {
    var found := J.WithKey(jobs, KeyOf(kind, id));
    if found.Some? {
      assert IsOurs(jobs[found.value]);
      assert jobs[found.value].kind == kind && jobs[found.value].resource == J.DatabaseRow(id);
    }
  }

  lemma NobodyWaitsForStrangers(w: World, after: World, id: nat)
    requires Awaited(w, id) && w.jobs <= after.jobs
    ensures Awaited(after, id)
  {
    var j :| 0 <= j < |w.jobs| && w.jobs[j].resource == J.DatabaseRow(id) && IsCreation(w.jobs[j]) && Open(w.jobs[j]);
    assert after.jobs[j] == w.jobs[j];
  }

  /** A new row, and the job that is to bring it up. */
  lemma NewRowIsAwaited(w: World, tables: Tables, kind: J.JobKind, id: nat, now: int)
    requires Inv(w) && id !in w.tables.databases && (kind == J.CreateDatabase || kind == J.RestoreDatabase)
    requires WellFormed(tables) && C.Isolated(tables) && id in tables.databases
    requires tables.databases == w.tables.databases[id := tables.databases[id]]
    ensures Inv(World(tables, Enqueued(w.jobs, kind, id, now)))
  {
    var after := World(tables, Enqueued(w.jobs, kind, id, now));
    EnqueueEffect(w.jobs, kind, id, now);
    assert !HasJob(w.jobs, kind, id);
    assert after.jobs[|w.jobs|] == J.NewJob(kind, Some(KeyOf(kind, id)), J.DatabaseRow(id), now);
    assert Awaited(after, id);
    forall other | other in w.tables.databases && Awaited(w, other) ensures Awaited(after, other) {
      NobodyWaitsForStrangers(w, after, other);
    }
  }

  lemma RequestCreationKeepsInv(w: World, e: Event)
    requires Inv(w) && (e.RequestCreate? || e.RequestRestore?)
    ensures Inv(Next(w, e))
  {
    if e.id !in w.tables.databases {
      var request := C.Request(e.id, e.region, e.shared, e.size, e.RequestRestore?);
      C.StepKeepsIsolation(w.tables, request);
      NewRowIsAwaited(w, C.Next(w.tables, request),
                      if e.RequestCreate? then J.CreateDatabase else J.RestoreDatabase, e.id, e.now);
    }
  }

  lemma RequestDeleteKeepsInv(w: World, id: nat, now: int)
    requires Inv(w)
    ensures Inv(Next(w, RequestDelete(id, now)))
  {
    var after := Next(w, RequestDelete(id, now));
    EnqueueEffect(w.jobs, J.DeleteDatabase, id, now);
    C.StepKeepsIsolation(w.tables, C.RequestDelete(id));
    forall other | Awaited(w, other) ensures Awaited(after, other) {
      NobodyWaitsForStrangers(w, after, other);
    }
  }

  lemma HeartbeatKeepsInv(w: World, n: nat, eligible: bool)
    requires Inv(w)
    ensures Inv(Next(w, Heartbeat(n, eligible)))
  {
    var after := Next(w, Heartbeat(n, eligible));
    C.StepKeepsIsolation(w.tables, C.Heartbeat(n, eligible));
    forall other | Awaited(w, other) ensures Awaited(after, other) {
      NobodyWaitsForStrangers(w, after, other);
    }
  }

  lemma StillAwaited(w: World, j: nat, e: Event, id: nat)
    requires RowsOk(w) && e.Pass? && j < |w.jobs| && J.JobOk(w.jobs[j]) && Open(w.jobs[j])
    requires id in w.tables.databases && Awaited(w, id)
    requires
      var row := Worked(w, j, e).tables.databases;
      id in row && (row[id].status == Creating || row[id].status == Restoring)
    ensures Awaited(Worked(w, j, e), id)
  {
    PassEffect(w, j, e);
    var i :| 0 <= i < |w.jobs| && w.jobs[i].resource == J.DatabaseRow(id) && IsCreation(w.jobs[i]) && Open(w.jobs[i]);
    assert Open(Worked(w, j, e).jobs[i]);
  }

  lemma PassLeavesNoneBehind(w: World, j: nat, e: Event)
    requires Inv(w) && e.Pass? && j < |w.jobs| && Open(w.jobs[j])
    ensures NoneLeftBehind(Worked(w, j, e))
  {
    var after := Worked(w, j, e).tables;
    PassEffect(w, j, e);
    forall id | id in after.databases
                && (after.databases[id].status == Creating || after.databases[id].status == Restoring)
      ensures Awaited(Worked(w, j, e), id)
    {
      StillAwaited(w, j, e, id);
    }
  }

  lemma OneJobMovesOn(jobs: seq<J.Job>, j: nat, job: J.Job)
    requires KeysFit(jobs) && j < |jobs| && job.kind == jobs[j].kind && job.resource == jobs[j].resource
    requires job.idempotencyKey == jobs[j].idempotencyKey
    ensures KeysFit(jobs[j := job])
  {
    var after := jobs[j := job];
    assert forall i :: 0 <= i < |jobs| ==>
      after[i].kind == jobs[i].kind && after[i].resource == jobs[i].resource
      && after[i].idempotencyKey == jobs[i].idempotencyKey;
  }

  lemma PassKeepsRows(w: World, j: nat, e: Event)
    requires Inv(w) && e.Pass? && j < |w.jobs| && Open(w.jobs[j])
    ensures RowsOk(Worked(w, j, e)) && KeysFit(Worked(w, j, e).jobs)
    ensures forall i :: 0 <= i < |w.jobs| ==> J.JobOk(Worked(w, j, e).jobs[i])
  {
    PassEffect(w, j, e);
    OneJobMovesOn(w.jobs, j, Worked(w, j, e).jobs[j]);
    C.StepKeepsIsolation(w.tables, AttemptOf(J.Claimed(w.jobs[j]), e.backupUsable, e.agentAnswers));
  }

  lemma PassKeepsInv(w: World, e: Event)
    requires Inv(w) && e.Pass?
    ensures Inv(Next(w, e))
  {
    var found := J.OldestDue(w.jobs, e.now);
    if found.Some? {
      PassKeepsRows(w, found.value, e);
      PassLeavesNoneBehind(w, found.value, e);
    }
  }

  lemma NextKeepsInv(w: World, e: Event)
    requires Inv(w)
    ensures Inv(Next(w, e))
  {
    match e {
      case RequestDelete(id, now) => RequestDeleteKeepsInv(w, id, now);
      case Heartbeat(n, eligible) => HeartbeatKeepsInv(w, n, eligible);
      case Pass(_, _, _, _) => PassKeepsInv(w, e);
      case _ => RequestCreationKeepsInv(w, e);
    }
  }

  // ------------------------------------------------------------ whole runs

  /** The platform before its first database: any nodes, any active regions. */
  function Empty(nodes: seq<Node>, regions: set<nat>): World {
    World(Tables(nodes, [], map[], regions), [])
  }

  predicate AllPositive(nodes: seq<Node>) {
    forall n :: 0 <= n < |nodes| ==> forall r: Resource :: nodes[n].total.Of(r) > 0
  }

  lemma EmptyIsOk(nodes: seq<Node>, regions: set<nat>)
    requires AllPositive(nodes)
    ensures Inv(Empty(nodes, regions))
  {
  }

  ghost function Run(w: World, events: seq<Event>): (after: World)
    requires Inv(w)
    ensures Inv(after)
  {
    if events == [] then w
    else
      var before := Run(w, events[..|events| - 1]);
      NextKeepsInv(before, events[|events| - 1]);
      Next(before, events[|events| - 1])
  }

  lemma {:induction false} RunAppend(w: World, xs: seq<Event>, ys: seq<Event>)
    requires Inv(w)
    ensures Run(w, xs + ys) == Run(Run(w, xs), ys)
    decreases |ys|
  {
    if ys == [] {
      assert xs + ys == xs;
    } else {
      RunAppend(w, xs, ys[..|ys| - 1]);
      assert (xs + ys)[..|xs + ys| - 1] == xs + ys[..|ys| - 1];
    }
  }

  /** Whatever has happened before, the pass that ends a create or restore job leaves its database RUNNING in a
      cluster or FAILED, according to the job. */
  lemma CreationEndsUpOrDown(w: World, events: seq<Event>, e: Event)
    requires Inv(w) && e.Pass? && J.OldestDue(Run(w, events).jobs, e.now).Some?
    ensures
      var before := Run(w, events);
      var after := Next(before, e);
      var j := J.OldestDue(before.jobs, e.now).value;
      j < |before.jobs| && j < |after.jobs| &&
      var job := after.jobs[j];
      job.resource.DatabaseRow? && job.resource.id in after.tables.databases &&
      var database := after.tables.databases[job.resource.id];
      IsCreation(job) ==>
        match job.status
        case Succeeded => database.status == Running && database.cluster.Some?
        case Failed => database.status == Failed
        case Retrying => database.status == before.tables.databases[job.resource.id].status
        case _ => false
  {
    var before := Run(w, events);
    PassEffect(before, J.OldestDue(before.jobs, e.now).value, e);
  }

  /** In every run, when no job is left to run, no database is still being created or restored. */
  lemma AnEmptyQueueLeavesNothingHalfDone(w: World, events: seq<Event>, id: nat)
    requires Inv(w) && id in Run(w, events).tables.databases
    requires forall j :: 0 <= j < |Run(w, events).jobs| ==> !Open(Run(w, events).jobs[j])
    ensures
      var status := Run(w, events).tables.databases[id].status;
      status == Running || status == Failed || status == Deleting || status == Deleted
  {
  }

  // ------------------------------------------------------------ the queue's own theorems apply

  /** The event as the queue alone sees it. */
  ghost function QueueEvent(w: World, e: Event): seq<J.Event>
    requires RowsOk(w)
  {
    match e
    case RequestCreate(id, _, _, _, now) =>
      if id in w.tables.databases then []
      else [J.Event.Enqueue(J.CreateDatabase, Some(KeyOf(J.CreateDatabase, id)), J.DatabaseRow(id), now)]
    case RequestRestore(id, _, _, _, now) =>
      if id in w.tables.databases then []
      else [J.Event.Enqueue(J.RestoreDatabase, Some(KeyOf(J.RestoreDatabase, id)), J.DatabaseRow(id), now)]
    case RequestDelete(id, now) =>
      if id !in w.tables.databases || w.tables.databases[id].status == Deleted then []
      else [J.Event.Enqueue(J.DeleteDatabase, Some(KeyOf(J.DeleteDatabase, id)), J.DatabaseRow(id), now)]
    case Heartbeat(_, _) => []
    case Pass(now, done, _, _) =>
      match J.OldestDue(w.jobs, now)
      case None => []
      case Some(j) => [J.Event.Pass(now, J.Handling(map[], Raised(w, j, e), done))]
  }

  ghost predicate Raised(w: World, j: nat, e: Event)
    requires RowsOk(w) && e.Pass? && j < |w.jobs|
  {
    C.Attempted(w.tables, AttemptOf(J.Claimed(w.jobs[j]), e.backupUsable, e.agentAnswers)).raised
  }

  ghost function QueueEvents(w: World, events: seq<Event>): seq<J.Event>
    requires Inv(w)
  {
    if events == [] then []
    else
      var before := events[..|events| - 1];
      QueueEvents(w, before) + QueueEvent(Run(w, before), events[|events| - 1])
  }

  lemma QueueStep(w: World, e: Event, q: J.World)
    requires Inv(w) && q.tables.jobs == w.jobs
    ensures
      var seen := QueueEvent(w, e);
      if seen == [] then Next(w, e).jobs == w.jobs
      else |seen| == 1 && J.Next(q, seen[0]).tables.jobs == Next(w, e).jobs
  {
  }

  /** Seen from the queue, every run is a run of the queue: budgets, spacing and verdicts hold of it. */
  lemma {:induction false} RunsTheQueue(nodes: seq<Node>, regions: set<nat>, events: seq<Event>)
    requires AllPositive(nodes)
    ensures Inv(Empty(nodes, regions))
    ensures
      J.Run(map[], QueueEvents(Empty(nodes, regions), events)).tables.jobs == Run(Empty(nodes, regions), events).jobs
  {
    var w := Empty(nodes, regions);
    EmptyIsOk(nodes, regions);
    if events == [] {
    } else {
      var before, e := events[..|events| - 1], events[|events| - 1];
      RunsTheQueue(nodes, regions, before);
      var q := QueueEvents(w, before);
      var seen := QueueEvent(Run(w, before), e);
      QueueStep(Run(w, before), e, J.Run(map[], q));
      if seen == [] {
        assert q + seen == q;
      } else {
        assert (q + seen)[..|q|] == q && seen == [seen[0]];
      }
    }
  }

  // ------------------------------------------------------------ deletions that are never carried out

  predicate HasOpenJob(w: World, id: nat) {
    exists j :: 0 <= j < |w.jobs| && w.jobs[j].resource == J.DatabaseRow(id) && Open(w.jobs[j])
  }

  predicate HasOpenDeletion(w: World, id: nat) {
    exists j :: 0 <= j < |w.jobs|
                && w.jobs[j].resource == J.DatabaseRow(id) && w.jobs[j].kind == J.DeleteDatabase && Open(w.jobs[j])
  }

  predicate HasEndedDeletion(w: World, id: nat) {
    exists j :: 0 <= j < |w.jobs|
                && w.jobs[j].resource == J.DatabaseRow(id) && w.jobs[j].kind == J.DeleteDatabase && !Open(w.jobs[j])
  }

  /** DELETING, and no job will ever look at it again. */
  predicate Abandoned(w: World, id: nat) {
    id in w.tables.databases && w.tables.databases[id].status == Deleting && !HasOpenJob(w, id)
    && HasEndedDeletion(w, id)
  }

  /** The first request to delete a database brings a job. */
  lemma FirstDeletionIsEnqueued(w: World, id: nat, now: int)
    requires Inv(w) && id in w.tables.databases && w.tables.databases[id].status != Deleted
    requires !HasJob(w.jobs, J.DeleteDatabase, id)
    ensures HasOpenDeletion(Next(w, RequestDelete(id, now)), id) && !HasEndedDeletion(w, id)
  {
    EnqueueEffect(w.jobs, J.DeleteDatabase, id, now);
    assert Next(w, RequestDelete(id, now)).jobs[|w.jobs|] ==
           J.NewJob(J.DeleteDatabase, Some(KeyOf(J.DeleteDatabase, id)), J.DatabaseRow(id), now);
  }

  /** There is at most one: it is open, or it has ended. */
  lemma OneDeletion(w: World, id: nat)
    requires Inv(w) && HasJob(w.jobs, J.DeleteDatabase, id)
    ensures HasOpenDeletion(w, id) <==> !HasEndedDeletion(w, id)
  {
    var j :| 0 <= j < |w.jobs| && w.jobs[j].kind == J.DeleteDatabase && w.jobs[j].resource == J.DatabaseRow(id);
    forall i | 0 <= i < |w.jobs| && w.jobs[i].kind == J.DeleteDatabase && w.jobs[i].resource == J.DatabaseRow(id)
      ensures i == j
    {
      assert w.jobs[i].idempotencyKey == w.jobs[j].idempotencyKey;
    }
  }

  lemma AgainMeansNoNewJob(w: World, id: nat, now: int)
    requires Inv(w) && HasJob(w.jobs, J.DeleteDatabase, id)
    ensures Next(w, RequestDelete(id, now)).jobs == w.jobs
  {
    EnqueueEffect(w.jobs, J.DeleteDatabase, id, now);
  }

  /** A request to delete is without a job to carry it out exactly when an earlier deletion has ended: its key is
      taken, so nothing is enqueued. */
  lemma DeletionIsEnqueuedIff(w: World, id: nat, now: int)
    requires Inv(w) && id in w.tables.databases && w.tables.databases[id].status != Deleted
    ensures Next(w, RequestDelete(id, now)).tables.databases[id].status == Deleting
    ensures HasOpenDeletion(Next(w, RequestDelete(id, now)), id) <==> !HasEndedDeletion(w, id)
  {
    if HasJob(w.jobs, J.DeleteDatabase, id) {
      AgainMeansNoNewJob(w, id, now);
      OneDeletion(w, id);
    } else {
      FirstDeletionIsEnqueued(w, id, now);
    }
  }

  /** Such a request abandons the database unless a create or restore job of its own is still open. */
  lemma DeletionIsAbandonedIff(w: World, id: nat, now: int)
    requires Inv(w) && id in w.tables.databases && w.tables.databases[id].status != Deleted
    ensures Abandoned(Next(w, RequestDelete(id, now)), id) <==> HasEndedDeletion(w, id) && !HasOpenJob(w, id)
  {
    DeletionIsEnqueuedIff(w, id, now);
    if HasJob(w.jobs, J.DeleteDatabase, id) {
      AgainMeansNoNewJob(w, id, now);
    } else {
      FirstDeletionIsEnqueued(w, id, now);
    }
  }

  lemma AbandonedAfterPass(w: World, e: Event, id: nat)
    requires Inv(w) && Abandoned(w, id) && e.Pass?
    ensures Abandoned(Next(w, e), id)
  {
    var found := J.OldestDue(w.jobs, e.now);
    if found.Some? {
      assert Open(w.jobs[found.value]);
      PassEffect(w, found.value, e);
      var d :| 0 <= d < |w.jobs|
               && w.jobs[d].resource == J.DatabaseRow(id) && w.jobs[d].kind == J.DeleteDatabase && !Open(w.jobs[d]);
      assert Next(w, e).jobs[d] == w.jobs[d];
    }
  }

  /** More jobs, none of them for the database, leave it abandoned. */
  lemma AbandonedAmongMore(w: World, after: World, id: nat)
    requires Abandoned(w, id) && w.jobs <= after.jobs
    requires forall j :: |w.jobs| <= j < |after.jobs| ==> after.jobs[j].resource != J.DatabaseRow(id)
    requires id in after.tables.databases && after.tables.databases[id].status == Deleting
    ensures Abandoned(after, id)
  {
    var d :| 0 <= d < |w.jobs|
             && w.jobs[d].resource == J.DatabaseRow(id) && w.jobs[d].kind == J.DeleteDatabase && !Open(w.jobs[d]);
    assert after.jobs[d] == w.jobs[d];
    assert forall j :: 0 <= j < |w.jobs| ==> after.jobs[j] == w.jobs[j];
  }

  lemma AbandonedAfterCreation(w: World, e: Event, id: nat)
    requires Inv(w) && Abandoned(w, id) && (e.RequestCreate? || e.RequestRestore?)
    ensures Abandoned(Next(w, e), id)
  {
    if e.id !in w.tables.databases {
      EnqueueEffect(w.jobs, if e.RequestCreate? then J.CreateDatabase else J.RestoreDatabase, e.id, e.now);
      AbandonedAmongMore(w, Next(w, e), id);
    }
  }

  lemma AbandonedAfterOtherDeletion(w: World, other: nat, now: int, id: nat)
    requires Inv(w) && Abandoned(w, id) && other != id
    ensures Abandoned(Next(w, RequestDelete(other, now)), id)
  {
    EnqueueEffect(w.jobs, J.DeleteDatabase, other, now);
    AbandonedAmongMore(w, Next(w, RequestDelete(other, now)), id);
  }

  lemma AbandonedAfterHeartbeat(w: World, n: nat, eligible: bool, id: nat)
    requires Inv(w) && Abandoned(w, id)
    ensures Abandoned(Next(w, Heartbeat(n, eligible)), id)
  {
    AbandonedAmongMore(w, Next(w, Heartbeat(n, eligible)), id);
  }

  lemma AbandonedStaysOnce(w: World, e: Event, id: nat)
    requires Inv(w) && Abandoned(w, id)
    ensures Abandoned(Next(w, e), id)
  {
    match e {
      case Pass(_, _, _, _) => AbandonedAfterPass(w, e, id);
      case RequestDelete(other, now) =>
        if other == id {
          DeletionIsAbandonedIff(w, id, now);
        } else {
          AbandonedAfterOtherDeletion(w, other, now, id);
        }
      case Heartbeat(n, eligible) => AbandonedAfterHeartbeat(w, n, eligible, id);
      case _ => AbandonedAfterCreation(w, e, id);
    }
  }

  /** No run ever carries out an abandoned deletion, however often it is requested again. */
  lemma {:induction false} AbandonedForEver(w: World, events: seq<Event>, id: nat)
    requires Inv(w) && Abandoned(w, id)
    ensures Abandoned(Run(w, events), id)
  {
    if events == [] {
    } else {
      AbandonedForEver(w, events[..|events| - 1], id);
      AbandonedStaysOnce(Run(w, events[..|events| - 1]), events[|events| - 1], id);
    }
  }
}
