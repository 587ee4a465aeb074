/** The worker's migration attempt as it runs, one call after the other, against the machine of module Migration.
    Every method is told how many more instructions complete before a call breaks. */
module Orchestrator {
  import opened Wrappers
  import opened Clusters
  import opened Migration
  import opened MigrationSafety
  import opened MigrationOutcome
  import opened MigrationQueue
  import opened Agent
  import J = Jobs

  // ------------------------------------------------------------ the machine, several instructions at once

  datatype Stop = Stop(w: World, left: nat, raised: bool)

  /** Still the same attempt, further on if the instruction went well. */
  predicate GoesOn(w: World, turn: Turn)
    requires WellFormed(w) && w.attempt.Some?
  {
    && WellFormed(turn.w) && turn.w.attempt.Some? && turn.w.jobs == w.jobs
    && turn.w.attempt.value.job == w.attempt.value.job && turn.w.attempt.value.source == w.attempt.value.source
    && (turn.Continues? ==> w.attempt.value.pc < turn.w.attempt.value.pc)
  }

  lemma StatementGoesOn(w: World, node: nat, statement: Statement)
    requires WellFormed(w) && w.attempt.Some? && w.attempt.value.pc < End && node < |w.nodes|
    requires statement == CreateDb ==> w.attempt.value.pc < CutoverAt
    ensures GoesOn(w, OnNode(w, node, statement))
  {
  }

  lemma CutoverGoesOn(w: World)
    requires WellFormed(w) && w.attempt.Some? && w.attempt.value.pc == CutoverAt
    ensures GoesOn(w, Continues(CutOver(w, Target(w))))
  {
  }

  lemma AdvanceIsWellFormed(w: World)
    requires WellFormed(w) && w.attempt.Some? && w.attempt.value.pc < End
    ensures GoesOn(w, Advance(w))
  {
    var a := w.attempt.value;
    if a.pc < DumpAt {
      StatementGoesOn(w, a.source, QuiesceScript[a.pc]);
    } else if RestoreAt <= a.pc < CutoverAt {
      StatementGoesOn(w, Target(w), RestoreScript(a.dump)[a.pc - RestoreAt]);
    } else if a.pc == CutoverAt {
      CutoverGoesOn(w);
    } else if DropAt <= a.pc < CleanupAt {
      StatementGoesOn(w, a.source, DropScript[a.pc - DropAt]);
    }
  }

  /** The handler from where it stands up to an instruction, or to the break. */
  function Through(w: World, until: nat, left: nat): (stop: Stop)
    requires WellFormed(w) && w.attempt.Some? && until <= End
    ensures WellFormed(stop.w) && stop.w.attempt.Some?
    ensures !stop.raised ==> stop.w.attempt.value.pc >= until
    ensures stop.raised ==> stop.w.attempt.value.pc < until
    decreases End - w.attempt.value.pc
  {
    if w.attempt.value.pc >= until then Stop(w, left, false)
    else if left == 0 then Stop(w, 0, true)
    else
      AdvanceIsWellFormed(w);
      match Advance(w)
      case Raises(_) => Stop(w, left, true)
      case Continues(next) => Through(next, until, left - 1)
  }

  lemma {:induction false} ThroughInStages(w: World, mid: nat, until: nat, left: nat)
    requires WellFormed(w) && w.attempt.Some? && mid <= until <= End
    ensures
      var stop := Through(w, mid, left);
      Through(w, until, left) == if stop.raised then stop else Through(stop.w, until, stop.left)
    decreases End - w.attempt.value.pc
  {
    if w.attempt.value.pc >= mid || left == 0 {
    } else {
      AdvanceIsWellFormed(w);
      if Advance(w).Continues? {
        ThroughInStages(Advance(w).w, mid, until, left - 1);
      }
    }
  }

  lemma {:induction false} ThroughKeepsInv(w: World, until: nat, left: nat)
    requires Inv(w) && w.attempt.Some? && until <= End
    ensures Inv(Through(w, until, left).w)
    decreases End - w.attempt.value.pc
  {
    if w.attempt.value.pc >= until || left == 0 {
    } else {
      AdvanceKeepsInv(w);
      if Advance(w).Continues? {
        AdvanceIsWellFormed(w);
        ThroughKeepsInv(Advance(w).w, until, left - 1);
      }
    }
  }

  lemma Stage(w: World, mid: nat, left: nat)
    requires Inv(w) && w.attempt.Some? && mid <= End
    ensures
      var stop := Through(w, mid, left);
      && Inv(stop.w)
      && Through(w, End, left) == if stop.raised then stop else Through(stop.w, End, stop.left)
  {
    ThroughKeepsInv(w, mid, left);
    ThroughInStages(w, mid, End, left);
  }

  // ------------------------------------------------------------ an endpoint's script, seen by the machine

  predicate IsStatement(pc: nat) {
    pc < DumpAt || RestoreAt <= pc < CutoverAt || DropAt <= pc < CleanupAt
  }

  function StatementAt(pc: nat, dump: seq<nat>): Statement
    requires IsStatement(pc)
  {
    if pc < DumpAt then QuiesceScript[pc]
    else if pc < CutoverAt then RestoreScript(dump)[pc - RestoreAt]
    else DropScript[pc - DropAt]
  }

  function NodeAt(w: World): (node: nat)
    requires WellFormed(w) && w.attempt.Some?
    ensures node < |w.nodes|
  {
    if RestoreAt <= w.attempt.value.pc < CutoverAt then Target(w) else w.attempt.value.source
  }

  /** The world after an endpoint's script on one node. */
  function Scripted(w: World, node: nat, result: ScriptResult): World
    requires w.attempt.Some? && node < |w.nodes|
  {
    At(w.(nodes := w.nodes[node := result.pg]), w.attempt.value.pc + result.reply.ran)
  }

  lemma OneStatement(w: World)
    requires WellFormed(w) && w.attempt.Some? && IsStatement(w.attempt.value.pc)
    ensures
      var effect := Exec(w.nodes[NodeAt(w)], StatementAt(w.attempt.value.pc, w.attempt.value.dump));
      effect != Raised(DuplicateDatabase) ==>
        Advance(w) == if effect.Raised? then Raises(w)
                      else Continues(Scripted(w, NodeAt(w), ScriptResult(effect.pg, Reply(1, None))))
  {
  }

  /** The statements still to run before until, which ends the endpoint that pc is in. */
  predicate InEndpoint(pc: nat, until: nat) {
    pc <= until && (until == DumpAt || (until == CutoverAt && pc >= RestoreAt) || (until == CleanupAt && pc >= DropAt))
  }

  function Rest(pc: nat, until: nat, dump: seq<nat>): (rest: seq<Statement>)
    requires InEndpoint(pc, until)
    decreases until - pc
  {
    if pc == until then [] else [StatementAt(pc, dump)] + Rest(pc + 1, until, dump)
  }

  lemma ScriptUnfolds(pg: Pg, pc: nat, until: nat, dump: seq<nat>, left: nat)
    requires InEndpoint(pc, until) && pc < until && left > 0
    ensures
      var result := Script(pg, Rest(pc, until, dump), left);
      match Exec(pg, StatementAt(pc, dump))
      case Raised(error) => result == ScriptResult(pg, Reply(0, Some(error)))
      case Done(next) =>
        var rest := Script(next, Rest(pc + 1, until, dump), left - 1);
        result == ScriptResult(rest.pg, Reply(rest.reply.ran + 1, rest.reply.error))
  {
    assert Rest(pc, until, dump)[1..] == Rest(pc + 1, until, dump);
  }

  lemma ScriptedTwice(w: World, node: nat, pg: Pg, rest: ScriptResult)
    requires w.attempt.Some? && node < |w.nodes|
    ensures
      Scripted(Scripted(w, node, ScriptResult(pg, Reply(1, None))), node, rest) ==
      Scripted(w, node, ScriptResult(rest.pg, Reply(rest.reply.ran + 1, rest.reply.error)))
  {
    assert w.nodes[node := pg][node := rest.pg] == w.nodes[node := rest.pg];
  }

  lemma ThroughUnfolds(w: World, until: nat, left: nat)
    requires WellFormed(w) && w.attempt.Some? && InEndpoint(w.attempt.value.pc, until)
    requires w.attempt.value.pc < until && left > 0
    ensures
      match Exec(w.nodes[NodeAt(w)], StatementAt(w.attempt.value.pc, w.attempt.value.dump))
      case Raised(error) => error != DuplicateDatabase ==> Through(w, until, left) == Stop(w, left, true)
      case Done(pg) =>
        var next := Scripted(w, NodeAt(w), ScriptResult(pg, Reply(1, None)));
        && WellFormed(next) && (next.attempt.value.pc < until ==> NodeAt(next) == NodeAt(w))
        && Through(w, until, left) == Through(next, until, left - 1)
  {
    OneStatement(w);
    AdvanceIsWellFormed(w);
  }

  /** The machine stops where the script does, and as it does. */
  predicate StopsAs(w: World, node: nat, left: nat, result: ScriptResult, stop: Stop)
    requires w.attempt.Some? && node < |w.nodes| && result.reply.ran <= left
  {
    stop == Stop(Scripted(w, node, result), left - result.reply.ran, result.reply.error.Some?)
  }

  lemma StopsAtOnce(w: World, node: nat, left: nat, error: Option<PgError>)
    requires w.attempt.Some? && node < |w.nodes|
    ensures StopsAs(w, node, left, ScriptResult(w.nodes[node], Reply(0, error)), Stop(w, left, error.Some?))
  {
    assert w.nodes[node := w.nodes[node]] == w.nodes;
  }

  /** One statement, and then the rest of the script. */
  lemma StopsLater(w: World, next: World, node: nat, pg: Pg, left: nat, rest: ScriptResult, result: ScriptResult,
                   stop: Stop)
    requires w.attempt.Some? && node < |w.nodes| && rest.reply.ran < left
    requires next == Scripted(w, node, ScriptResult(pg, Reply(1, None)))
    requires result == ScriptResult(rest.pg, Reply(rest.reply.ran + 1, rest.reply.error))
    requires rest.reply.error != Some(DuplicateDatabase) ==> StopsAs(next, node, left - 1, rest, stop)
    ensures result.reply.error != Some(DuplicateDatabase) ==> StopsAs(w, node, left, result, stop)
  {
    ScriptedTwice(w, node, pg, rest);
  }

  /** One statement on, the handler is still in the same endpoint, or at its end. */
  lemma NextInEndpoint(w: World, pg: Pg, until: nat, left: nat, stop: Stop) returns (next: World)
    requires WellFormed(w) && w.attempt.Some? && InEndpoint(w.attempt.value.pc, until)
    requires w.attempt.value.pc < until && left > 0 && stop == Through(w, until, left)
    requires Exec(w.nodes[NodeAt(w)], StatementAt(w.attempt.value.pc, w.attempt.value.dump)) == Done(pg)
    ensures next == Scripted(w, NodeAt(w), ScriptResult(pg, Reply(1, None)))
    ensures WellFormed(next) && next.attempt == Some(w.attempt.value.(pc := w.attempt.value.pc + 1))
    ensures InEndpoint(next.attempt.value.pc, until) && NodeAt(w) < |next.nodes| && next.nodes[NodeAt(w)] == pg
    ensures next.attempt.value.pc < until ==> NodeAt(w) == NodeAt(next)
    ensures stop == Through(next, until, left - 1)
  {
    next := Scripted(w, NodeAt(w), ScriptResult(pg, Reply(1, None)));
    ThroughUnfolds(w, until, left);
  }

  lemma NothingTracks(w: World, node: nat, until: nat, left: nat, result: ScriptResult, stop: Stop)
    requires WellFormed(w) && w.attempt.Some? && InEndpoint(w.attempt.value.pc, until) && node < |w.nodes|
    requires w.attempt.value.pc == until || left == 0
    requires result == Script(w.nodes[node], Rest(w.attempt.value.pc, until, w.attempt.value.dump), left)
    requires stop == Through(w, until, left)
    ensures StopsAs(w, node, left, result, stop)
  {
    StopsAtOnce(w, node, left, result.reply.error);
  }

  lemma RefusalTracks(w: World, until: nat, left: nat, result: ScriptResult, stop: Stop)
    requires WellFormed(w) && w.attempt.Some? && InEndpoint(w.attempt.value.pc, until)
    requires w.attempt.value.pc < until && left > 0
    requires Exec(w.nodes[NodeAt(w)], StatementAt(w.attempt.value.pc, w.attempt.value.dump)).Raised?
    requires result == Script(w.nodes[NodeAt(w)], Rest(w.attempt.value.pc, until, w.attempt.value.dump), left)
    requires stop == Through(w, until, left)
    ensures result.reply.error != Some(DuplicateDatabase) ==> StopsAs(w, NodeAt(w), left, result, stop)
  {
    ScriptUnfolds(w.nodes[NodeAt(w)], w.attempt.value.pc, until, w.attempt.value.dump, left);
    ThroughUnfolds(w, until, left);
    StopsAtOnce(w, NodeAt(w), left, result.reply.error);
  }

  /** The rest of a script whose first statement takes effect. */
  lemma RestOfScript(pg: Pg, pc: nat, until: nat, dump: seq<nat>, left: nat, result: ScriptResult)
    returns (rest: ScriptResult)
    requires InEndpoint(pc, until) && pc < until && left > 0 && Exec(pg, StatementAt(pc, dump)).Done?
    requires result == Script(pg, Rest(pc, until, dump), left)
    ensures rest == Script(Exec(pg, StatementAt(pc, dump)).pg, Rest(pc + 1, until, dump), left - 1)
    ensures rest.reply.ran < left && result == ScriptResult(rest.pg, Reply(rest.reply.ran + 1, rest.reply.error))
  {
    ScriptUnfolds(pg, pc, until, dump, left);
    rest := Script(Exec(pg, StatementAt(pc, dump)).pg, Rest(pc + 1, until, dump), left - 1);
  }

  /** One statement of the script and one instruction of the machine, both done. */
  lemma BothGoOn(w: World, pg: Pg, until: nat, left: nat, result: ScriptResult, stop: Stop)
    returns (next: World, rest: ScriptResult)
    requires WellFormed(w) && w.attempt.Some? && InEndpoint(w.attempt.value.pc, until)
    requires w.attempt.value.pc < until && left > 0
    requires Exec(w.nodes[NodeAt(w)], StatementAt(w.attempt.value.pc, w.attempt.value.dump)) == Done(pg)
    requires result == Script(w.nodes[NodeAt(w)], Rest(w.attempt.value.pc, until, w.attempt.value.dump), left)
    requires stop == Through(w, until, left)
    ensures WellFormed(next) && next.attempt.Some? && next.attempt.value.pc == w.attempt.value.pc + 1
    ensures InEndpoint(next.attempt.value.pc, until) && NodeAt(w) < |next.nodes|
    ensures next.attempt.value.pc < until ==> NodeAt(w) == NodeAt(next)
    ensures rest == Script(next.nodes[NodeAt(w)], Rest(next.attempt.value.pc, until, next.attempt.value.dump), left - 1)
    ensures stop == Through(next, until, left - 1)
    ensures (rest.reply.error != Some(DuplicateDatabase) ==> StopsAs(next, NodeAt(w), left - 1, rest, stop)) ==>
              result.reply.error != Some(DuplicateDatabase) ==> StopsAs(w, NodeAt(w), left, result, stop)
  {
    var a := w.attempt.value;
    next := NextInEndpoint(w, pg, until, left, stop);
    rest := RestOfScript(w.nodes[NodeAt(w)], a.pc, until, a.dump, left, result);
    if rest.reply.error != Some(DuplicateDatabase) ==> StopsAs(next, NodeAt(w), left - 1, rest, stop) {
      StopsLater(w, next, NodeAt(w), pg, left, rest, result, stop);
    }
  }

  /** Either both are over, in the same way, or both go on. */
  lemma FirstTurn(w: World, node: nat, until: nat, left: nat, result: ScriptResult, stop: Stop)
    returns (over: bool, next: World, rest: ScriptResult)
    requires WellFormed(w) && w.attempt.Some? && InEndpoint(w.attempt.value.pc, until) && node < |w.nodes|
    requires w.attempt.value.pc < until ==> node == NodeAt(w)
    requires result == Script(w.nodes[node], Rest(w.attempt.value.pc, until, w.attempt.value.dump), left)
    requires stop == Through(w, until, left)
    ensures over && result.reply.error != Some(DuplicateDatabase) ==> StopsAs(w, node, left, result, stop)
    ensures !over ==> left > 0 && WellFormed(next) && next.attempt.Some? && node < |next.nodes|
    ensures !over ==> InEndpoint(next.attempt.value.pc, until) && w.attempt.value.pc < next.attempt.value.pc <= until
    ensures !over ==> (next.attempt.value.pc < until ==> node == NodeAt(next))
    ensures !over ==>
              rest == Script(next.nodes[node], Rest(next.attempt.value.pc, until, next.attempt.value.dump), left - 1)
    ensures !over ==> stop == Through(next, until, left - 1)
    ensures !over && (rest.reply.error != Some(DuplicateDatabase) ==> StopsAs(next, node, left - 1, rest, stop)) ==>
              result.reply.error != Some(DuplicateDatabase) ==> StopsAs(w, node, left, result, stop)
  {
    var a := w.attempt.value;
    over, next, rest := true, w, result;
    if a.pc == until || left == 0 {
      NothingTracks(w, node, until, left, result, stop);
    } else {
      match Exec(w.nodes[node], StatementAt(a.pc, a.dump)) {
        case Raised(_) => RefusalTracks(w, until, left, result, stop);
        case Done(pg) =>
          over := false;
          next, rest := BothGoOn(w, pg, until, left, result, stop);
      }
    }
  }

  lemma {:induction false} ScriptTracks(w: World, node: nat, until: nat, left: nat, result: ScriptResult, stop: Stop)
    requires WellFormed(w) && w.attempt.Some? && InEndpoint(w.attempt.value.pc, until) && node < |w.nodes|
    requires w.attempt.value.pc < until ==> node == NodeAt(w)
    requires result == Script(w.nodes[node], Rest(w.attempt.value.pc, until, w.attempt.value.dump), left)
    requires stop == Through(w, until, left)
    ensures result.reply.error != Some(DuplicateDatabase) ==> StopsAs(w, node, left, result, stop)
    decreases until - w.attempt.value.pc
  {
    var over, next, rest := FirstTurn(w, node, until, left, result, stop);
    if over {
    } else {
      ScriptTracks(next, node, until, left - 1, rest, stop);
    }
  }

  /** Unless it finds an existing database, an endpoint's script does what the machine does up to its end. */
  lemma ScriptAgrees(w: World, node: nat, until: nat, left: nat)
    requires WellFormed(w) && w.attempt.Some? && InEndpoint(w.attempt.value.pc, until) && node < |w.nodes|
    requires w.attempt.value.pc < until ==> node == NodeAt(w)
    ensures
      var result := Script(w.nodes[node], Rest(w.attempt.value.pc, until, w.attempt.value.dump), left);
      result.reply.error != Some(DuplicateDatabase) ==>
        Through(w, until, left) == Stop(Scripted(w, node, result), left - result.reply.ran, result.reply.error.Some?)
  {
    var result := Script(w.nodes[node], Rest(w.attempt.value.pc, until, w.attempt.value.dump), left);
    ScriptTracks(w, node, until, left, result, Through(w, until, left));
  }

  lemma Endpoints(dump: seq<nat>)
    ensures Rest(0, DumpAt, dump) == QuiesceScript
    ensures Rest(RestoreAt, CutoverAt, dump) == RestoreScript(dump)
    ensures Rest(DropAt, CleanupAt, dump) == DropScript
  {
    assert Rest(DumpAt, DumpAt, dump) == Rest(CutoverAt, CutoverAt, dump) == Rest(CleanupAt, CleanupAt, dump) == [];
    assert Rest(2, DumpAt, dump) == [Terminate];
    assert Rest(1, DumpAt, dump) == [RevokePublic, Terminate];
    assert Rest(RestoreAt + 2, CutoverAt, dump) == [Load(dump)];
    assert Rest(RestoreAt + 1, CutoverAt, dump) == [CreateDb, Load(dump)];
    assert Rest(DropAt + 2, CleanupAt, dump) == [DropRole];
    assert Rest(DropAt + 1, CleanupAt, dump) == [DropDb, DropRole];
  }

  lemma {:induction false} OnlyCreateDbFindsADatabase(pg: Pg, statements: seq<Statement>, left: nat)
    requires CreateDb !in statements
    ensures Script(pg, statements, left).reply.error != Some(DuplicateDatabase)
    decreases |statements|
  {
    if statements == [] || left == 0 || Exec(pg, statements[0]).Raised? {
    } else {
      OnlyCreateDbFindsADatabase(Exec(pg, statements[0]).pg, statements[1..], left - 1);
    }
  }

  lemma RestoreFindsNoDatabase(pg: Pg, dump: seq<nat>, left: nat)
    requires pg.db.Some? ==> pg.role
    ensures Script(pg, RestoreScript(dump), left).reply.error != Some(DuplicateDatabase)
  {
    assert RestoreScript(dump)[1..] == [CreateDb, Load(dump)] && [CreateDb, Load(dump)][1..] == [Load(dump)];
    if left > 1 && !pg.role {
      OnlyCreateDbFindsADatabase(Pg(true, Some(Db([], true, true, false))), [Load(dump)], left - 2);
    }
  }

  // ------------------------------------------------------------ the platform

  class Platform {
    const servers: seq<PgServer>
    var clusters: seq<Cluster>
    var shared: bool
    var record: Record
    var jobs: seq<Job>
    var nextRuns: seq<int>
    var attempt: Option<Attempt>
    var written: seq<nat>

    predicate Valid() {
      forall i, j :: 0 <= i < j < |servers| ==> servers[i] != servers[j]
    }

    /** The jobs table. */
    function Queue(): seq<J.Job>
      requires |nextRuns| == |jobs|
      reads this
    {
      Rows(jobs, nextRuns)
    }

    function State(): World
      reads this, servers
    {
      var nodes := seq(|servers|, i requires 0 <= i < |servers| reads servers => servers[i].State());
      World(nodes, clusters, shared, record, jobs, attempt, written)
    }

    /** The source stops serving the tenant. */
    method Quiesce(left: nat) returns (rest: nat, raised: bool)
      requires Valid() && Inv(State()) && attempt.Some? && attempt.value.pc == 0
      modifies this`attempt, servers
      ensures Stop(State(), rest, raised) == Through(old(State()), DumpAt, left)
      ensures attempt.Some? && (!raised ==> attempt.value.pc == DumpAt)
    {
      ghost var w := State();
      Endpoints(attempt.value.dump);
      OnlyCreateDbFindsADatabase(w.nodes[NodeAt(w)], QuiesceScript, left);
      ScriptAgrees(w, NodeAt(w), DumpAt, left);
      var source := attempt.value.source;
      var reply := servers[source].QuiesceForMigration(left);
      attempt := Some(attempt.value.(pc := attempt.value.pc + reply.ran));
      assert State().nodes == w.nodes[source := servers[source].State()];
      return left - reply.ran, reply.error.Some?;
    }

    method Backup(left: nat) returns (rest: nat, raised: bool)
      requires Valid() && Inv(State()) && attempt.Some? && attempt.value.pc == DumpAt
      modifies this`attempt
      ensures Stop(State(), rest, raised) == Through(old(State()), RestoreAt, left)
      ensures attempt.Some? && (!raised ==> attempt.value.pc == RestoreAt)
    {
      if left == 0 {
        return 0, true;
      }
      ghost var w := State();
      var dump := servers[attempt.value.source].BackupEndpoint();
      if dump.None? {
        return left, true;
      }
      attempt := Some(attempt.value.(dump := dump.value, pc := RestoreAt));
      return left - 1, false;
    }

    method Restore(left: nat) returns (rest: nat, raised: bool)
      requires Valid() && Inv(State()) && attempt.Some? && attempt.value.pc == RestoreAt
      modifies this`attempt, servers
      ensures Stop(State(), rest, raised) == Through(old(State()), CutoverAt, left)
      ensures attempt.Some? && (!raised ==> attempt.value.pc == CutoverAt)
    {
      ghost var w := State();
      var target := jobs[attempt.value.job].target;
      Endpoints(attempt.value.dump);
      RestoreFindsNoDatabase(w.nodes[target], attempt.value.dump, left);
      ScriptAgrees(w, target, CutoverAt, left);
      var reply := servers[target].RestoreEndpoint(attempt.value.dump, left);
      attempt := Some(attempt.value.(pc := if reply.error.None? then CutoverAt else RestoreAt + reply.ran));
      assert State().nodes == w.nodes[target := servers[target].State()];
      return left - reply.ran, reply.error.Some?;
    }

    method RecordCutover(left: nat) returns (rest: nat, raised: bool)
      requires Valid() && Inv(State()) && attempt.Some? && attempt.value.pc == CutoverAt
      modifies this`attempt, this`clusters
      ensures Stop(State(), rest, raised) == Through(old(State()), DropAt, left)
      ensures attempt.Some? && (!raised ==> attempt.value.pc == DropAt)
    {
      if left == 0 {
        return 0, true;
      }
      ghost var w := State();
      var cluster: nat;
      clusters, cluster := GetOrCreateClusterOnNode(clusters, jobs[attempt.value.job].target, shared);
      attempt := Some(attempt.value.(working := Record(cluster, Running), pc := DropAt));
      assert State().nodes == w.nodes;
      return left - 1, false;
    }

    method DropSource(left: nat) returns (rest: nat, raised: bool)
      requires Valid() && Inv(State()) && attempt.Some? && attempt.value.pc == DropAt
      modifies this`attempt, servers
      ensures Stop(State(), rest, raised) == Through(old(State()), CleanupAt, left)
      ensures attempt.Some? && (!raised ==> attempt.value.pc == CleanupAt)
    {
      ghost var w := State();
      Endpoints(attempt.value.dump);
      OnlyCreateDbFindsADatabase(w.nodes[NodeAt(w)], DropScript, left);
      ScriptAgrees(w, NodeAt(w), CleanupAt, left);
      var source := attempt.value.source;
      var reply := servers[source].DropDatabase(left);
      attempt := Some(attempt.value.(pc := attempt.value.pc + reply.ran));
      assert State().nodes == w.nodes[source := servers[source].State()];
      return left - reply.ran, reply.error.Some?;
    }

    method DeleteDump(left: nat) returns (rest: nat, raised: bool)
      requires Valid() && Inv(State()) && attempt.Some? && attempt.value.pc == CleanupAt
      modifies this`attempt
      ensures Stop(State(), rest, raised) == Through(old(State()), End, left)
      ensures attempt.Some? && (!raised ==> attempt.value.pc == End)
    {
      if left == 0 {
        return 0, true;
      }
      ghost var w := State();
      attempt := Some(attempt.value.(pc := End));
      assert State().nodes == w.nodes;
      return left - 1, false;
    }

    /** The handler, from the first agent call to its return or to the exception. */
    method ExecuteMigrateDatabase(left: nat) returns (raised: bool)
      requires Valid() && Inv(State()) && attempt.Some? && attempt.value.pc == 0
      modifies this`attempt, this`clusters, servers
      ensures
        var stop := Through(old(State()), End, left);
        State() == stop.w && raised == stop.raised
    {
      var rest: nat;
      Stage(State(), DumpAt, left);
      rest, raised := Quiesce(left);
      if raised { return; }
      Stage(State(), RestoreAt, rest);
      rest, raised := Backup(rest);
      if raised { return; }
      Stage(State(), CutoverAt, rest);
      rest, raised := Restore(rest);
      if raised { return; }
      Stage(State(), DropAt, rest);
      rest, raised := RecordCutover(rest);
      if raised { return; }
      Stage(State(), CleanupAt, rest);
      rest, raised := DropSource(rest);
      if raised { return; }
      rest, raised := DeleteDump(rest);
    }

    method MarkFailedOrRetry(done: int)
      requires attempt.Some? && WellFormed(State()) && |nextRuns| == |jobs|
      requires jobs[attempt.value.job].attempts > 0
      modifies this`jobs, this`nextRuns, this`attempt
      ensures
        var a := old(attempt.value);
        var job := old(jobs)[a.job];
        var givenUp := job.attempts >= MaxAttempts;
        && jobs == old(jobs)[a.job := job.(state := if givenUp then GivenUp else Waiting)]
        && nextRuns == (if givenUp then old(nextRuns)
                        else old(nextRuns)[a.job := done + J.Backoff(job.attempts) * J.Second])
        && attempt == Some(if givenUp then a.(working := a.working.(status := Failed)) else a)
    {
      var a := attempt.value;
      var job := jobs[a.job];
      if job.attempts >= MaxAttempts {
        jobs := jobs[a.job := job.(state := GivenUp)];
        attempt := Some(a.(working := a.working.(status := Failed)));
      } else {
        jobs := jobs[a.job := job.(state := Waiting)];
        nextRuns := nextRuns[a.job := done + J.Backoff(job.attempts) * J.Second];
      }
    }

    method MarkSucceeded()
      requires attempt.Some? && WellFormed(State())
      modifies this`jobs
      ensures jobs == old(jobs)[attempt.value.job := old(jobs)[attempt.value.job].(state := Succeeded)]
    {
      jobs := jobs[attempt.value.job := jobs[attempt.value.job].(state := Succeeded)];
    }

    /** One pass of the worker: claim the oldest due job, run its handler, pass the verdict, commit. left and
        partial say where the first failing call breaks and what a torn restore leaves, done when the handler
        ended. On the jobs table it is a pass of the queue. */
    method RunOnce(now: int, done: int, left: nat, partial: seq<nat>) returns (found: bool)
      requires Valid() && Inv(State()) && attempt.None? && |nextRuns| == |jobs|
      modifies this, servers
      ensures |nextRuns| == |jobs|
      ensures
        match J.OldestDue(old(Queue()), now)
        case None => !found && State() == old(State()) && nextRuns == old(nextRuns)
        case Some(j) =>
          && found && j < |old(jobs)| && old(jobs)[j].state == Waiting
          && State() == WorkedOff(old(State()), j, left, partial)
          && var handling := J.Handling(map[], HandlerRaises(old(State()), j, left), done);
             Queue() == J.Passed(J.Tables(old(Queue()), map[]), now, handling).jobs
    {
      var oldest := J.OldestDue(Queue(), now);
      if oldest.None? {
        return false;
      }
      ghost var w := State();
      ghost var raised := WorkedOffJobs(w, nextRuns, oldest.value, left, partial, now, done);
      WorkOff(oldest.value, left, partial, done);
      return true;
    }

    /** claim_next_job, and the head of the handler. */
    method Begin(j: nat) returns (started: bool)
      requires Valid() && Inv(State()) && attempt.None? && j < |jobs| && jobs[j].state == Waiting
      modifies this`jobs, this`attempt
      ensures State() == Claimed(old(State()), j) && started == attempt.Some?
    {
      ghost var w := State();
      var job := jobs[j].(attempts := jobs[j].attempts + 1, state := InProgress);
      var source := clusters[record.cluster].node;
      started := source != job.target;
      if started {
        jobs := jobs[j := job];
        attempt := Some(Attempt(j, source, record, record, [], 0));
      } else {
        jobs := jobs[j := job.(state := Succeeded)];
      }
      assert State().nodes == w.nodes;
    }

    method WorkOff(j: nat, left: nat, partial: seq<nat>, done: int)
      requires Valid() && Inv(State()) && attempt.None? && j < |jobs| && jobs[j].state == Waiting
      requires |nextRuns| == |jobs|
      modifies this, servers
      ensures State() == WorkedOff(old(State()), j, left, partial)
      ensures nextRuns == NextRuns(old(jobs)[j].attempts + 1, j, old(nextRuns),
                                   HandlerRaises(old(State()), j, left), done)
    {
      ghost var w := State();
      var started := Begin(j);
      if started {
        RequestOrClaimKeepsInv(w, Claim(j));
        Handle(left, partial, done);
      }
    }

    /** The handler of the claimed job and what follows from it. */
    method Handle(left: nat, partial: seq<nat>, done: int)
      requires Valid() && Inv(State()) && attempt.Some? && attempt.value.pc == 0 && |nextRuns| == |jobs|
      requires jobs[attempt.value.job].attempts > 0
      modifies this, servers
      ensures
        var stop := Through(old(State()), End, left);
        var j := old(attempt.value.job);
        && State() == (if stop.raised then Interrupted(Torn(stop.w, partial)) else Finished(stop.w))
        && nextRuns == NextRuns(old(jobs)[j].attempts, j, old(nextRuns), stop.raised, done)
    {
      ThroughTouchesNoJob(State(), End, left);
      var raised := ExecuteMigrateDatabase(left);
      Conclude(raised, partial, done);
    }

    /** The verdict on the job and the commit, after whatever a torn restore left behind. */
    method Conclude(raised: bool, partial: seq<nat>, done: int)
      requires Valid() && attempt.Some? && WellFormed(State()) && |nextRuns| == |jobs|
      requires jobs[attempt.value.job].attempts > 0
      modifies this, servers
      ensures
        var w := old(State());
        State() == if raised then Interrupted(Torn(w, partial)) else Finished(w)
      ensures
        var j := old(attempt.value.job);
        var job := old(jobs)[j];
        nextRuns == NextRuns(job.attempts, j, old(nextRuns), raised, done)
    {
      ghost var w := State();
      if raised {
        var target := jobs[attempt.value.job].target;
        if attempt.value.pc == RestoreAt + 2 {
          servers[target].TearLoad(partial);
        }
        assert State().nodes == Torn(w, partial).nodes;
        MarkFailedOrRetry(done);
      } else {
        MarkSucceeded();
      }
      record := Commit(record, attempt.value.loaded, attempt.value.working);
      attempt := None;
      assert State().nodes == if raised then Torn(w, partial).nodes else w.nodes;
    }
  }

  /** What RunOnce makes of the platform. */
  function WorkedOff(w: World, j: nat, left: nat, partial: seq<nat>): World
    requires Inv(w) && w.attempt.None? && j < |w.jobs| && w.jobs[j].state == Waiting
  {
    var claimed := Claimed(w, j);
    if claimed.attempt.None? then claimed
    else
      var stop := Through(claimed, End, left);
      if stop.raised then Interrupted(Torn(stop.w, partial)) else Finished(stop.w)
  }

  /** The handler of job j runs into an error. */
  predicate HandlerRaises(w: World, j: nat, left: nat)
    requires Inv(w) && w.attempt.None? && j < |w.jobs| && w.jobs[j].state == Waiting
  {
    var claimed := Claimed(w, j);
    claimed.attempt.Some? && Through(claimed, End, left).raised
  }

  lemma {:induction false} ThroughTouchesNoJob(w: World, until: nat, left: nat)
    requires WellFormed(w) && w.attempt.Some? && until <= End
    ensures Through(w, until, left).w.jobs == w.jobs
    ensures Through(w, until, left).w.attempt.value.job == w.attempt.value.job
    decreases End - w.attempt.value.pc
  {
    if w.attempt.value.pc >= until || left == 0 {
    } else {
      AdvanceIsWellFormed(w);
      if Advance(w).Continues? {
        ThroughTouchesNoJob(Advance(w).w, until, left - 1);
      }
    }
  }

  lemma WorkedOffJob(w: World, j: nat, left: nat, partial: seq<nat>)
    requires Inv(w) && w.attempt.None? && j < |w.jobs| && w.jobs[j].state == Waiting
    ensures WorkedOff(w, j, left, partial).jobs == w.jobs[j := Ended(w.jobs[j], HandlerRaises(w, j, left))]
  {
    var claimed := Claimed(w, j);
    if claimed.attempt.Some? {
      ThroughTouchesNoJob(claimed, End, left);
    }
  }

  /** On the jobs table a pass over the oldest due job is a pass of the queue, with what the handler made of it. */
  lemma WorkedOffJobs(w: World, nextRuns: seq<int>, j: nat, left: nat, partial: seq<nat>, now: int, done: int)
    returns (raised: bool)
    requires Inv(w) && w.attempt.None? && |nextRuns| == |w.jobs|
    requires J.OldestDue(Rows(w.jobs, nextRuns), now) == Some(j)
    ensures j < |w.jobs| && w.jobs[j].state == Waiting && raised == HandlerRaises(w, j, left)
    ensures |WorkedOff(w, j, left, partial).jobs| == |w.jobs|
    ensures
      Rows(WorkedOff(w, j, left, partial).jobs, NextRuns(w.jobs[j].attempts + 1, j, nextRuns, raised, done)) ==
      J.Passed(J.Tables(Rows(w.jobs, nextRuns), map[]), now, J.Handling(map[], raised, done)).jobs
  {
    EndedIsAPass(w.jobs, j, nextRuns, now, false, done);
    raised := HandlerRaises(w, j, left);
    EndedIsAPass(w.jobs, j, nextRuns, now, raised, done);
    WorkedOffJob(w, j, left, partial);
  }

  lemma StepAdvances(w: World)
    requires Inv(w) && w.attempt.Some? && w.attempt.value.pc < End && Advance(w).Continues?
    ensures After(w, Step) == Advance(w).w
  {
  }

  /** Undisturbed steps lead from one world to the other. */
  ghost predicate Reaches(w: World, after: World)
    requires Inv(w)
  {
    exists k: nat :: Run(w, Steps(k)) == after
  }

  lemma ReachesItself(w: World)
    requires Inv(w)
    ensures Reaches(w, w)
  {
    assert Run(w, Steps(0)) == w;
  }

  lemma ReachesAfterStep(w: World, after: World)
    requires Inv(w) && Reaches(After(w, Step), after)
    ensures Reaches(w, after)
  {
    var k: nat :| Run(After(w, Step), Steps(k)) == after;
    assert Steps(k + 1)[1..] == Steps(k);
    assert Run(w, Steps(k + 1)) == after;
  }

  predicate Stops(w: World, until: nat, left: nat)
    requires WellFormed(w) && w.attempt.Some? && until <= End
  {
    w.attempt.value.pc >= until || left == 0 || Advance(w).Raises?
  }

  lemma StoppedThrough(w: World, until: nat, left: nat)
    requires WellFormed(w) && w.attempt.Some? && until <= End && Stops(w, until, left)
    ensures Through(w, until, left).w == w
  {
  }

  lemma SteppedThrough(w: World, until: nat, left: nat) returns (next: World)
    requires Inv(w) && w.attempt.Some? && until <= End && !Stops(w, until, left)
    ensures next == After(w, Step) && Inv(next) && next.attempt.Some? && left > 0
    ensures w.attempt.value.pc < next.attempt.value.pc <= End
    ensures Through(w, until, left) == Through(next, until, left - 1)
  {
    next := After(w, Step);
    AdvanceIsWellFormed(w);
    StepAdvances(w);
  }

  lemma {:induction false} ThroughReaches(w: World, until: nat, left: nat, stop: Stop)
    requires Inv(w) && w.attempt.Some? && until <= End && stop == Through(w, until, left)
    ensures Reaches(w, stop.w)
    decreases End - w.attempt.value.pc
  {
    if Stops(w, until, left) {
      StoppedThrough(w, until, left);
      ReachesItself(w);
    } else {
      var next := SteppedThrough(w, until, left);
      ThroughReaches(next, until, left - 1, stop);
      ReachesAfterStep(w, stop.w);
    }
  }

  /** The verdict on the attempt is one more event. */
  lemma VerdictEvent(w: World, raised: bool, partial: seq<nat>)
    requires Inv(w) && w.attempt.Some? && (raised <==> w.attempt.value.pc < End)
    ensures
      After(w, if raised then Break(partial) else Step) ==
      if raised then Interrupted(Torn(w, partial)) else Finished(w)
  {
  }

  lemma HandlingIsARun(w: World, left: nat, partial: seq<nat>) returns (events: seq<Event>)
    requires Inv(w) && w.attempt.Some?
    ensures
      var stop := Through(w, End, left);
      Run(w, events) == if stop.raised then Interrupted(Torn(stop.w, partial)) else Finished(stop.w)
  {
    var stop := Through(w, End, left);
    ThroughReaches(w, End, left, stop);
    ThroughKeepsInv(w, End, left);
    var steps: nat :| Run(w, Steps(steps)) == stop.w;
    VerdictEvent(stop.w, stop.raised, partial);
    var verdict := if stop.raised then Break(partial) else Step;
    RunOneMore(w, Steps(steps), verdict);
    events := Steps(steps) + [verdict];
  }

  /** Every pass of the worker is a run of the machine, so whatever holds of all runs holds of it. */
  lemma WorkedOffIsARun(w: World, j: nat, left: nat, partial: seq<nat>) returns (events: seq<Event>)
    requires Inv(w) && w.attempt.None? && j < |w.jobs| && w.jobs[j].state == Waiting
    ensures Run(w, events) == WorkedOff(w, j, left, partial)
  {
    RunOne(w, Claim(j));
    events := [Claim(j)];
    var claimed := After(w, Claim(j));
    if claimed.attempt.Some? {
      var more := HandlingIsARun(claimed, left, partial);
      RunAppend(w, [Claim(j)], more);
      events := [Claim(j)] + more;
    }
  }
}
