/** Runs of create, restore and delete jobs: when the allocator never promises a node more than it has. */
module Capacity {
  import opened Wrappers
  import opened Sums
  import opened Clusters
  import opened Placement

  /** Request: the API inserts a row. Create, Restore, Delete: one attempt of that job by the worker. */
  datatype Event =
    | Request(id: nat, region: nat, shared: bool, size: Size, restoring: bool)
    | RequestDelete(id: nat)
    | Create(id: nat, agentAnswers: bool, lastTry: bool)
    | Restore(id: nat, backupUsable: bool, agentAnswers: bool, lastTry: bool)
    | Delete(id: nat, agentAnswers: bool, lastTry: bool)
    | Heartbeat(node: nat, eligible: bool)

  ghost function Attempted(t: Tables, e: Event): Attempt
    requires WellFormed(t) && (e.Create? || e.Restore? || e.Delete?)
  {
    match e
    case Create(id, answers, _) => CreateAttempted(t, id, answers)
    case Restore(id, usable, answers, _) => RestoreAttempted(t, id, usable, answers)
    case Delete(id, answers, _) => DeleteAttempted(t, id, answers)
  }

  ghost function Next(t: Tables, e: Event): Tables
    requires WellFormed(t)
  {
    match e
    case Request(id, region, shared, size, restoring) =>
      if id in t.databases then t
      else t.(databases := t.databases[id :=
             Database(region, shared, size, if restoring then Restoring else Creating, None)])
    case RequestDelete(id) =>
      if id in t.databases && t.databases[id].status != Deleted then Marked(t, id, Deleting) else t
    case Heartbeat(n, eligible) =>
      if n < |t.nodes| then t.(nodes := t.nodes[n := t.nodes[n].(eligible := eligible)]) else t
    case _ => Committed(Attempted(t, e), e.id, e.lastTry)
  }

  // ------------------------------------------------------------ where a database ends up

  /** Placement leaves the database in a cluster of its kind on the chosen node. */
  lemma PlacedOnNode(t: Tables, id: nat, n: nat)
    requires WellFormed(t) && id in t.databases && n < |t.nodes|
    ensures
      var placed := Placed(t, id, n);
      && WellFormed(placed) && id in placed.databases && placed.databases[id].cluster.Some?
      && placed.clusters[placed.databases[id].cluster.value] == Cluster(n, t.databases[id].shared)
      && placed.databases[id] == t.databases[id].(cluster := placed.databases[id].cluster)
  {
  }

  /** The agent that was asked to provision is that of the stored cluster's primary node, the best node there was,
      and the cluster is of the kind the database asked for. */
  lemma ProvisionedWhereStored(t: Tables, id: nat, agentAnswers: bool)
    requires WellFormed(t) && CreateAttempted(t, id, agentAnswers).contacted.Some?
    ensures
      var a := CreateAttempted(t, id, agentAnswers);
      && WellFormed(a.tables) && id in t.databases && id in a.tables.databases
      && var before, after := t.databases[id], a.tables.databases[id];
         && after.cluster.Some?
         && a.tables.clusters[after.cluster.value] == Cluster(a.contacted.value, before.shared)
         && before.region in t.activeRegions && IsBest(t, before.region, before.size, a.contacted.value)
         && a.raised == !agentAnswers
         && after == before.(cluster := after.cluster, status := if agentAnswers then Running else before.status)
  {
    ChoosesTheBest(t, t.databases[id].region, t.databases[id].size);
    PlacedOnNode(t, id, CreateAttempted(t, id, agentAnswers).contacted.value);
  }

  /** A delete job calls the primary of the stored cluster, unless there is nothing to drop, and marks the database
      DELETED unless that call fails. */
  lemma DeletionCallsThePrimary(t: Tables, id: nat, agentAnswers: bool)
    requires WellFormed(t)
    ensures
      var a := DeleteAttempted(t, id, agentAnswers);
      var drops := id in t.databases && t.databases[id].status != Deleted && t.databases[id].cluster.Some?;
      && a.contacted == (if drops then Some(t.clusters[t.databases[id].cluster.value].node) else None)
      && (a.raised <==> drops && !agentAnswers)
      && (a.raised || id !in t.databases ==> a.tables == t)
      && (!a.raised && id in t.databases ==>
            a.tables == t.(databases := t.databases[id := t.databases[id].(status := Deleted)]))
  {
    if id in t.databases && t.databases[id].status == Deleted {
      assert t.databases[id := t.databases[id].(status := Deleted)] == t.databases;
    }
  }

  /** A restore of a database that is not there raises, one of a database already up does nothing, and one from an
      unusable backup raises without calling any agent. */
  lemma RestoreNeedsTheBackup(t: Tables, id: nat, backupUsable: bool, agentAnswers: bool)
    requires WellFormed(t)
    ensures
      var a := RestoreAttempted(t, id, backupUsable, agentAnswers);
      if id !in t.databases then a == Attempt(t, None, true)
      else if t.databases[id].status == Running && t.databases[id].cluster.Some? then a == Attempt(t, None, false)
      else if !backupUsable then a == Attempt(t, None, true)
      else if t.databases[id].region in t.activeRegions
              && exists n: nat :: HasRoom(t, t.databases[id].region, t.databases[id].size, n) then a.contacted.Some?
      else a == Attempt(t, None, true)
  {
    if id in t.databases {
      ChoosesTheEmptiest(t, t.databases[id].region, t.databases[id].size);
    }
  }

  /** A create or restore handler returns normally only with its database RUNNING in some cluster, and when it
      raises it has changed nothing but that database's cluster. */
  lemma NormalReturnMeansRunning(t: Tables, id: nat, backupUsable: bool, agentAnswers: bool)
    requires WellFormed(t)
    ensures
      var a := RestoreAttempted(t, id, backupUsable, agentAnswers);
      && (!a.raised ==>
            id in a.tables.databases && a.tables.databases[id].status == Running
            && a.tables.databases[id].cluster.Some?)
      && (a.raised && id in t.databases ==>
            id in a.tables.databases
            && a.tables.databases == t.databases[id := t.databases[id].(cluster := a.tables.databases[id].cluster)])
      && (a.raised && id !in t.databases ==> a.tables == t)
    ensures backupUsable ==> RestoreAttempted(t, id, backupUsable, agentAnswers) == CreateAttempted(t, id, agentAnswers)
  {
    if id in t.databases {
      assert t.databases[id := t.databases[id]] == t.databases;
    }
  }

  // ------------------------------------------------------------ capacity, step by step

  /** Rewriting one row, perhaps after adding clusters, changes a node's allocation by that row's share. */
  lemma AllocatedUpdate(t: Tables, more: seq<Cluster>, id: nat, row: Database, n: nat, r: Resource)
    requires WellFormed(t)
    ensures
      var after := t.(clusters := t.clusters + more, databases := t.databases[id := row]);
      Allocated(after, n, r) ==
      Allocated(t, n, r) - (if id in t.databases then Share(t, t.databases[id], n, r) else 0) + Share(after, row, n, r)
  {
    var after := t.(clusters := t.clusters + more, databases := t.databases[id := row]);
    SumUpdate(Shares(t, n, r), id, Share(after, row, n, r));
    assert Shares(after, n, r) == Shares(t, n, r)[id := Share(after, row, n, r)];
  }

  lemma MarkedAllocation(t: Tables, id: nat, status: Status, n: nat, r: Resource)
    requires WellFormed(t) && id in t.databases
    ensures
      Allocated(Marked(t, id, status), n, r) ==
      Allocated(t, n, r) - Share(t, t.databases[id], n, r) + Share(t, t.databases[id].(status := status), n, r)
  {
    AllocatedUpdate(t, [], id, t.databases[id].(status := status), n, r);
    assert t.clusters + [] == t.clusters;
  }

  /** Where the candidate node has room, so does the table after the placement, whatever the row's status. */
  lemma PlacedAllocation(t: Tables, id: nat, p: nat, status: Status, n: nat, r: Resource)
    requires WellFormed(t) && id in t.databases && p < |t.nodes|
    ensures WellFormed(Placed(t, id, p))
    ensures
      var size := t.databases[id].size.Of(r);
      Allocated(Marked(Placed(t, id, p), id, status), n, r) ==
      Allocated(t, n, r) - Share(t, t.databases[id], n, r) + if n == p && status != Deleted then size else 0
  {
    var placed := Placed(t, id, p);
    var row := placed.databases[id].(status := status);
    var more := placed.clusters[|t.clusters|..];
    assert placed.clusters == t.clusters + more;
    assert Marked(placed, id, status) == t.(clusters := t.clusters + more, databases := t.databases[id := row]);
    AllocatedUpdate(t, more, id, row, n, r);
  }

  lemma PlacingKeepsCapacity(t: Tables, id: nat, p: nat, status: Status)
    requires WellFormed(t) && WithinCapacity(t) && id in t.databases && p < |t.nodes|
             && Fits(t, p, t.databases[id].size)
    ensures WellFormed(Placed(t, id, p)) && WithinCapacity(Marked(Placed(t, id, p), id, status))
    ensures WellFormed(Marked(Placed(t, id, p), id, status))
  {
    var after := Marked(Placed(t, id, p), id, status);
    forall n, r | 0 <= n < |t.nodes| ensures Allocated(after, n, r) <= t.nodes[n].total.Of(r) {
      PlacedAllocation(t, id, p, status, n, r);
      assert Allocated(t, p, r) + t.databases[id].size.Of(r) <= t.nodes[p].total.Of(r);
    }
  }

  /** A status change takes up room only when it brings a DELETED database back. */
  lemma MarkingKeepsCapacity(t: Tables, id: nat, status: Status)
    requires WellFormed(t) && WithinCapacity(t) && id in t.databases
    requires t.databases[id].status != Deleted || t.databases[id].cluster.None? || status == Deleted
    ensures WellFormed(Marked(t, id, status)) && WithinCapacity(Marked(t, id, status))
  {
    forall n, r | 0 <= n < |t.nodes| ensures Allocated(Marked(t, id, status), n, r) <= t.nodes[n].total.Of(r) {
      MarkedAllocation(t, id, status, n, r);
    }
  }

  /** The last try of a create or restore job fails before it has placed the database anew, and marks FAILED a
      database that was DELETED meanwhile: it counts again on the node of its old cluster. */
  ghost predicate Revives(t: Tables, e: Event)
    requires WellFormed(t)
  {
    && (e.Create? || e.Restore?) && e.lastTry && e.id in t.databases
    && t.databases[e.id].status == Deleted && t.databases[e.id].cluster.Some?
    && Attempted(t, e).contacted.None?
  }

  /** Its old node has room for it again. */
  ghost predicate RoomAgain(t: Tables, id: nat)
    requires WellFormed(t) && id in t.databases && t.databases[id].cluster.Some?
  {
    Fits(t, t.clusters[t.databases[id].cluster.value].node, t.databases[id].size)
  }

  lemma RevivingNeedsRoom(t: Tables, id: nat)
    requires WellFormed(t) && WithinCapacity(t) && id in t.databases
    requires t.databases[id].status == Deleted && t.databases[id].cluster.Some?
    ensures WellFormed(Marked(t, id, Failed))
    ensures WithinCapacity(Marked(t, id, Failed)) <==> RoomAgain(t, id)
  {
    var home := t.clusters[t.databases[id].cluster.value].node;
    forall n, r
      ensures Allocated(Marked(t, id, Failed), n, r) ==
              Allocated(t, n, r) + if n == home then t.databases[id].size.Of(r) else 0
    {
      MarkedAllocation(t, id, Failed, n, r);
    }
    if WithinCapacity(Marked(t, id, Failed)) {
      forall r: Resource ensures Allocated(t, home, r) + t.databases[id].size.Of(r) <= t.nodes[home].total.Of(r) {
        assert Allocated(Marked(t, id, Failed), home, r) <= Marked(t, id, Failed).nodes[home].total.Of(r);
      }
    }
  }

  /** An attempt that did place the database is covered by the room it found, whatever became of the call. */
  lemma PlacingStep(t: Tables, id: nat, agentAnswers: bool, lastTry: bool)
    requires WellFormed(t) && WithinCapacity(t) && CreateAttempted(t, id, agentAnswers).contacted.Some?
    ensures
      var after := Committed(CreateAttempted(t, id, agentAnswers), id, lastTry);
      WellFormed(after) && WithinCapacity(after)
  {
    var p := CreateAttempted(t, id, agentAnswers).contacted.value;
    var placed := Placed(t, id, p);
    var status := if agentAnswers then Running else if lastTry then Failed else t.databases[id].status;
    PlacingKeepsCapacity(t, id, p, status);
    assert Committed(CreateAttempted(t, id, agentAnswers), id, lastTry).databases ==
           Marked(placed, id, status).databases;
  }

  lemma CreateStep(t: Tables, id: nat, agentAnswers: bool, lastTry: bool)
    requires WellFormed(t) && WithinCapacity(t)
    ensures
      var e := Create(id, agentAnswers, lastTry);
      && WellFormed(Next(t, e))
      && (WithinCapacity(Next(t, e)) <==> (Revives(t, e) ==> RoomAgain(t, id)))
  {
    var a := CreateAttempted(t, id, agentAnswers);
    if a.contacted.Some? {
      PlacingStep(t, id, agentAnswers, lastTry);
    } else {
      FailingStep(t, a, id, lastTry);
    }
  }

  /** An attempt that ended before any placement: only the last try changes anything. */
  lemma FailingStep(t: Tables, a: Attempt, id: nat, lastTry: bool)
    requires WellFormed(t) && WithinCapacity(t) && a.tables == t
    ensures WellFormed(Committed(a, id, lastTry))
    ensures
      WithinCapacity(Committed(a, id, lastTry)) <==>
      (a.raised && lastTry && id in t.databases && t.databases[id].status == Deleted && t.databases[id].cluster.Some?
       ==> RoomAgain(t, id))
  {
    if a.raised && lastTry && id in t.databases {
      if t.databases[id].status == Deleted && t.databases[id].cluster.Some? {
        RevivingNeedsRoom(t, id);
      } else {
        MarkingKeepsCapacity(t, id, Failed);
      }
    }
  }

  lemma RestoreStep(t: Tables, id: nat, backupUsable: bool, agentAnswers: bool, lastTry: bool)
    requires WellFormed(t) && WithinCapacity(t)
    ensures
      var e := Restore(id, backupUsable, agentAnswers, lastTry);
      && WellFormed(Next(t, e))
      && (WithinCapacity(Next(t, e)) <==> (Revives(t, e) ==> RoomAgain(t, id)))
  {
    var a := RestoreAttempted(t, id, backupUsable, agentAnswers);
    if a == CreateAttempted(t, id, agentAnswers) {
      CreateStep(t, id, agentAnswers, lastTry);
    } else {
      FailingStep(t, a, id, lastTry);
    }
  }

  lemma DeleteStep(t: Tables, id: nat, agentAnswers: bool, lastTry: bool)
    requires WellFormed(t) && WithinCapacity(t)
    ensures WellFormed(Next(t, Delete(id, agentAnswers, lastTry)))
            && WithinCapacity(Next(t, Delete(id, agentAnswers, lastTry)))
  {
    if id in t.databases && t.databases[id].status != Deleted {
      MarkingKeepsCapacity(t, id, Deleted);
      MarkingKeepsCapacity(t, id, Failed);
    }
  }

  /** A new row takes no room until it is placed. */
  lemma InsertingKeepsCapacity(t: Tables, id: nat, row: Database)
    requires WellFormed(t) && WithinCapacity(t) && id !in t.databases && row.cluster.None?
    ensures WellFormed(t.(databases := t.databases[id := row]))
    ensures WithinCapacity(t.(databases := t.databases[id := row]))
  {
    assert t.clusters + [] == t.clusters;
    forall n, r ensures Allocated(t.(databases := t.databases[id := row]), n, r) == Allocated(t, n, r) {
      AllocatedUpdate(t, [], id, row, n, r);
    }
  }

  lemma RequestStep(t: Tables, e: Event)
    requires WellFormed(t) && WithinCapacity(t) && (e.Request? || e.RequestDelete? || e.Heartbeat?)
    ensures WellFormed(Next(t, e)) && WithinCapacity(Next(t, e))
  {
    match e {
      case Request(id, region, shared, size, restoring) =>
        if id !in t.databases {
          InsertingKeepsCapacity(t, id, Next(t, e).databases[id]);
        }
      case RequestDelete(id) =>
        if id in t.databases && t.databases[id].status != Deleted {
          MarkingKeepsCapacity(t, id, Deleting);
        }
      case Heartbeat(node, eligible) =>
        assert forall n, r :: Shares(Next(t, e), n, r) == Shares(t, n, r);
    }
  }

  /** Exactly when a step keeps every node within its totals. */
  lemma StepKeepsCapacityIff(t: Tables, e: Event)
    requires WellFormed(t) && WithinCapacity(t)
    ensures WellFormed(Next(t, e))
    ensures WithinCapacity(Next(t, e)) <==> (Revives(t, e) ==> RoomAgain(t, e.id))
  {
    match e {
      case Create(id, answers, lastTry) => CreateStep(t, id, answers, lastTry);
      case Restore(id, usable, answers, lastTry) => RestoreStep(t, id, usable, answers, lastTry);
      case Delete(id, answers, lastTry) => DeleteStep(t, id, answers, lastTry);
      case _ => RequestStep(t, e);
    }
  }

  // ------------------------------------------------------------ whole runs

  predicate Together(t: Tables, id: nat, other: nat)
    requires id in t.databases && other in t.databases
  {
    t.databases[id].cluster.Some? && t.databases[id].cluster == t.databases[other].cluster
  }

  /** A dedicated cluster hosts one database, and every database sits in a cluster of the kind it asked for. */
  predicate Isolated(t: Tables)
    requires WellFormed(t)
  {
    && (forall id :: id in t.databases && t.databases[id].cluster.Some? ==>
          t.clusters[t.databases[id].cluster.value].shared == t.databases[id].shared)
    && (forall id, other :: id in t.databases && other in t.databases && id != other && Together(t, id, other) ==>
          t.databases[id].shared)
  }

  ghost predicate Safe(t: Tables) {
    WellFormed(t) && WithinCapacity(t) && Isolated(t)
  }

  lemma PlacedIsIsolated(t: Tables, id: nat, p: nat)
    requires WellFormed(t) && Isolated(t) && id in t.databases && p < |t.nodes|
    ensures WellFormed(Placed(t, id, p)) && Isolated(Placed(t, id, p))
  {
  }

  lemma MarkedIsIsolated(t: Tables, id: nat, status: Status)
    requires WellFormed(t) && Isolated(t)
    ensures WellFormed(Marked(t, id, status)) && Isolated(Marked(t, id, status))
  {
  }

  lemma CreateIsIsolated(t: Tables, id: nat, agentAnswers: bool, lastTry: bool)
    requires WellFormed(t) && Isolated(t)
    ensures
      var after := Committed(CreateAttempted(t, id, agentAnswers), id, lastTry);
      WellFormed(after) && Isolated(after)
  {
    var a := CreateAttempted(t, id, agentAnswers);
    if a.contacted.Some? {
      PlacedIsIsolated(t, id, a.contacted.value);
      MarkedIsIsolated(Placed(t, id, a.contacted.value), id, Running);
    }
    MarkedIsIsolated(a.tables, id, Failed);
  }

  lemma AttemptIsIsolated(t: Tables, e: Event)
    requires WellFormed(t) && Isolated(t) && (e.Create? || e.Restore? || e.Delete?)
    ensures WellFormed(Next(t, e)) && Isolated(Next(t, e))
  {
    if e.Delete? {
      MarkedIsIsolated(t, e.id, Deleted);
    } else {
      CreateIsIsolated(t, e.id, e.agentAnswers, e.lastTry);
    }
    MarkedIsIsolated(t, e.id, Failed);
  }

  lemma StepKeepsIsolation(t: Tables, e: Event)
    requires WellFormed(t) && Isolated(t)
    ensures WellFormed(Next(t, e)) && Isolated(Next(t, e))
  {
    match e {
      case Request(_, _, _, _, _) =>
      case RequestDelete(id) => MarkedIsIsolated(t, id, Deleting);
      case Heartbeat(_, _) =>
      case _ => AttemptIsIsolated(t, e);
    }
  }

  /** Whenever a job gives up on a database that was deleted under it, its old node has room for it again. */
  ghost predicate RevivedOnlyWithRoom(t: Tables, events: seq<Event>)
    requires WellFormed(t) && Isolated(t)
    decreases |events|
  {
    events == [] ||
    (StepKeepsIsolation(t, events[0]);
     && (Revives(t, events[0]) ==> RoomAgain(t, events[0].id))
     && RevivedOnlyWithRoom(Next(t, events[0]), events[1..]))
  }

  /** No node exceeds its totals after any of the events. */
  ghost predicate AlwaysWithinCapacity(t: Tables, events: seq<Event>)
    requires WellFormed(t) && Isolated(t)
    decreases |events|
  {
    WithinCapacity(t) &&
    (events == [] || (StepKeepsIsolation(t, events[0]); AlwaysWithinCapacity(Next(t, events[0]), events[1..])))
  }

  /** Retried and failing jobs included, no node is ever promised more than it has, exactly when every database
      that comes back from DELETED finds room. */
  lemma {:induction false} NeverOvercommitsIff(t: Tables, events: seq<Event>)
    requires Safe(t)
    ensures AlwaysWithinCapacity(t, events) <==> RevivedOnlyWithRoom(t, events)
    decreases |events|
  {
    if events == [] {
    } else {
      StepKeepsCapacityIff(t, events[0]);
      StepKeepsIsolation(t, events[0]);
      var after := Next(t, events[0]);
      if WithinCapacity(after) {
        NeverOvercommitsIff(after, events[1..]);
      }
    }
  }
}
