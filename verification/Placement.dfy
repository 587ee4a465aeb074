/** Choosing a node and a cluster for a database, and the create, restore and delete jobs that rely on it. */
module Placement {
  import opened Wrappers
  import opened Reals
  import opened Sums
  import opened Clusters

  // ------------------------------------------------------------ rows

  datatype Resource = Cpu | Ram | Storage

  datatype Size = Size(cpu: nat, ram: nat, storage: nat) {
    function Of(r: Resource): nat {
      match r
      case Cpu => cpu
      case Ram => ram
      case Storage => storage
    }
  }

  /** eligible: operator-active, and heard from lately. Every total is positive. */
  datatype Node = Node(region: nat, eligible: bool, total: Size)

  datatype Status = Creating | Restoring | Running | Deleting | Deleted | Failed

  /** shared: the isolation level asked for */
  datatype Database = Database(region: nat, shared: bool, size: Size, status: Status, cluster: Option<nat>)

  datatype Tables = Tables(nodes: seq<Node>, clusters: seq<Cluster>, databases: map<nat, Database>,
                           activeRegions: set<nat>)

  predicate WellFormed(t: Tables) {
    && (forall n :: 0 <= n < |t.nodes| ==> forall r: Resource :: t.nodes[n].total.Of(r) > 0)
    && (forall c :: 0 <= c < |t.clusters| ==> t.clusters[c].node < |t.nodes|)
    && (forall id :: id in t.databases && t.databases[id].cluster.Some? ==>
          t.databases[id].cluster.value < |t.clusters|)
  }

  // ------------------------------------------------------------ capacity

  /** What one database takes from a node: nothing once it is DELETED. */
  function Share(t: Tables, database: Database, n: nat, r: Resource): nat {
    if database.cluster.Some? && database.status != Deleted
       && database.cluster.value < |t.clusters| && t.clusters[database.cluster.value].node == n
    then database.size.Of(r) else 0
  }

  function Shares(t: Tables, n: nat, r: Resource): map<nat, int> {
    map id | id in t.databases :: Share(t, t.databases[id], n, r)
  }

  ghost function Allocated(t: Tables, n: nat, r: Resource): int {
    Sum(Shares(t, n, r))
  }

  ghost predicate Fits(t: Tables, n: nat, size: Size)
    requires n < |t.nodes|
  {
    forall r: Resource :: Allocated(t, n, r) + size.Of(r) <= t.nodes[n].total.Of(r)
  }

  ghost predicate WithinCapacity(t: Tables) {
    forall n, r :: 0 <= n < |t.nodes| ==> Allocated(t, n, r) <= t.nodes[n].total.Of(r)
  }

  function FreeFraction(total: int, used: int): real
    requires total > 0
  {
    var free := (total - used) as real / total as real;
    if free < 0.0 then 0.0 else free
  }

  ghost function Score(t: Tables, n: nat): real
    requires WellFormed(t) && n < |t.nodes|
  {
    var total := t.nodes[n].total;
    assert total.Of(Cpu) > 0 && total.Of(Ram) > 0 && total.Of(Storage) > 0;
    FreeFraction(total.cpu, Allocated(t, n, Cpu)) + FreeFraction(total.ram, Allocated(t, n, Ram))
    + FreeFraction(total.storage, Allocated(t, n, Storage))
  }

  // ------------------------------------------------------------ selection

  ghost predicate Candidate(t: Tables, region: nat, size: Size, n: nat) {
    n < |t.nodes| && t.nodes[n].region == region && t.nodes[n].eligible && Fits(t, n, size)
  }

  /** The first of the best-scoring candidates. */
  ghost predicate IsBest(t: Tables, region: nat, size: Size, n: nat)
    requires WellFormed(t)
  {
    && Candidate(t, region, size, n)
    && forall m :: 0 <= m < |t.nodes| && Candidate(t, region, size, m) ==>
         Score(t, m) <= Score(t, n) && (m < n ==> Score(t, m) < Score(t, n))
  }

  /** The best of the first count nodes. */
  ghost function Best(t: Tables, region: nat, size: Size, count: nat): (best: Option<nat>)
    requires WellFormed(t) && count <= |t.nodes|
    ensures best.Some? ==> best.value < count && Candidate(t, region, size, best.value)
  {
    if count == 0 then None
    else
      var n, earlier := count - 1, Best(t, region, size, count - 1);
      if !Candidate(t, region, size, n) then earlier
      else if earlier.Some? && Score(t, n) <= Score(t, earlier.value) then earlier
      else Some(n)
  }

  lemma {:induction false} BestUpTo(t: Tables, region: nat, size: Size, count: nat)
    requires WellFormed(t) && count <= |t.nodes|
    ensures
      var best := Best(t, region, size, count);
      forall m :: 0 <= m < count && Candidate(t, region, size, m) ==>
        best.Some? && Score(t, m) <= Score(t, best.value) && (m < best.value ==> Score(t, m) < Score(t, best.value))
  {
    if count == 0 {
    } else {
      BestUpTo(t, region, size, count - 1);
    }
  }

  datatype PlacementError = UnknownRegion | NoCapacity

  datatype Choice = Chosen(node: nat) | Refused(error: PlacementError)

  ghost function Choose(t: Tables, region: nat, size: Size): Choice
    requires WellFormed(t)
  {
    if region !in t.activeRegions then Refused(UnknownRegion)
    else
      match Best(t, region, size, |t.nodes|)
      case None => Refused(NoCapacity)
      case Some(n) => Chosen(n)
  }

  /** A node is chosen exactly when the region is active and some eligible node in it has room; it is the first
      with the highest score. */
  lemma ChoosesTheBest(t: Tables, region: nat, size: Size)
    requires WellFormed(t)
    ensures Choose(t, region, size).Chosen? <==>
              region in t.activeRegions && exists n: nat :: Candidate(t, region, size, n)
    ensures forall n: nat :: Choose(t, region, size) == Chosen(n) <==>
              region in t.activeRegions && IsBest(t, region, size, n)
  {
    BestUpTo(t, region, size, |t.nodes|);
  }

  /** An eligible node of the region where the database still fits, in each of its three dimensions. */
  ghost predicate HasRoom(t: Tables, region: nat, size: Size, n: nat) {
    && n < |t.nodes| && t.nodes[n].region == region && t.nodes[n].eligible
    && Allocated(t, n, Cpu) + size.cpu <= t.nodes[n].total.cpu
    && Allocated(t, n, Ram) + size.ram <= t.nodes[n].total.ram
    && Allocated(t, n, Storage) + size.storage <= t.nodes[n].total.storage
  }

  /** The part of a total that is not allocated. */
  function Unallocated(total: nat, used: int): real
    requires total > 0
  {
    (total - used) as real / total as real
  }

  ghost predicate Positive(t: Tables, n: nat) {
    n < |t.nodes| && t.nodes[n].total.cpu > 0 && t.nodes[n].total.ram > 0 && t.nodes[n].total.storage > 0
  }

  /** How empty a node is, over its three resources. */
  ghost function Emptiness(t: Tables, n: nat): real
    requires Positive(t, n)
  {
    var total := t.nodes[n].total;
    Unallocated(total.cpu, Allocated(t, n, Cpu)) + Unallocated(total.ram, Allocated(t, n, Ram))
    + Unallocated(total.storage, Allocated(t, n, Storage))
  }

  lemma TotalsArePositive(t: Tables, n: nat)
    requires WellFormed(t) && n < |t.nodes|
    ensures Positive(t, n)
  {
    var total := t.nodes[n].total;
    assert total.Of(Cpu) > 0 && total.Of(Ram) > 0 && total.Of(Storage) > 0;
  }

  lemma UnallocatedFalls(total: nat, less: int, more: int)
    requires total > 0 && less <= more
    ensures Unallocated(total, more) <= Unallocated(total, less)
    ensures less < more ==> Unallocated(total, more) < Unallocated(total, less)
    ensures more <= total ==> Unallocated(total, more) >= 0.0
  {
    var d := total as real;
    assert Times(d, 0.0) == 0.0;
    DivideTimes((total - less) as real, d);
    DivideTimes((total - more) as real, d);
    if less < more && Unallocated(total, more) >= Unallocated(total, less) {
      TimesOrder(d, Unallocated(total, less), Unallocated(total, more));
      assert false;
    }
    if more <= total && Unallocated(total, more) < 0.0 {
      TimesOrderStrict(d, Unallocated(total, more), 0.0);
      assert false;
    }
  }

  lemma CandidatesHaveRoom(t: Tables, region: nat, size: Size, n: nat)
    requires WellFormed(t)
    ensures Candidate(t, region, size, n) <==> HasRoom(t, region, size, n)
    ensures HasRoom(t, region, size, n) ==> Positive(t, n) && Score(t, n) == Emptiness(t, n)
  {
    if n < |t.nodes| {
      FitsEach(t, n, size);
      TotalsArePositive(t, n);
      if HasRoom(t, region, size, n) {
        var total := t.nodes[n].total;
        UnallocatedFalls(total.cpu, Allocated(t, n, Cpu), Allocated(t, n, Cpu));
        UnallocatedFalls(total.ram, Allocated(t, n, Ram), Allocated(t, n, Ram));
        UnallocatedFalls(total.storage, Allocated(t, n, Storage), Allocated(t, n, Storage));
      }
    }
  }

  /** The first of the emptiest nodes with room. */
  ghost predicate Emptiest(t: Tables, region: nat, size: Size, n: nat)
    requires WellFormed(t)
  {
    && HasRoom(t, region, size, n) && Positive(t, n)
    && forall m: nat :: HasRoom(t, region, size, m) ==>
         Positive(t, m) && Emptiness(t, m) <= Emptiness(t, n) && (m < n ==> Emptiness(t, m) < Emptiness(t, n))
  }

  /** What selection comes to on the tables: an unknown region, no room anywhere, or the emptiest node with room. */
  lemma ChoosesTheEmptiest(t: Tables, region: nat, size: Size)
    requires WellFormed(t)
    ensures Choose(t, region, size) == Refused(UnknownRegion) <==> region !in t.activeRegions
    ensures Choose(t, region, size) == Refused(NoCapacity) <==>
              region in t.activeRegions && forall n: nat :: !HasRoom(t, region, size, n)
    ensures forall n: nat :: Choose(t, region, size) == Chosen(n) <==>
              region in t.activeRegions && Emptiest(t, region, size, n)
  {
    ChoosesTheBest(t, region, size);
    forall n: nat
      ensures Candidate(t, region, size, n) <==> HasRoom(t, region, size, n)
      ensures HasRoom(t, region, size, n) ==> Positive(t, n) && Score(t, n) == Emptiness(t, n)
    {
      CandidatesHaveRoom(t, region, size, n);
    }
    forall n: nat ensures IsBest(t, region, size, n) <==> Emptiest(t, region, size, n) {
    }
  }

  ghost predicate NoFuller(t: Tables, m: nat, n: nat) {
    forall r: Resource :: Allocated(t, m, r) <= Allocated(t, n, r)
  }

  /** Among nodes of the same size with room, the one chosen is never fuller than another. */
  lemma NeverTheFuller(t: Tables, region: nat, size: Size, n: nat, m: nat, r: Resource)
    requires WellFormed(t) && Choose(t, region, size) == Chosen(n) && HasRoom(t, region, size, m)
    requires n < |t.nodes| && t.nodes[m].total == t.nodes[n].total
    requires NoFuller(t, m, n)
    ensures Allocated(t, m, r) == Allocated(t, n, r)
  {
    ChoosesTheEmptiest(t, region, size);
    var total := t.nodes[n].total;
    TotalsArePositive(t, n);
    UnallocatedFalls(total.cpu, Allocated(t, m, Cpu), Allocated(t, n, Cpu));
    UnallocatedFalls(total.ram, Allocated(t, m, Ram), Allocated(t, n, Ram));
    UnallocatedFalls(total.storage, Allocated(t, m, Storage), Allocated(t, n, Storage));
  }

  // ------------------------------------------------------------ clusters

  /** The database placed on node n: in the shared cluster there, or in a new one. */
  function Placed(t: Tables, id: nat, n: nat): Tables
    requires id in t.databases
  {
    var joined := Joined(t.clusters, n, t.databases[id].shared);
    t.(clusters := joined.clusters, databases := t.databases[id := t.databases[id].(cluster := Some(joined.cluster))])
  }

  // ------------------------------------------------------------ the jobs

  /** contacted: the node whose agent was called; raised: the handler raised. */
  datatype Attempt = Attempt(tables: Tables, contacted: Option<nat>, raised: bool)

  function Marked(t: Tables, id: nat, status: Status): Tables {
    if id in t.databases then t.(databases := t.databases[id := t.databases[id].(status := status)]) else t
  }

  ghost function CreateAttempted(t: Tables, id: nat, agentAnswers: bool): Attempt
    requires WellFormed(t)
  {
    if id !in t.databases then Attempt(t, None, true)
    else
      var database := t.databases[id];
      if database.status == Running && database.cluster.Some? then Attempt(t, None, false)
      else
        match Choose(t, database.region, database.size)
        case Refused(_) => Attempt(t, None, true)
        case Chosen(n) =>
          var placed := Placed(t, id, n);
          if agentAnswers then Attempt(Marked(placed, id, Running), Some(n), false)
          else Attempt(placed, Some(n), true)
  }

  ghost function RestoreAttempted(t: Tables, id: nat, backupUsable: bool, agentAnswers: bool): Attempt
    requires WellFormed(t)
  {
    if id in t.databases && !(t.databases[id].status == Running && t.databases[id].cluster.Some?) && !backupUsable
    then Attempt(t, None, true)
    else CreateAttempted(t, id, agentAnswers)
  }

  function DeleteAttempted(t: Tables, id: nat, agentAnswers: bool): Attempt
    requires WellFormed(t)
  {
    if id !in t.databases || t.databases[id].status == Deleted then Attempt(t, None, false)
    else if t.databases[id].cluster.None? then Attempt(Marked(t, id, Deleted), None, false)
    else
      var primary := t.clusters[t.databases[id].cluster.value].node;
      if agentAnswers then Attempt(Marked(t, id, Deleted), Some(primary), false)
      else Attempt(t, Some(primary), true)
  }

  /** The worker commits whatever the attempt left; the last allowed attempt also marks the database FAILED. */
  function Committed(a: Attempt, id: nat, lastTry: bool): Tables {
    if a.raised && lastTry then Marked(a.tables, id, Failed) else a.tables
  }

  // ------------------------------------------------------------ the code

  class ControlPlane {
    var nodes: seq<Node>
    var clusters: seq<Cluster>
    var databases: map<nat, Database>
    var activeRegions: set<nat>

    function State(): Tables
      reads this
    {
      Tables(nodes, clusters, databases, activeRegions)
    }

    method AllocatedResources(n: nat) returns (cpu: int, ram: int, storage: int)
      ensures cpu == Allocated(State(), n, Cpu) && ram == Allocated(State(), n, Ram)
      ensures storage == Allocated(State(), n, Storage)
    {
      cpu := SumQuery(Shares(State(), n, Cpu));
      ram := SumQuery(Shares(State(), n, Ram));
      storage := SumQuery(Shares(State(), n, Storage));
    }

    method SelectNode(region: nat, size: Size) returns (choice: Choice)
      requires WellFormed(State())
      ensures choice == Choose(State(), region, size)
    {
      if region !in activeRegions {
        return Refused(UnknownRegion);
      }
      var best: Option<nat>, bestScore := None, 0.0;
      for n := 0 to |nodes|
        invariant best == Best(State(), region, size, n)
        invariant best.Some? ==> bestScore == Score(State(), best.value)
      {
        if nodes[n].region == region && nodes[n].eligible {
          var cpu, ram, storage := AllocatedResources(n);
          var total := nodes[n].total;
          var fits := cpu + size.cpu <= total.cpu &&
                      ram + size.ram <= total.ram && storage + size.storage <= total.storage;
          assert fits == Fits(State(), n, size) by {
            FitsEach(State(), n, size);
          }
          if fits {
            assert total.Of(Cpu) > 0 && total.Of(Ram) > 0 && total.Of(Storage) > 0;
            var score := FreeFraction(total.cpu, cpu) + FreeFraction(total.ram, ram) +
                         FreeFraction(total.storage, storage);
            if best.None? || score > bestScore {
              best, bestScore := Some(n), score;
            }
          }
        }
      }
      return if best.None? then Refused(NoCapacity) else Chosen(best.value);
    }

    method ExecuteCreateDatabase(id: nat, agentAnswers: bool) returns (contacted: Option<nat>, raised: bool)
      requires WellFormed(State())
      modifies this
      ensures Attempt(State(), contacted, raised) == CreateAttempted(old(State()), id, agentAnswers)
    {
      if id !in databases {
        return None, true;
      }
      var database := databases[id];
      if database.status == Running && database.cluster.Some? {
        return None, false;
      }
      var choice := SelectNode(database.region, database.size);
      if choice.Refused? {
        return None, true;
      }
      var c: nat;
      clusters, c := GetOrCreateClusterOnNode(clusters, choice.node, database.shared);
      databases := databases[id := database.(cluster := Some(c))];
      if !agentAnswers {
        return Some(choice.node), true;
      }
      databases := databases[id := databases[id].(status := Running)];
      return Some(choice.node), false;
    }

    method ExecuteRestoreDatabase(id: nat, backupUsable: bool, agentAnswers: bool)
      returns (contacted: Option<nat>, raised: bool)
      requires WellFormed(State())
      modifies this
      ensures Attempt(State(), contacted, raised) == RestoreAttempted(old(State()), id, backupUsable, agentAnswers)
    {
      if id !in databases {
        return None, true;
      }
      var target := databases[id];
      if target.status == Running && target.cluster.Some? {
        return None, false;
      }
      if !backupUsable {
        return None, true;
      }
      var choice := SelectNode(target.region, target.size);
      if choice.Refused? {
        return None, true;
      }
      var c: nat;
      clusters, c := GetOrCreateClusterOnNode(clusters, choice.node, target.shared);
      databases := databases[id := target.(cluster := Some(c))];
      if !agentAnswers {
        return Some(choice.node), true;
      }
      databases := databases[id := databases[id].(status := Running)];
      return Some(choice.node), false;
    }

    method ExecuteDeleteDatabase(id: nat, agentAnswers: bool) returns (contacted: Option<nat>, raised: bool)
      requires WellFormed(State())
      modifies this`databases
      ensures Attempt(State(), contacted, raised) == DeleteAttempted(old(State()), id, agentAnswers)
    {
      if id !in databases || databases[id].status == Deleted {
        return None, false;
      }
      if databases[id].cluster.Some? {
        var primary := clusters[databases[id].cluster.value].node;
        contacted := Some(primary);
        if !agentAnswers {
          return contacted, true;
        }
      } else {
        contacted := None;
      }
      databases := databases[id := databases[id].(status := Deleted)];
      raised := false;
    }

    /** The terminal failure handler of these jobs. */
    method MarkDatabaseFailed(id: nat)
      modifies this`databases
      ensures State() == Marked(old(State()), id, Failed)
    {
      if id in databases {
        databases := databases[id := databases[id].(status := Failed)];
      }
    }
  }

  lemma FitsEach(t: Tables, n: nat, size: Size)
    requires n < |t.nodes|
    ensures
      var total := t.nodes[n].total;
      Fits(t, n, size) <==>
      && Allocated(t, n, Cpu) + size.cpu <= total.cpu
      && Allocated(t, n, Ram) + size.ram <= total.ram
      && Allocated(t, n, Storage) + size.storage <= total.storage
  {
    var total := t.nodes[n].total;
    assert size.Of(Cpu) == size.cpu && size.Of(Ram) == size.ram && size.Of(Storage) == size.storage;
    assert total.Of(Cpu) == total.cpu && total.Of(Ram) == total.ram && total.Of(Storage) == total.storage;
  }
}
