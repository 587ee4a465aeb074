/** What every run of a migration keeps, whatever fails and however often it is retried. */
module MigrationSafety {
  import opened Wrappers
  import opened Clusters
  import opened Migration

  // ------------------------------------------------------------ every event keeps the invariant

  function Target(w: World): nat
    requires WellFormed(w) && w.attempt.Some?
  {
    w.jobs[w.attempt.value.job].target
  }

  /** The one statement that can be refused is CREATE ROLE, on a node that already has the role. */
  predicate Refused(w: World)
    requires WellFormed(w) && w.attempt.Some?
  {
    w.attempt.value.pc == RestoreAt && w.nodes[Target(w)].role
  }

  lemma SourceAdvance(w: World)
    requires Inv(w) && w.attempt.Some? && w.attempt.value.pc < RestoreAt
    ensures Advance(w).Continues? && Inv(Advance(w).w)
  {
  }

  lemma RoleAdvance(w: World)
    requires Inv(w) && w.attempt.Some? && w.attempt.value.pc == RestoreAt
    ensures Refused(w) ==> Advance(w) == Raises(w)
    ensures !Refused(w) ==> Advance(w).Continues? && Inv(Advance(w).w)
  {
  }

  lemma LoadAdvance(w: World)
    requires Inv(w) && w.attempt.Some? && RestoreAt < w.attempt.value.pc < CutoverAt
    ensures Advance(w).Continues? && Inv(Advance(w).w)
  {
    assert [] + w.attempt.value.dump == w.attempt.value.dump;
  }

  lemma CutoverAdvance(w: World)
    requires Inv(w) && w.attempt.Some? && w.attempt.value.pc == CutoverAt
    ensures Advance(w).Continues? && Inv(Advance(w).w)
  {
  }

  lemma DropAdvance(w: World)
    requires Inv(w) && w.attempt.Some? && CutoverAt < w.attempt.value.pc < End
    ensures Advance(w).Continues? && Inv(Advance(w).w)
  {
    var a := w.attempt.value;
    assert a.source != Target(w);
    assert w.nodes[a.source].db.None? || w.nodes[a.source].role;
  }

  lemma AdvanceKeepsInv(w: World)
    requires Inv(w) && w.attempt.Some? && w.attempt.value.pc < End
    ensures Refused(w) ==> Advance(w) == Raises(w)
    ensures !Refused(w) ==> Advance(w).Continues? && Inv(Advance(w).w)
  {
    if w.attempt.value.pc < RestoreAt {
      SourceAdvance(w);
    } else if w.attempt.value.pc == RestoreAt {
      RoleAdvance(w);
    } else if w.attempt.value.pc < CutoverAt {
      LoadAdvance(w);
    } else if w.attempt.value.pc == CutoverAt {
      CutoverAdvance(w);
    } else {
      DropAdvance(w);
    }
  }

  lemma InterruptKeepsInv(w: World)
    requires Inv(w) && w.attempt.Some?
    ensures Inv(Interrupted(w))
  {
  }

  lemma TornKeepsInv(w: World, partial: seq<nat>)
    requires Inv(w) && w.attempt.Some?
    ensures Inv(Interrupted(Torn(w, partial)))
  {
    InterruptKeepsInv(w);
  }

  lemma FinishKeepsInv(w: World)
    requires Inv(w) && w.attempt.Some? && w.attempt.value.pc == End
    ensures Inv(Finished(w)) && Serving(Finished(w)) == Target(w)
  {
  }

  lemma WriteKeepsInv(w: World, node: nat, value: nat)
    requires Inv(w)
    ensures Inv(Next(w, Write(node, value)))
  {
  }

  lemma SessionKeepsInv(w: World, e: Event)
    requires Inv(w) && (e.Connect? || e.Disconnect?)
    ensures Inv(Next(w, e))
  {
  }

  lemma RequestOrClaimKeepsInv(w: World, e: Event)
    requires Inv(w) && (e.Request? || e.Claim?)
    ensures Inv(Next(w, e))
  {
  }

  lemma NextKeepsInv(w: World, e: Event)
    requires Inv(w)
    ensures Inv(Next(w, e))
  {
    if e.Step? && Enabled(w, e) {
      if w.attempt.value.pc == End {
        FinishKeepsInv(w);
      } else {
        AdvanceKeepsInv(w);
        InterruptKeepsInv(w);
      }
    } else if e.Break? && Enabled(w, e) {
      TornKeepsInv(w, e.partial);
    } else if e.Request? || e.Claim? {
      RequestOrClaimKeepsInv(w, e);
    } else if e.Write? {
      WriteKeepsInv(w, e.node, e.value);
    } else if e.Connect? || e.Disconnect? {
      SessionKeepsInv(w, e);
    }
  }

  function After(w: World, e: Event): (after: World)
    requires Inv(w)
    ensures Inv(after)
  {
    NextKeepsInv(w, e);
    Next(w, e)
  }

  function Run(w: World, events: seq<Event>): World
    requires Inv(w)
    decreases |events|
  {
    if events == [] then w else Run(After(w, events[0]), events[1..])
  }

  lemma {:induction false} RunKeepsInv(w: World, events: seq<Event>)
    requires Inv(w)
    ensures Inv(Run(w, events))
    decreases |events|
  {
    if events == [] {
    } else {
      RunKeepsInv(After(w, events[0]), events[1..]);
    }
  }

  lemma {:induction false} RunAppend(w: World, xs: seq<Event>, ys: seq<Event>)
    requires Inv(w)
    ensures Inv(Run(w, xs)) && Run(w, xs + ys) == Run(Run(w, xs), ys)
    decreases |xs|
  {
    if xs == [] {
      assert xs + ys == ys;
    } else {
      assert (xs + ys)[1..] == xs[1..] + ys;
      RunAppend(After(w, xs[0]), xs[1..], ys);
    }
  }

  /** A database just provisioned on one of count nodes, in the given cluster row. */
  function Provisioned(count: nat, cluster: Cluster, shared: bool, data: seq<nat>): World {
    var nodes := seq(count, n =>
      if n == cluster.node then Pg(true, Some(Db(data, true, true, false))) else Pg(false, None));
    World(nodes, [cluster], shared, Record(0, Running), [], None, data)
  }

  lemma ProvisionedIsSafe(count: nat, cluster: Cluster, shared: bool, data: seq<nat>)
    requires cluster.node < count
    ensures Inv(Provisioned(count, cluster, shared, data)) && OneJob(Provisioned(count, cluster, shared, data))
  {
  }

  // ------------------------------------------------------------ the data survives

  /** The node whose host the tenant will be given once the worker commits. */
  function NextServing(w: World): nat
    requires Inv(w)
  {
    if w.attempt.Some? then w.clusters[w.attempt.value.working.cluster].node else Serving(w)
  }

  /** The source's database is dropped but the new row is not committed yet. */
  predicate InWindow(w: World) {
    w.attempt.Some? && w.attempt.value.pc >= DropAt + 2
  }

  /** In every reachable state the node the worker is about to commit holds every acknowledged write; the node
      of the committed row does too, except exactly between DROP DATABASE and the commit. */
  lemma DataIsNeverLost(w: World, events: seq<Event>)
    requires Inv(w)
    ensures
      var after := Run(w, events);
      && Inv(after) && Holds(after, NextServing(after))
      && (Holds(after, Serving(after)) <==> !InWindow(after))
  {
    RunKeepsInv(w, events);
  }

  /** The branch that skips the restore because the database exists is never taken. */
  lemma RestoreIsNeverSkipped(w: World, events: seq<Event>)
    requires Inv(w)
    ensures
      var after := Run(w, events);
      && Inv(after)
      && (after.attempt.Some? && after.attempt.value.pc == RestoreAt + 1 ==>
            Exec(after.nodes[Target(after)], CreateDb).Done?)
  {
    RunKeepsInv(w, events);
  }

  // ------------------------------------------------------------ what RUNNING promises

  predicate Open(job: Job) {
    job.state == Waiting || job.state == InProgress
  }

  /** At most one open job, and either the row says MIGRATING or that job has nothing left to move. */
  predicate OneJob(w: World)
    requires Inv(w)
  {
    && (forall i, j :: 0 <= i < j < |w.jobs| ==> !(Open(w.jobs[i]) && Open(w.jobs[j])))
    && (forall j :: 0 <= j < |w.jobs| && Open(w.jobs[j]) ==>
          w.record.status == Migrating || w.jobs[j].target == Serving(w))
  }

  /** No migration is requested while an earlier one is still open. */
  predicate OneAtATime(w: World, events: seq<Event>)
    requires Inv(w)
    decreases |events|
  {
    events == [] ||
    (&& (events[0].Request? ==> forall j :: 0 <= j < |w.jobs| ==> !Open(w.jobs[j]))
     && OneAtATime(After(w, events[0]), events[1..]))
  }

  lemma AdvanceTouchesNoRow(w: World)
    requires Inv(w) && w.attempt.Some? && w.attempt.value.pc < End
    ensures Advance(w).w.record == w.record && Advance(w).w.jobs == w.jobs && Serving(w) == Serving(Advance(w).w)
    ensures WellFormed(Advance(w).w)
  {
    AdvanceKeepsInv(w);
  }

  lemma ClaimKeepsOneJob(w: World, j: nat)
    requires Inv(w) && OneJob(w) && w.attempt.None? && j < |w.jobs| && w.jobs[j].state == Waiting
    requires Inv(Claimed(w, j))
    ensures OneJob(Claimed(w, j))
  {
  }

  lemma InterruptKeepsOneJob(w: World)
    requires Inv(w) && OneJob(w) && w.attempt.Some? && Inv(Interrupted(w))
    ensures OneJob(Interrupted(w))
  {
  }

  lemma FinishKeepsOneJob(w: World)
    requires Inv(w) && OneJob(w) && w.attempt.Some? && Inv(Finished(w))
    ensures OneJob(Finished(w))
  {
  }

  lemma StepKeepsOneJob(w: World)
    requires Inv(w) && OneJob(w) && w.attempt.Some? && Inv(Next(w, Step))
    ensures OneJob(Next(w, Step))
  {
    if w.attempt.value.pc == End {
      FinishKeepsOneJob(w);
    } else {
      AdvanceKeepsInv(w);
      AdvanceTouchesNoRow(w);
      if Refused(w) {
        InterruptKeepsOneJob(w);
      }
    }
  }

  lemma BreakKeepsOneJob(w: World, partial: seq<nat>)
    requires Inv(w) && OneJob(w) && w.attempt.Some? && Inv(Interrupted(Torn(w, partial)))
    ensures OneJob(Interrupted(Torn(w, partial)))
  {
    InterruptKeepsInv(w);
    InterruptKeepsOneJob(w);
    assert Interrupted(Torn(w, partial)).jobs == Interrupted(w).jobs;
    assert Interrupted(Torn(w, partial)).record == Interrupted(w).record;
    assert Interrupted(Torn(w, partial)).clusters == Interrupted(w).clusters;
  }

  lemma NextKeepsOneJob(w: World, e: Event)
    requires Inv(w) && OneJob(w) && Inv(Next(w, e))
    requires e.Request? ==> forall j :: 0 <= j < |w.jobs| ==> !Open(w.jobs[j])
    ensures OneJob(Next(w, e))
  {
    if Enabled(w, e) {
      match e {
        case Step => StepKeepsOneJob(w);
        case Break(partial) => BreakKeepsOneJob(w, partial);
        case Claim(j) => ClaimKeepsOneJob(w, j);
        case _ =>
      }
    }
  }

  /** With one migration at a time, a row that says RUNNING names a node that holds every write. */
  lemma {:induction false} RunningHoldsTheData(w: World, events: seq<Event>)
    requires Inv(w) && OneJob(w) && OneAtATime(w, events)
    ensures
      var after := Run(w, events);
      Inv(after) && (after.record.status == Running ==> Holds(after, Serving(after)))
    decreases |events|
  {
    if events == [] {
    } else {
      NextKeepsOneJob(w, events[0]);
      RunningHoldsTheData(After(w, events[0]), events[1..]);
    }
  }
}
