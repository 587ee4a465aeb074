/** Exactly when a row that says RUNNING can name a node without the data. */
module MigrationPromise {
  import opened Migration
  import opened MigrationSafety
  import opened MigrationOutcome

  /** What a customer reads into the row. */
  predicate Promise(w: World)
    requires Inv(w)
  {
    w.record.status == Running ==> Holds(w, Serving(w))
  }

  predicate NoRequests(events: seq<Event>) {
    forall i :: 0 <= i < |events| ==> !events[i].Request?
  }

  /** The waiting job would move the database: its target is another node, without the tenant's role. */
  predicate Movable(w: World, j: nat)
    requires Inv(w)
  {
    && j < |w.jobs| && w.jobs[j].state == Waiting
    && w.jobs[j].target != Serving(w) && !w.nodes[w.jobs[j].target].role
  }

  /** The waiting job could move the database once it has been moved to the node first. */
  predicate MovableAfter(w: World, first: nat, j: nat)
    requires Inv(w)
  {
    && j < |w.jobs| && w.jobs[j].state == Waiting && w.jobs[j].target != first
    && (w.jobs[j].target == Serving(w) || !w.nodes[w.jobs[j].target].role)
  }

  /** What can be checked in the tables and on the nodes between two attempts: a waiting job that would move a
      RUNNING database, or two that would move it one after the other. */
  predicate Breakable(w: World)
    requires Inv(w)
  {
    if w.record.status == Running then exists j :: 0 <= j < |w.jobs| && Movable(w, j)
    else exists i, j :: 0 <= i < |w.jobs| && 0 <= j < |w.jobs|
                        && Movable(w, i) && MovableAfter(w, w.jobs[i].target, j)
  }

  // ------------------------------------------------------------ breaking it

  /** The attempt of a movable job, stopped between DROP DATABASE and the commit. */
  lemma MovableBreaks(w: World, j: nat)
    requires Inv(w) && w.attempt.None? && w.record.status == Running && Movable(w, j)
    ensures Inv(Run(w, Attempted(j, DropAt + 2))) && !Promise(Run(w, Attempted(j, DropAt + 2)))
  {
    AttemptProgresses(w, j, DropAt + 2);
  }

  lemma MovedStaysMovable(w: World, i: nat, j: nat)
    requires Inv(w) && w.attempt.None? && Movable(w, i) && MovableAfter(w, w.jobs[i].target, j)
    ensures
      var moved := Run(w, Attempted(i, End + 1));
      Inv(moved) && moved.attempt.None? && moved.record.status == Running && Movable(moved, j)
  {
    UndisturbedAttemptMoves(w, i);
  }

  /** The first job moves the database and makes the row RUNNING; the second then breaks it. */
  lemma TwoMovablesBreak(w: World, i: nat, j: nat)
    requires Inv(w) && w.attempt.None? && Movable(w, i) && MovableAfter(w, w.jobs[i].target, j)
    ensures
      var events := Attempted(i, End + 1) + Attempted(j, DropAt + 2);
      NoRequests(events) && Inv(Run(w, events)) && !Promise(Run(w, events))
  {
    MovedStaysMovable(w, i, j);
    MovableBreaks(Run(w, Attempted(i, End + 1)), j);
    RunAppend(w, Attempted(i, End + 1), Attempted(j, DropAt + 2));
    RunKeepsInv(w, Attempted(i, End + 1) + Attempted(j, DropAt + 2));
  }

  // ------------------------------------------------------------ keeping it

  /** No open job can move the database any more. */
  predicate Settled(w: World)
    requires Inv(w)
  {
    && (forall j :: 0 <= j < |w.jobs| && w.jobs[j].state == Waiting ==>
          w.jobs[j].target == Serving(w) || Barred(w, w.jobs[j].target))
    && (w.attempt.Some? ==> Barred(w, Target(w)))
  }

  /** The open jobs can move the database to one node only, and until then the row does not say RUNNING. */
  predicate OneWay(w: World, only: nat)
    requires Inv(w)
  {
    && w.record.status != Running && only != Serving(w)
    && (forall j :: 0 <= j < |w.jobs| && w.jobs[j].state == Waiting ==>
          w.jobs[j].target == only || Barred(w, w.jobs[j].target))
    && (w.attempt.Some? ==> Target(w) == only || Barred(w, Target(w)))
  }

  lemma SettledKeepsPromise(w: World)
    requires Inv(w) && Settled(w)
    ensures Promise(w)
  {
  }

  lemma BarredStay(w: World, e: Event)
    requires Inv(w)
    ensures forall n | Barred(w, n) :: Barred(After(w, e), n)
  {
    forall n | Barred(w, n) {
      NextKeepsBarred(w, e, n);
    }
  }

  lemma TenantKeepsRows(w: World, e: Event)
    requires Inv(w) && (e.Connect? || e.Write? || e.Disconnect?)
    ensures
      var after := After(w, e);
      after.jobs == w.jobs && after.record == w.record && Serving(after) == Serving(w) && after.attempt == w.attempt
  {
  }

  /** An interruption before the cutover is committed leaves the row's cluster, and makes its job wait or give up. */
  lemma InterruptBeforeCutover(w: World)
    requires Inv(w) && w.attempt.Some? && w.attempt.value.pc <= CutoverAt
    ensures
      var after := Interrupted(w);
      && Inv(after) && after.attempt.None? && Serving(after) == Serving(w)
      && (w.record.status != Running ==> after.record.status != Running)
      && |after.jobs| == |w.jobs|
      && (forall j :: 0 <= j < |w.jobs| ==> after.jobs[j].target == w.jobs[j].target)
      && (forall j :: 0 <= j < |w.jobs| && after.jobs[j].state == Waiting ==>
            w.jobs[j].state == Waiting || j == w.attempt.value.job)
  {
    InterruptKeepsInv(w);
  }

  /** The events after which the same jobs are open, with the same targets, and the same node serves. */
  predicate SameOutlook(w: World, after: World)
    requires Inv(w) && Inv(after)
  {
    && Serving(after) == Serving(w)
    && (w.record.status != Running ==> after.record.status != Running)
    && |after.jobs| == |w.jobs|
    && (forall j :: 0 <= j < |w.jobs| ==> after.jobs[j].target == w.jobs[j].target)
    && (forall j :: 0 <= j < |w.jobs| && after.jobs[j].state == Waiting ==>
          w.jobs[j].state == Waiting || (w.attempt.Some? && j == w.attempt.value.job))
    && (after.attempt.Some? ==>
          if w.attempt.Some? then after.attempt.value.job == w.attempt.value.job
          else w.jobs[after.attempt.value.job].state == Waiting)
  }

  /** The worker stands after the cutover, where its next commit changes the serving node. */
  predicate Committing(w: World) {
    w.attempt.Some? && w.attempt.value.pc > CutoverAt
  }

  lemma WorkerOutlook(w: World, e: Event)
    requires Inv(w) && !Committing(w) && Enabled(w, e) && (e.Step? || e.Break?)
    ensures SameOutlook(w, After(w, e))
  {
    if e.Break? {
      TornKeepsInv(w, e.partial);
      InterruptBeforeCutover(w);
      assert Interrupted(Torn(w, e.partial)).jobs == Interrupted(w).jobs;
      assert Interrupted(Torn(w, e.partial)).record == Interrupted(w).record;
      assert Interrupted(Torn(w, e.partial)).clusters == Interrupted(w).clusters;
    } else {
      AdvanceKeepsInv(w);
      if Refused(w) {
        InterruptBeforeCutover(w);
      } else {
        AdvanceTouchesNoRow(w);
        assert After(w, e) == Advance(w).w;
        AdvanceKeepsJob(w);
      }
    }
  }

  lemma AdvanceKeepsJob(w: World)
    requires Inv(w) && w.attempt.Some? && w.attempt.value.pc < End && Advance(w).Continues?
    ensures Advance(w).w.attempt.Some? && Advance(w).w.attempt.value.job == w.attempt.value.job
  {
  }

  lemma ClaimOutlook(w: World, j: nat)
    requires Inv(w) && Enabled(w, Claim(j))
    ensures SameOutlook(w, After(w, Claim(j)))
  {
  }

  lemma Outlook(w: World, e: Event)
    requires Inv(w) && !Committing(w) && !e.Request?
    ensures SameOutlook(w, After(w, e))
  {
    if Enabled(w, e) {
      match e {
        case Claim(j) => ClaimOutlook(w, j);
        case Step => WorkerOutlook(w, e);
        case Break(_) => WorkerOutlook(w, e);
        case _ => TenantOutlook(w, e);
      }
    }
  }

  lemma SettledStays(w: World, e: Event)
    requires Inv(w) && Settled(w) && !e.Request?
    ensures Settled(After(w, e))
  {
    Outlook(w, e);
    BarredStay(w, e);
  }

  /** The commit after a cutover: the target serves, and only the attempt's own job may wait again. */
  predicate Committed(w: World, after: World)
    requires Inv(w) && Inv(after) && w.attempt.Some?
  {
    && Serving(after) == Target(w) && after.attempt.None?
    && |after.jobs| == |w.jobs|
    && (forall j :: 0 <= j < |w.jobs| ==> after.jobs[j].target == w.jobs[j].target)
    && (forall j :: 0 <= j < |w.jobs| && after.jobs[j].state == Waiting ==>
          w.jobs[j].state == Waiting || j == w.attempt.value.job)
  }

  lemma BreakCommits(w: World, partial: seq<nat>)
    requires Inv(w) && Committing(w) && Enabled(w, Break(partial))
    ensures Committed(w, After(w, Break(partial)))
  {
    assert Torn(w, partial) == w;
    InterruptKeepsInv(w);
  }

  lemma FinishCommits(w: World)
    requires Inv(w) && Committing(w) && w.attempt.value.pc == End
    ensures Committed(w, After(w, Step))
  {
    FinishKeepsInv(w);
  }

  lemma LateStepOutlook(w: World)
    requires Inv(w) && Committing(w) && w.attempt.value.pc < End
    ensures SameOutlook(w, After(w, Step))
  {
    AdvanceKeepsInv(w);
    AdvanceTouchesNoRow(w);
    AdvanceKeepsJob(w);
    assert After(w, Step) == Advance(w).w;
  }

  lemma CommitStaysOrSettles(w: World, e: Event, only: nat)
    requires Inv(w) && OneWay(w, only) && Committing(w) && Enabled(w, e)
    requires e.Break? || (e.Step? && w.attempt.value.pc == End)
    ensures OneWay(After(w, e), only) || Settled(After(w, e))
  {
    BarredStay(w, e);
    if e.Break? {
      BreakCommits(w, e.partial);
    } else {
      FinishCommits(w);
    }
  }

  lemma SameOutlookStays(w: World, e: Event, only: nat)
    requires Inv(w) && OneWay(w, only) && SameOutlook(w, After(w, e))
    ensures OneWay(After(w, e), only)
  {
    BarredStay(w, e);
  }

  lemma TenantOutlook(w: World, e: Event)
    requires Inv(w) && (e.Connect? || e.Write? || e.Disconnect?)
    ensures SameOutlook(w, After(w, e))
  {
    TenantKeepsRows(w, e);
  }

  lemma OneWayStays(w: World, e: Event, only: nat)
    requires Inv(w) && OneWay(w, only) && !e.Request?
    ensures OneWay(After(w, e), only) || Settled(After(w, e))
  {
    if Committing(w) && Enabled(w, e) && (e.Break? || (e.Step? && w.attempt.value.pc == End)) {
      CommitStaysOrSettles(w, e, only);
    } else {
      if !Committing(w) {
        Outlook(w, e);
      } else if e.Step? {
        LateStepOutlook(w);
      } else if e.Connect? || e.Write? || e.Disconnect? {
        TenantOutlook(w, e);
      }
      SameOutlookStays(w, e, only);
    }
  }

  lemma {:induction false} SettledForEver(w: World, events: seq<Event>)
    requires Inv(w) && Settled(w) && NoRequests(events)
    ensures Inv(Run(w, events)) && Promise(Run(w, events))
    decreases |events|
  {
    if events == [] {
      SettledKeepsPromise(w);
    } else {
      SettledStays(w, events[0]);
      SettledForEver(After(w, events[0]), events[1..]);
    }
  }

  lemma {:induction false} OneWayForEver(w: World, events: seq<Event>, only: nat)
    requires Inv(w) && OneWay(w, only) && NoRequests(events)
    ensures Inv(Run(w, events)) && Promise(Run(w, events))
    decreases |events|
  {
    if events == [] {
    } else {
      OneWayStays(w, events[0], only);
      if Settled(After(w, events[0])) {
        SettledForEver(After(w, events[0]), events[1..]);
      } else {
        OneWayForEver(After(w, events[0]), events[1..], only);
      }
    }
  }

  lemma UnbreakableKeepsPromise(w: World, events: seq<Event>)
    requires Inv(w) && w.attempt.None? && !Breakable(w) && NoRequests(events)
    ensures Inv(Run(w, events)) && Promise(Run(w, events))
  {
    if i :| 0 <= i < |w.jobs| && Movable(w, i) {
      forall j | 0 <= j < |w.jobs| && w.jobs[j].state == Waiting
        ensures w.jobs[j].target == w.jobs[i].target || Barred(w, w.jobs[j].target)
      {
        assert !MovableAfter(w, w.jobs[i].target, j);
      }
      OneWayForEver(w, events, w.jobs[i].target);
    } else {
      forall j | 0 <= j < |w.jobs| && w.jobs[j].state == Waiting
        ensures w.jobs[j].target == Serving(w) || Barred(w, w.jobs[j].target)
      {
        assert !Movable(w, j);
      }
      SettledForEver(w, events);
    }
  }

  /** Between attempts, some run without further requests makes RUNNING name a node without the data if and only
      if a waiting job would move a RUNNING database to a node without the tenant's role, or two waiting jobs
      would move it one after the other. */
  lemma RunningMisleadsIff(w: World)
    requires Inv(w) && w.attempt.None?
    ensures
      (exists events :: NoRequests(events) && Inv(Run(w, events)) && !Promise(Run(w, events))) <==> Breakable(w)
  {
    if Breakable(w) {
      if w.record.status == Running {
        var j :| 0 <= j < |w.jobs| && Movable(w, j);
        MovableBreaks(w, j);
        assert NoRequests(Attempted(j, DropAt + 2));
      } else {
        var i, j :| 0 <= i < |w.jobs| && 0 <= j < |w.jobs| && Movable(w, i) && MovableAfter(w, w.jobs[i].target, j);
        TwoMovablesBreak(w, i, j);
      }
    } else {
      forall events | NoRequests(events) ensures Inv(Run(w, events)) && Promise(Run(w, events)) {
        UnbreakableKeepsPromise(w, events);
      }
    }
  }
}
