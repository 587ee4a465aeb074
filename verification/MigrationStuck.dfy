/** When a database can be left MIGRATING with no job to go on with it. */
module MigrationStuck {
  import opened Clusters
  import opened Migration
  import opened MigrationSafety
  import opened MigrationOutcome

  // ------------------------------------------------------------ one migration at a time

  /** A MIGRATING row has an open job for another node, and while an attempt runs the row is as it was loaded. */
  predicate Moving(w: World)
    requires Inv(w)
  {
    && (w.record.status == Migrating ==>
          exists j :: 0 <= j < |w.jobs| && Open(w.jobs[j]) && w.jobs[j].target != Serving(w))
    && (w.attempt.Some? ==> w.attempt.value.loaded == w.record && w.record.status == Migrating)
  }

  lemma RequestKeepsMoving(w: World, target: nat)
    requires Inv(w) && OneJob(w) && Moving(w) && forall j :: 0 <= j < |w.jobs| ==> !Open(w.jobs[j])
    ensures Moving(After(w, Request(target)))
  {
    var after := After(w, Request(target));
    if Enabled(w, Request(target)) {
      assert after.jobs[|w.jobs|] == Job(target, 0, Waiting);
      assert Serving(after) == Serving(w);
    }
  }

  lemma ClaimKeepsMoving(w: World, j: nat)
    requires Inv(w) && OneJob(w) && Moving(w) && Enabled(w, Claim(j))
    ensures Moving(After(w, Claim(j)))
  {
    var after := After(w, Claim(j));
    assert Open(w.jobs[j]) && Serving(after) == Serving(w);
    if w.jobs[j].target != Serving(w) {
      assert Open(after.jobs[j]);
    }
  }

  lemma InterruptKeepsMoving(w: World)
    requires Inv(w) && Moving(w) && w.attempt.Some? && Inv(Interrupted(w))
    ensures Moving(Interrupted(w))
  {
    var after, j := Interrupted(w), w.attempt.value.job;
    if after.record.status == Migrating {
      assert Serving(after) == Serving(w) && Open(after.jobs[j]);
    }
  }

  lemma BreakKeepsMoving(w: World, partial: seq<nat>)
    requires Inv(w) && Moving(w) && Enabled(w, Break(partial))
    ensures Moving(After(w, Break(partial)))
  {
    TornKeepsInv(w, partial);
    InterruptKeepsInv(w);
    InterruptKeepsMoving(w);
    assert Interrupted(Torn(w, partial)).jobs == Interrupted(w).jobs;
    assert Interrupted(Torn(w, partial)).record == Interrupted(w).record;
    assert Interrupted(Torn(w, partial)).clusters == Interrupted(w).clusters;
  }

  lemma AdvanceKeepsLoaded(w: World)
    requires Inv(w) && w.attempt.Some? && w.attempt.value.pc < End && Advance(w).Continues?
    ensures Advance(w).w.attempt.Some? && Advance(w).w.attempt.value.loaded == w.attempt.value.loaded
  {
  }

  lemma StepKeepsMoving(w: World)
    requires Inv(w) && Moving(w) && w.attempt.Some?
    ensures Moving(After(w, Step))
  {
    if w.attempt.value.pc == End {
      FinishKeepsInv(w);
    } else {
      AdvanceKeepsInv(w);
      if Refused(w) {
        InterruptKeepsInv(w);
        InterruptKeepsMoving(w);
      } else {
        AdvanceTouchesNoRow(w);
        AdvanceKeepsLoaded(w);
      }
    }
  }

  lemma NextKeepsMoving(w: World, e: Event)
    requires Inv(w) && OneJob(w) && Moving(w)
    requires e.Request? ==> forall j :: 0 <= j < |w.jobs| ==> !Open(w.jobs[j])
    ensures Moving(After(w, e))
  {
    if Enabled(w, e) {
      match e {
        case Request(target) => RequestKeepsMoving(w, target);
        case Claim(j) => ClaimKeepsMoving(w, j);
        case Step => StepKeepsMoving(w);
        case Break(partial) => BreakKeepsMoving(w, partial);
        case _ => TenantKeepsMoving(w, e);
      }
    }
  }

  lemma TenantKeepsMoving(w: World, e: Event)
    requires Inv(w) && Moving(w) && (e.Connect? || e.Write? || e.Disconnect?)
    ensures Moving(After(w, e))
  {
    var after := After(w, e);
    assert after.jobs == w.jobs && after.record == w.record && after.clusters == w.clusters;
    assert after.attempt == w.attempt;
  }

  /** With one migration at a time a database that is MIGRATING always has an open job that is to move it. */
  lemma {:induction false} MigratingHasAJob(w: World, events: seq<Event>)
    requires Inv(w) && OneJob(w) && Moving(w) && OneAtATime(w, events)
    ensures Inv(Run(w, events)) && Moving(Run(w, events))
    decreases |events|
  {
    if events == [] {
    } else {
      NextKeepsOneJob(w, events[0]);
      NextKeepsMoving(w, events[0]);
      MigratingHasAJob(After(w, events[0]), events[1..]);
    }
  }

  // ------------------------------------------------------------ a request during the commit of another job

  /** MIGRATING, and no job is open. */
  predicate Stuck(w: World)
    requires Inv(w)
  {
    w.record.status == Migrating && w.attempt.None? && forall j :: 0 <= j < |w.jobs| ==> !Open(w.jobs[j])
  }

  /** No request is accepted and no job can be claimed any more. */
  lemma {:induction false} StuckForEver(w: World, events: seq<Event>)
    requires Inv(w) && Stuck(w)
    ensures Inv(Run(w, events)) && Stuck(Run(w, events))
    decreases |events|
  {
    if events == [] {
    } else {
      var e := events[0];
      if e.Connect? || e.Write? || e.Disconnect? {
        TenantKeepsStuck(w, e);
      } else {
        assert !Enabled(w, e);
      }
      StuckForEver(After(w, e), events[1..]);
    }
  }

  lemma TenantKeepsStuck(w: World, e: Event)
    requires Inv(w) && Stuck(w) && (e.Connect? || e.Write? || e.Disconnect?)
    ensures Stuck(After(w, e))
  {
    var after := After(w, e);
    assert after.jobs == w.jobs && after.record == w.record && after.attempt == w.attempt;
  }

  /** Job 0, open since before the database moved on, moves it once more under a row that says RUNNING; before
      that attempt is committed the next migration is requested, to the very node that job 0 moves it to. */
  const LateRequest: seq<Event> := Attempted(0, End) + [Request(1), Step, Claim(2)]

  lemma RequestDuringAttempt(w: World, target: nat)
    requires Inv(w) && Enabled(w, Request(target))
    ensures
      var after := After(w, Request(target));
      && after.record == w.record.(status := Migrating) && after.jobs == w.jobs + [Job(target, 0, Waiting)]
      && after.attempt == w.attempt && after.clusters == w.clusters
  {
  }

  /** The attempt had loaded RUNNING, so its commit leaves MIGRATING in place. */
  lemma FinishLeavesMigrating(w: World)
    requires Inv(w) && w.attempt.Some? && w.attempt.value.pc == End && w.record.status == Migrating
    requires w.attempt.value.loaded.status == Running
    ensures
      var after := After(w, Step);
      && after.record.status == Migrating && after.attempt.None? && Serving(after) == Target(w)
      && after.jobs == w.jobs[w.attempt.value.job := w.jobs[w.attempt.value.job].(state := Succeeded)]
  {
    FinishKeepsInv(w);
  }

  lemma FinishedProgress(w: World, j: nat)
    requires Claimable(w, j) && w.record.status == Running
    ensures
      var after := Progress(w, j, End);
      && after.record == w.record && Serving(after) == Serving(w) && |after.nodes| == |w.nodes|
      && after.jobs == w.jobs[j := Job(w.jobs[j].target, w.jobs[j].attempts + 1, InProgress)]
      && after.attempt.value.loaded.status == Running && after.attempt.value.pc == End && after.attempt.value.job == j
  {
  }

  lemma CommitAfterRequest(w: World)
    requires AfterSecondJob(w) && Inv(Progress(w, 0, End))
    ensures
      var after := After(After(Progress(w, 0, End), Request(1)), Step);
      && after.record.status == Migrating && after.attempt.None? && Serving(after) == 1
      && after.jobs == [Job(1, 2, Succeeded), Job(2, 1, Succeeded), Job(1, 0, Waiting)]
  {
    FinishedProgress(w, 0);
    RequestDuringAttempt(Progress(w, 0, End), 1);
    FinishLeavesMigrating(After(Progress(w, 0, End), Request(1)));
  }

  lemma RunTwoMore(w: World, events: seq<Event>, e: Event, f: Event)
    requires Inv(w)
    ensures Inv(Run(w, events)) && Run(w, events + [e, f]) == After(After(Run(w, events), e), f)
  {
    RunOneMore(w, events, e);
    RunOneMore(w, events + [e], f);
    assert events + [e] + [f] == events + [e, f];
  }

  /** The new job finds the database where it should bring it, and changes nothing. */
  lemma NothingToMove(w: World)
    requires Inv(w) && w.record.status == Migrating && w.attempt.None? && Serving(w) == 1
    requires w.jobs == [Job(1, 2, Succeeded), Job(2, 1, Succeeded), Job(1, 0, Waiting)]
    ensures Stuck(After(w, Claim(2)))
  {
    assert After(w, Claim(2)).jobs == [Job(1, 2, Succeeded), Job(2, 1, Succeeded), Job(1, 1, Succeeded)];
  }

  lemma LateRun(w: World, done: World)
    requires AfterSecondJob(w) && Inv(done) && done == Progress(w, 0, End)
    ensures Inv(Run(w, LateRequest))
    ensures Run(w, LateRequest) == After(After(After(done, Request(1)), Step), Claim(2))
  {
    var first := Attempted(0, End);
    AttemptProgresses(w, 0, End);
    RunTwoMore(w, first, Request(1), Step);
    RunOneMore(w, first + [Request(1), Step], Claim(2));
    assert LateRequest == first + [Request(1), Step] + [Claim(2)];
  }

  lemma LateRequestSticks(w: World)
    requires AfterSecondJob(w)
    ensures Inv(Run(w, LateRequest)) && Stuck(Run(w, LateRequest))
  {
    AttemptProgresses(w, 0, End);
    LateRun(w, Progress(w, 0, End));
    CommitAfterRequest(w);
    NothingToMove(After(After(Progress(w, 0, End), Request(1)), Step));
  }

  /** From a database just provisioned: MIGRATING for ever, whatever happens afterwards. */
  lemma MigratingForEver(data: seq<nat>, later: seq<Event>)
    ensures
      var start := Provisioned(3, Cluster(0, true), true, data);
      && Inv(start) && OneJob(start) && Moving(start)
      && Inv(Run(start, FirstJob + SecondJob + LateRequest + later))
      && Stuck(Run(start, FirstJob + SecondJob + LateRequest + later))
  {
    var w := Provisioned(3, Cluster(0, true), true, data);
    ProvisionedIsSafe(3, Cluster(0, true), true, data);
    var before := FirstJob + SecondJob;
    TwoJobsDone(w);
    LateRequestSticks(Run(w, before));
    RunAppend(w, before, LateRequest);
    StuckForEver(Run(w, before + LateRequest), later);
    RunAppend(w, before + LateRequest, later);
  }
}
