/** Where attempts end: the undisturbed one, the barred node, and the run in which RUNNING is not to be trusted. */
module MigrationOutcome {
  import opened Wrappers
  import opened Clusters
  import opened Migration
  import opened MigrationSafety

  // ------------------------------------------------------------ an undisturbed attempt

  function Steps(k: nat): seq<Event> {
    seq(k, _ => Step)
  }

  predicate Claimable(w: World, j: nat) {
    && Inv(w) && w.attempt.None? && j < |w.jobs| && w.jobs[j].state == Waiting
    && w.jobs[j].target != Serving(w)
  }

  /** The source after pc instructions of the attempt. */
  function SourceAfter(pg: Pg, pc: nat): Pg {
    if pg.db.None? then pg
    else
      var db := pg.db.value;
      var quiesced :=
        Db(db.data, db.tenantOwns && pc < 1, db.publicConnect && pc < 2, db.session && pc < 3);
      Pg(pg.role && pc < 11, if pc < 10 then Some(quiesced) else None)
  }

  function TargetAfter(pg: Pg, pc: nat, data: seq<nat>): Pg {
    if pc < 5 then pg
    else if pc < 6 then Pg(true, None)
    else Pg(true, Some(Db(if pc < 7 then [] else data, true, true, false)))
  }

  /** The world pc instructions into an attempt that nothing disturbs. */
  function Progress(w: World, j: nat, pc: nat): World
    requires Claimable(w, j) && pc <= End
  {
    var start := Claimed(w, j);
    var a := start.attempt.value;
    var target := w.jobs[j].target;
    var nodes := start.nodes[a.source := SourceAfter(w.nodes[a.source], pc)]
                            [target := TargetAfter(w.nodes[target], pc, w.written)];
    var dump := if pc < 4 then [] else w.written;
    if pc <= CutoverAt then start.(nodes := nodes, attempt := Some(a.(pc := pc, dump := dump)))
    else
      var cut := CutOver(start, target);
      cut.(nodes := nodes, attempt := Some(cut.attempt.value.(pc := pc, dump := dump)))
  }

  lemma ProgressStarts(w: World, j: nat)
    requires Claimable(w, j)
    ensures Progress(w, j, 0) == Claimed(w, j)
  {
    var source := Serving(w);
    var db := w.nodes[source].db.value;
    assert SourceAfter(w.nodes[source], 0) == w.nodes[source];
    assert w.nodes[source := w.nodes[source]] == w.nodes;
    assert w.nodes[w.jobs[j].target := w.nodes[w.jobs[j].target]] == w.nodes;
  }

  lemma QuiesceStatement(pg: Pg, pc: nat)
    requires pg.db.Some? && pg.role && pc < DumpAt
    ensures Exec(SourceAfter(pg, pc), QuiesceScript[pc]) == Done(SourceAfter(pg, pc + 1))
  {
  }

  lemma RestoreStatement(pg: Pg, pc: nat, data: seq<nat>)
    requires pg.db.None? && !pg.role && RestoreAt <= pc < CutoverAt
    ensures Exec(TargetAfter(pg, pc, data), RestoreScript(data)[pc - RestoreAt]) == Done(TargetAfter(pg, pc + 1, data))
  {
    assert [] + data == data;
  }

  lemma ProgressToRestore(w: World, j: nat, pc: nat)
    requires Claimable(w, j) && pc < RestoreAt
    requires Inv(Progress(w, j, pc))
    ensures Advance(Progress(w, j, pc)) == Continues(Progress(w, j, pc + 1))
  {
    if pc < DumpAt {
      QuiesceStatement(w.nodes[Serving(w)], pc);
    }
    var got := Advance(Progress(w, j, pc));
    assert got.w.nodes == Progress(w, j, pc + 1).nodes;
  }

  lemma ProgressToCutover(w: World, j: nat, pc: nat)
    requires Claimable(w, j) && RestoreAt <= pc < CutoverAt && !w.nodes[w.jobs[j].target].role
    requires Inv(Progress(w, j, pc))
    ensures Advance(Progress(w, j, pc)) == Continues(Progress(w, j, pc + 1))
  {
    RestoreStatement(w.nodes[w.jobs[j].target], pc, w.written);
    assert SourceAfter(w.nodes[Serving(w)], pc) == SourceAfter(w.nodes[Serving(w)], pc + 1);
    var got := Advance(Progress(w, j, pc));
    assert got.w.nodes == Progress(w, j, pc + 1).nodes;
  }

  lemma DropStatement(pg: Pg, pc: nat)
    requires pg.db.Some? && pg.role && DropAt <= pc < CleanupAt
    ensures Exec(SourceAfter(pg, pc), DropScript[pc - DropAt]) == Done(SourceAfter(pg, pc + 1))
  {
  }

  lemma ProgressAtCutover(w: World, j: nat)
    requires Claimable(w, j) && Inv(Progress(w, j, CutoverAt))
    ensures Advance(Progress(w, j, CutoverAt)) == Continues(Progress(w, j, DropAt))
  {
    assert SourceAfter(w.nodes[Serving(w)], CutoverAt) == SourceAfter(w.nodes[Serving(w)], DropAt);
    assert TargetAfter(w.nodes[w.jobs[j].target], CutoverAt, w.written) ==
           TargetAfter(w.nodes[w.jobs[j].target], DropAt, w.written);
  }

  lemma ProgressToCleanup(w: World, j: nat, pc: nat)
    requires Claimable(w, j) && DropAt <= pc < CleanupAt && Inv(Progress(w, j, pc))
    ensures Advance(Progress(w, j, pc)) == Continues(Progress(w, j, pc + 1))
  {
    DropStatement(w.nodes[Serving(w)], pc);
    var got := Advance(Progress(w, j, pc));
    assert got.w.nodes == Progress(w, j, pc + 1).nodes;
  }

  lemma ProgressAtCleanup(w: World, j: nat)
    requires Claimable(w, j) && Inv(Progress(w, j, CleanupAt))
    ensures Advance(Progress(w, j, CleanupAt)) == Continues(Progress(w, j, End))
  {
  }

  lemma ProgressStep(w: World, j: nat, pc: nat)
    requires Claimable(w, j) && pc < End && (!w.nodes[w.jobs[j].target].role || pc < RestoreAt)
    requires Inv(Progress(w, j, pc))
    ensures After(Progress(w, j, pc), Step) == Progress(w, j, pc + 1)
  {
    if pc < RestoreAt {
      ProgressToRestore(w, j, pc);
    } else if pc < CutoverAt {
      ProgressToCutover(w, j, pc);
    } else if pc == CutoverAt {
      ProgressAtCutover(w, j);
    } else if pc < CleanupAt {
      ProgressToCleanup(w, j, pc);
    } else {
      ProgressAtCleanup(w, j);
    }
  }

  function Attempted(j: nat, k: nat): seq<Event> {
    [Claim(j)] + Steps(k)
  }

  lemma RunOneMore(w: World, events: seq<Event>, e: Event)
    requires Inv(w)
    ensures Inv(Run(w, events)) && Run(w, events + [e]) == After(Run(w, events), e)
  {
    RunAppend(w, events, [e]);
    assert Run(Run(w, events), [e]) == Run(After(Run(w, events), e), []);
  }

  lemma AttemptedOneMore(w: World, j: nat, k: nat)
    requires Inv(w)
    ensures Inv(Run(w, Attempted(j, k)))
    ensures Run(w, Attempted(j, k + 1)) == After(Run(w, Attempted(j, k)), Step)
  {
    assert Attempted(j, k + 1) == Attempted(j, k) + [Step];
    RunOneMore(w, Attempted(j, k), Step);
  }

  lemma {:induction false} AttemptProgresses(w: World, j: nat, pc: nat)
    requires Claimable(w, j) && pc <= End && (!w.nodes[w.jobs[j].target].role || pc <= RestoreAt)
    ensures Inv(Progress(w, j, pc)) && Run(w, Attempted(j, pc)) == Progress(w, j, pc)
  {
    if pc == 0 {
      assert Attempted(j, 0) == [] + [Claim(j)];
      RunOneMore(w, [], Claim(j));
      ProgressStarts(w, j);
    } else {
      AttemptProgresses(w, j, pc - 1);
      AttemptedOneMore(w, j, pc - 1);
      ProgressStep(w, j, pc - 1);
    }
  }

  /** What a claimed job does when nothing breaks: on a node without the tenant's role it moves the database,
      whole, and clears the source. */
  lemma UndisturbedAttemptMoves(w: World, j: nat)
    requires Claimable(w, j) && !w.nodes[w.jobs[j].target].role
    ensures
      var after := Run(w, Attempted(j, End + 1));
      var target := w.jobs[j].target;
      && Inv(after)
      && Serving(after) == target
      && after.record.status == Running
      && after.jobs == w.jobs[j := Job(target, w.jobs[j].attempts + 1, Succeeded)]
      && after.attempt.None?
      && after.written == w.written
      && after.nodes == w.nodes[Serving(w) := Pg(false, None)]
                               [target := Pg(true, Some(Db(w.written, true, true, false)))]
  {
    AttemptProgresses(w, j, End);
    AttemptedOneMore(w, j, End);
    FinishKeepsInv(Progress(w, j, End));
    assert SourceAfter(w.nodes[Serving(w)], End) == Pg(false, None);
  }

  /** On a node that has the role it is refused, and the tenant is left locked out of the source. */
  lemma RefusedAttemptLocksOut(w: World, j: nat)
    requires Claimable(w, j) && w.nodes[w.jobs[j].target].role
    ensures
      var after := Run(w, Attempted(j, RestoreAt + 1));
      && Inv(after) && |after.jobs| == |w.jobs| && |after.nodes| == |w.nodes|
      && Serving(after) == Serving(w)
      && after.jobs[j].state == (if w.jobs[j].attempts + 1 >= MaxAttempts then GivenUp else Waiting)
      && after.attempt.None?
      && !Enabled(after, Connect)
      && after.nodes[w.jobs[j].target] == w.nodes[w.jobs[j].target]
  {
    AttemptProgresses(w, j, RestoreAt);
    AttemptedOneMore(w, j, RestoreAt);
    AdvanceKeepsInv(Progress(w, j, RestoreAt));
  }

  // ------------------------------------------------------------ the kind of cluster

  /** The database sits, and will sit after the commit, in a cluster of the kind it asked for. */
  predicate OfItsKind(w: World)
    requires Inv(w)
  {
    && w.clusters[w.record.cluster].shared == w.shared
    && (w.attempt.Some? ==> w.clusters[w.attempt.value.working.cluster].shared == w.shared)
  }

  lemma AdvanceKeepsKind(w: World)
    requires Inv(w) && OfItsKind(w) && w.attempt.Some? && w.attempt.value.pc < End && Inv(Advance(w).w)
    ensures OfItsKind(Advance(w).w)
  {
  }

  lemma InterruptKeepsKind(w: World, partial: seq<nat>)
    requires Inv(w) && OfItsKind(w) && w.attempt.Some? && Inv(Interrupted(Torn(w, partial))) && Inv(Interrupted(w))
    ensures OfItsKind(Interrupted(w)) && OfItsKind(Interrupted(Torn(w, partial)))
  {
  }

  lemma WorkerKeepsKind(w: World, e: Event)
    requires Inv(w) && OfItsKind(w) && Enabled(w, e) && (e.Step? || e.Break?)
    ensures OfItsKind(After(w, e))
  {
    TornKeepsInv(w, if e.Break? then e.partial else []);
    InterruptKeepsInv(w);
    InterruptKeepsKind(w, if e.Break? then e.partial else []);
    if e.Step? && w.attempt.value.pc < End {
      AdvanceKeepsInv(w);
      if !Refused(w) {
        AdvanceKeepsKind(w);
      }
    }
  }

  lemma OthersKeepKind(w: World, e: Event)
    requires Inv(w) && OfItsKind(w) && !e.Step? && !e.Break?
    ensures OfItsKind(After(w, e))
  {
  }

  /** No migration, broken off or not, moves a database into a cluster of the other kind. */
  lemma {:induction false} KindIsKept(w: World, events: seq<Event>)
    requires Inv(w) && OfItsKind(w)
    ensures Inv(Run(w, events)) && OfItsKind(Run(w, events)) && Run(w, events).shared == w.shared
    decreases |events|
  {
    if events == [] {
    } else {
      var e := events[0];
      if (e.Step? || e.Break?) && Enabled(w, e) {
        WorkerKeepsKind(w, e);
      } else if !e.Step? && !e.Break? {
        OthersKeepKind(w, e);
      }
      SharedStays(w, e);
      KindIsKept(After(w, e), events[1..]);
    }
  }

  lemma SharedStays(w: World, e: Event)
    requires Inv(w)
    ensures After(w, e).shared == w.shared
  {
  }

  // ------------------------------------------------------------ a node with a leftover role

  /** The role is there, the node does not serve, and no attempt owns that role. */
  predicate Barred(w: World, node: nat)
    requires Inv(w)
  {
    && node < |w.nodes| && w.nodes[node].role && node != Serving(w)
    && (w.attempt.Some? && Target(w) == node ==> w.attempt.value.pc <= RestoreAt)
  }

  /** An attempt broken after CREATE ROLE bars its target; one broken after the cutover bars its source. */
  lemma BrokenAttemptBars(w: World, partial: seq<nat>)
    requires Inv(w) && w.attempt.Some? && RestoreAt < w.attempt.value.pc < CleanupAt
    ensures Barred(After(w, Break(partial)),
                   if w.attempt.value.pc <= CutoverAt then Target(w) else w.attempt.value.source)
  {
    TornKeepsInv(w, partial);
  }

  lemma AdvanceKeepsBarred(w: World, node: nat)
    requires Inv(w) && Barred(w, node) && w.attempt.Some? && w.attempt.value.pc < End && !Refused(w)
    requires Inv(Advance(w).w)
    ensures Barred(Advance(w).w, node)
  {
    AdvanceKeepsInv(w);
    AdvanceTouchesNoRow(w);
  }

  lemma StepKeepsBarred(w: World, node: nat)
    requires Inv(w) && Barred(w, node) && w.attempt.Some?
    ensures Barred(After(w, Step), node)
  {
    if w.attempt.value.pc == End {
      FinishKeepsInv(w);
    } else {
      AdvanceKeepsInv(w);
      if !Refused(w) {
        AdvanceKeepsBarred(w, node);
      }
    }
  }

  lemma BreakKeepsBarred(w: World, partial: seq<nat>, node: nat)
    requires Inv(w) && Barred(w, node) && Enabled(w, Break(partial))
    ensures Barred(After(w, Break(partial)), node)
  {
    TornKeepsInv(w, partial);
  }

  lemma RequestOrClaimKeepsBarred(w: World, e: Event, node: nat)
    requires Inv(w) && Barred(w, node) && (e.Request? || e.Claim?)
    ensures Barred(After(w, e), node)
  {
  }

  lemma TenantKeepsBarred(w: World, e: Event, node: nat)
    requires Inv(w) && Barred(w, node) && (e.Connect? || e.Write? || e.Disconnect?)
    ensures Barred(After(w, e), node)
  {
  }

  lemma NextKeepsBarred(w: World, e: Event, node: nat)
    requires Inv(w) && Barred(w, node)
    ensures Barred(After(w, e), node)
  {
    if e.Request? || e.Claim? {
      RequestOrClaimKeepsBarred(w, e, node);
    } else if e.Connect? || e.Write? || e.Disconnect? {
      TenantKeepsBarred(w, e, node);
    } else if Enabled(w, e) {
      if e.Step? {
        StepKeepsBarred(w, node);
      } else {
        BreakKeepsBarred(w, e.partial, node);
      }
    }
  }

  /** No run of requests, retries and tenant activity ever brings the database to a barred node. */
  lemma {:induction false} BarredForEver(w: World, events: seq<Event>, node: nat)
    requires Inv(w) && Barred(w, node)
    ensures Inv(Run(w, events)) && Serving(Run(w, events)) != node
            && node < |Run(w, events).nodes| && Run(w, events).nodes[node].role
    decreases |events|
  {
    if events == [] {
    } else {
      NextKeepsBarred(w, events[0], node);
      BarredForEver(After(w, events[0]), events[1..], node);
    }
  }

  // ------------------------------------------------------------ two open jobs

  /** Job 0 breaks right after its cutover. */
  const FirstJob: seq<Event> := [Request(1)] + Attempted(0, DropAt) + [Break([])]

  /** Job 1 is requested and done. */
  const SecondJob: seq<Event> := [Request(2)] + Attempted(1, End + 1)

  predicate AfterFirstJob(w: World) {
    && Inv(w) && w.attempt.None? && w.jobs == [Job(1, 1, Waiting)] && |w.nodes| == 3
    && Serving(w) == 1 && w.record.status == Running && w.nodes[2] == Pg(false, None)
  }

  predicate AfterSecondJob(w: World) {
    && Inv(w) && w.attempt.None? && w.jobs == [Job(1, 1, Waiting), Job(2, 1, Succeeded)] && |w.nodes| == 3
    && Serving(w) == 2 && w.record.status == Running && w.nodes[1] == Pg(false, None)
  }

  lemma RunOne(w: World, e: Event)
    requires Inv(w)
    ensures Run(w, [e]) == After(w, e)
  {
    RunOneMore(w, [], e);
    assert [] + [e] == [e];
  }

  lemma FirstJobBreaks(w: World)
    requires Inv(w) && w.attempt.None? && w.jobs == [] && |w.nodes| == 3 && Serving(w) == 0
    requires w.record.status == Running && w.nodes[1] == w.nodes[2] == Pg(false, None)
    ensures AfterFirstJob(Run(w, FirstJob))
  {
    var w1 := After(w, Request(1));
    RunOne(w, Request(1));
    AttemptProgresses(w1, 0, DropAt);
    var w2 := Progress(w1, 0, DropAt);
    RunOne(w2, Break([]));
    assert w2.jobs == [Job(1, 1, InProgress)];
    RunAppend(w, [Request(1)], Attempted(0, DropAt));
    RunAppend(w, [Request(1)] + Attempted(0, DropAt), [Break([])]);
  }

  lemma SecondJobMoves(w: World)
    requires AfterFirstJob(w)
    ensures AfterSecondJob(Run(w, SecondJob))
  {
    var w1 := After(w, Request(2));
    RunOne(w, Request(2));
    UndisturbedAttemptMoves(w1, 1);
    RunAppend(w, [Request(2)], Attempted(1, End + 1));
  }

  lemma TwoJobsDone(w: World)
    requires Inv(w) && w.attempt.None? && w.jobs == [] && |w.nodes| == 3 && Serving(w) == 0
    requires w.record.status == Running && w.nodes[1] == w.nodes[2] == Pg(false, None)
    ensures AfterSecondJob(Run(w, FirstJob + SecondJob))
  {
    FirstJobBreaks(w);
    SecondJobMoves(Run(w, FirstJob));
    RunAppend(w, FirstJob, SecondJob);
  }

  /** With a second migration requested before the first has closed, RUNNING promises nothing: job 0 is retried
      and takes the database back, and meanwhile the row says RUNNING and names a node that has no database. */
  lemma TwoOpenJobsBreakRunning(data: seq<nat>)
    ensures
      var start := Provisioned(3, Cluster(0, true), true, data);
      && Inv(start) && OneJob(start)
      && var after := Run(start, FirstJob + SecondJob + Attempted(0, DropAt + 2));
         Inv(after) && after.record.status == Running && !Holds(after, Serving(after))
  {
    var w := Provisioned(3, Cluster(0, true), true, data);
    ProvisionedIsSafe(3, Cluster(0, true), true, data);
    TwoJobsDone(w);
    RunAppend(w, FirstJob + SecondJob, Attempted(0, DropAt + 2));
    AttemptProgresses(Run(w, FirstJob + SecondJob), 0, DropAt + 2);
  }
}
