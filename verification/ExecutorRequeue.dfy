/**
 * When a pass asks to be repeated at once: only after it got on with the removal.
 */
module ExecutorRequeue {
  import opened Wrappers
  import opened RemovalPlan
  import opened Executor
  import opened ExecutorInvariants
  import opened ExecutorPass
  import opened ExecutorRuns
  import opened ExecutorProgress

  /** Some OSD has less left to do than at the start of the pass. */
  ghost predicate Falls(c: Context, osds: map<Pair, Osd>) {
    exists p :: p in c.begin.osds && p in osds && OsdRank(osds[p]) < OsdRank(c.begin.osds[p])
  }

  lemma {:induction false} FallsLater(c: Context, osds: map<Pair, Osd>, osds': map<Pair, Osd>)
    requires AllAdvance(osds, osds') && Falls(c, osds)
    ensures Falls(c, osds')
  {
    hide OsdRank, Advances;
    var p :| p in c.begin.osds && p in osds && OsdRank(osds[p]) < OsdRank(c.begin.osds[p]);
    RankFalls(osds[p], osds'[p]);
  }

  // -------------------------------------------------------------------- removed OSDs

  /** Another list of the pass has still to show whether something moves. */
  ghost predicate Undecided(c: Context)
    requires AllHaveStatus(c.begin.osds)
  {
    HasBucket(c.begin, RemoveWaitingRebalance) || !PendingListEmpty(c.begin)
  }

  lemma {:induction false} JobStepGetsOn(c: Context, p: Pair, st: State)
    requires Covers(c, st) && p in st.info.osds
    requires JobOpen(st.info.osds[p].remove.value.job) && !SkipsJob(st.info.hosts[p.host], st.info.osds[p])
    ensures var st' := JobStep(c, p, st);
      && (st'.requeue ==> st.requeue) && p in st'.info.osds
      && (st'.notCompleted > st.notCompleted && st'.requeue && !Undecided(c) ==> OsdRank(st'.info.osds[p]) < OsdRank(st.info.osds[p]))
  {
    hide Tagged, HandleJobRun, HasBucket, PendingListEmpty, DeployStep, WellFormed, SkipsJob;
    var out := HandleJobRun(st.info.osds, p, c.env.osd(p));
    var r' := st.info.osds[p].remove.value.(job := Some(out.status));
    WithCovers(c, p, st, r', out.actions);
    var st1 := WithEvents(WithResult(st, p, r'), c.pass, p, out.actions);
    DeployMoves(c, p, st1);
    DeployFlags(c, p, st1);
    if out.status.phase == RemoveCompleted { assert OsdRank(st1.info.osds[p]) < OsdRank(st.info.osds[p]); }
  }

  lemma {:induction false} DeployFlags(c: Context, p: Pair, st: State)
    requires Covers(c, st) && p in st.info.osds
    ensures DeployStep(c, p, st).requeue == st.requeue && p in DeployStep(c, p, st).info.osds
  {
    hide Tagged, WellFormed, RemoveDeployment;
  }

  lemma {:induction false} SkippedGetsOn(c: Context, p: Pair, st: State)
    requires Covers(c, st) && p in st.info.osds && JobOpen(st.info.osds[p].remove.value.job)
    ensures var r' := st.info.osds[p].remove.value.(job := Some(Just(RemoveSkipped)));
      && Covers(c, WithResult(st, p, r'))
      && var st' := DeployStep(c, p, WithResult(st, p, r'));
      st'.requeue == st.requeue && p in st'.info.osds && OsdRank(st'.info.osds[p]) < OsdRank(st.info.osds[p])
  {
    hide DeployStep, WellFormed;
    var r' := st.info.osds[p].remove.value.(job := Some(Just(RemoveSkipped)));
    WithCovers(c, p, st, r', []);
    DeployMoves(c, p, WithResult(st, p, r'));
    DeployFlags(c, p, WithResult(st, p, r'));
  }

  /** A removed OSD that is counted lets the pass be repeated only if it got on, or another list decides. */
  lemma {:induction false} FinishedGetsOn(c: Context, p: Pair, st: State)
    requires Covers(c, st) && p in st.info.osds
    ensures var st' := FinishedStep(c, p, st);
      && (st'.requeue ==> st.requeue) && p in st'.info.osds
      && (st'.notCompleted > st.notCompleted && st'.requeue && !Undecided(c) ==> OsdRank(st'.info.osds[p]) < OsdRank(st.info.osds[p]))
  {
    assert p.host in st.info.hosts;
    hide FinishedStep, JobStep, DeployStep, SkipsJob, OsdRank, HasBucket, PendingListEmpty, WellFormed, Undecided;
    FinishedIs(c, p, st);
    var o := st.info.osds[p];
    if JobOpen(o.remove.value.job) {
      if SkipsJob(st.info.hosts[p.host], o) {
        FinishedSkips(c, p, st);
        SkippedGetsOn(c, p, st);
      } else {
        JobStepGetsOn(c, p, st);
      }
    } else {
      DeployMoves(c, p, st);
      DeployFlags(c, p, st);
    }
  }

  lemma {:induction false} FinishedLoopGetsOn(c: Context, order: seq<Pair>, st: State, t0: Trace)
    requires Sound(c, st) && Before(t0, c.pass) && NoDuplicates(order) && AllAdvance(c.begin.osds, st.info.osds)
    requires forall p :: p in order ==> p in c.begin.osds
    requires forall p :: p in order && Bucket(c.begin.osds[p]) == RemoveFinished ==> Untouched(c, t0, st, p)
    ensures var st' := Loop(c, RemoveFinished, order, st);
      && (st'.requeue ==> st.requeue)
      && (st'.notCompleted > st.notCompleted && st'.requeue && !Undecided(c) ==> Falls(c, st'.info.osds))
  {
    hide Inv, Before, Advances, Of, Step, Falls, Undecided;
    if order != [] {
      var last := |order| - 1;
      var init, p := order[..last], order[last];
      assert order == init + [p] && p !in init;
      FinishedLoopGetsOn(c, init, st, t0);
      LoopKeeps(c, RemoveFinished, init, st, t0);
      var st' := Loop(c, RemoveFinished, init, st);
      if Bucket(c.begin.osds[p]) == RemoveFinished {
        assert Untouched(c, t0, st, p);
        StepFinishes(c, p, st');
        FinishedGetsOn(c, p, st');
        StepKeeps(c, RemoveFinished, p, st', t0);
        var st'' := Step(c, RemoveFinished, p, st');
        StepReaches(c, RemoveFinished, [p], p, st', st'');
        if Falls(c, st'.info.osds) {
          FallsLater(c, st'.info.osds, st''.info.osds);
        } else if OsdRank(st''.info.osds[p]) < OsdRank(st'.info.osds[p]) {
          FallsAt(c, st''.info.osds, p);
        }
      }
    }
  }

  lemma {:induction false} FallsAt(c: Context, osds: map<Pair, Osd>, p: Pair)
    requires p in c.begin.osds && p in osds && OsdRank(osds[p]) < OsdRank(c.begin.osds[p])
    ensures Falls(c, osds)
  {
  }

  // ------------------------------------------------------------------ the other lists

  lemma {:induction false} StepRequeues(c: Context, b: RemovePhase, p: Pair, st: State)
    requires Covers(c, st) && p in st.info.osds && b in {RemoveStray, RemoveInProgress, RemoveWaitingRebalance} && PhaseIs(st.info.osds[p], b)
    ensures var st' := Step(c, b, p, st);
      && (st'.requeue ==> st.requeue)
      && (b == RemoveWaitingRebalance && st'.requeue ==> c.env.osd(p).hasPgs == Some(false))
  {
    hide Tagged, WellFormed, RemoveStrayOsd, RemoveFromCrush;
  }

  lemma {:induction false} LoopRequeues(c: Context, b: RemovePhase, order: seq<Pair>, st: State, t0: Trace)
    requires Sound(c, st) && Before(t0, c.pass) && NoDuplicates(order) && b in {RemoveStray, RemoveInProgress, RemoveWaitingRebalance}
    requires forall p :: p in order ==> p in c.begin.osds
    requires forall p :: p in order && Bucket(c.begin.osds[p]) == b ==> Untouched(c, t0, st, p)
    ensures var st' := Loop(c, b, order, st);
      && (st'.requeue ==> st.requeue)
      && (b == RemoveWaitingRebalance && st'.requeue ==>
            forall p :: p in order && Bucket(c.begin.osds[p]) == b ==> c.env.osd(p).hasPgs == Some(false))
  {
    hide Step, Inv, Before, Advances, Of;
    if order != [] {
      var last := |order| - 1;
      var init, p := order[..last], order[last];
      assert order == init + [p] && p !in init;
      LoopRequeues(c, b, init, st, t0);
      LoopKeeps(c, b, init, st, t0);
      if Bucket(c.begin.osds[p]) == b {
        assert Untouched(c, t0, st, p);
        StepRequeues(c, b, p, Loop(c, b, init, st));
      }
    }
  }

  /** An OSD on one of these lists gets on, unless it waits for its placement groups. */
  lemma {:induction false} MovesMeansFalls(c: Context, t0: Trace, osds: map<Pair, Osd>, p: Pair)
    requires Inv(c.begin.osds, t0) && AllHaveStatus(c.begin.osds) && Moves(c, osds, p)
    requires Bucket(c.begin.osds[p]) in {RemoveStray, RemoveInProgress}
      || (Bucket(c.begin.osds[p]) == RemoveWaitingRebalance && c.env.osd(p).hasPgs == Some(false))
    ensures Falls(c, osds)
  {
    hide Of, OneJobPerHost, OneRebalance, ZapSafe, Evidence, Once, Backed, Recorded, OsdRank;
    assert Local(p, c.begin.osds[p], Of(t0, p));
  }

  lemma {:induction false} ListGetsOn(c: Context, order: seq<Pair>, t0: Trace, done: set<RemovePhase>, b: RemovePhase, st: State)
    requires Midway(c, order, t0, done, st) && b !in done && b in {RemoveStray, RemoveInProgress, RemoveWaitingRebalance}
    requires Before(t0, c.pass) && NoDuplicates(order) && (forall p :: p in order <==> p in c.begin.osds)
    requires Inv(c.begin.osds, t0) && AllHaveStatus(c.begin.osds)
    ensures var st' := Loop(c, b, order, st);
      && (st'.requeue ==> st.requeue)
      && (Falls(c, st.info.osds) ==> Falls(c, st'.info.osds))
      && (HasBucket(c.begin, b) && st'.requeue ==> Falls(c, st'.info.osds))
      && (!HasBucket(c.begin, b) ==> st' == st)
  {
    hide Inv, Before, Advances, Of, Loop, Moves, Falls;
    LoopRequeues(c, b, order, st, t0);
    LoopKeeps(c, b, order, st, t0);
    var st' := Loop(c, b, order, st);
    if Falls(c, st.info.osds) { FallsLater(c, st.info.osds, st'.info.osds); }
    if HasBucket(c.begin, b) {
      var p :| p in c.begin.osds && Bucket(c.begin.osds[p]) == b;
      LoopMoves(c, b, order, st, t0);
      if st'.requeue { MovesMeansFalls(c, t0, st'.info.osds, p); }
    } else {
      LoopNone(c, b, order, st);
    }
  }

  lemma {:induction false} FinishedListGetsOn(c: Context, order: seq<Pair>, t0: Trace, st: State)
    requires Midway(c, order, t0, {}, st) && AllHaveStatus(c.begin.osds) && st.notCompleted == 0
    requires Before(t0, c.pass) && NoDuplicates(order) && forall p :: p in order <==> p in c.begin.osds
    ensures var st' := Loop(c, RemoveFinished, order, st);
      st'.notCompleted > 0 && st'.requeue && !HasBucket(c.begin, RemoveWaitingRebalance) && PendingListEmpty(c.begin) ==> Falls(c, st'.info.osds)
  {
    hide Inv, Before, Loop, Falls, HasBucket, PendingListEmpty, Midway, Advances, Of;
    MidwayStarts(c, order, t0, st);
    FinishedLoopGetsOn(c, order, st, t0);
  }

  /** What was counted so far and lets the pass be repeated got on, if no other list decides. */
  ghost predicate Onward(c: Context, st: State)
    requires AllHaveStatus(c.begin.osds)
  {
    st.notCompleted > 0 && st.requeue && !HasBucket(c.begin, RemoveWaitingRebalance) && PendingListEmpty(c.begin) ==> Falls(c, st.info.osds)
  }

  lemma {:induction false} ListOnward(c: Context, order: seq<Pair>, t0: Trace, done: set<RemovePhase>, b: RemovePhase, st: State)
    requires Midway(c, order, t0, done, st) && b !in done && b in {RemoveStray, RemoveInProgress, RemoveWaitingRebalance}
    requires Before(t0, c.pass) && NoDuplicates(order) && (forall p :: p in order <==> p in c.begin.osds)
    requires Inv(c.begin.osds, t0) && AllHaveStatus(c.begin.osds) && Onward(c, st)
    ensures var st' := Loop(c, b, order, st);
      && Onward(c, st')
      && (b == RemoveWaitingRebalance && HasBucket(c.begin, b) && st'.requeue ==> Falls(c, st'.info.osds))
  {
    hide Inv, Midway, Loop, Before, Falls, HasBucket, PendingListEmpty;
    ListGetsOn(c, order, t0, done, b, st);
  }

  /** Between the lists. */
  lemma {:induction false} MidwaysHold(c: Context, order: seq<Pair>, t0: Trace, st: State)
    requires Midway(c, order, t0, {}, st) && Before(t0, c.pass) && NoDuplicates(order) && forall p :: p in order <==> p in c.begin.osds
    requires Covers(c, st)
    ensures var st1 := Loop(c, RemoveFinished, order, st);
      var st2 := Loop(c, RemoveStray, order, st1);
      && Midway(c, order, t0, {RemoveFinished}, st1) && Midway(c, order, t0, {RemoveFinished, RemoveStray}, st2)
      && Midway(c, order, t0, {RemoveFinished, RemoveStray, RemoveInProgress}, Loop(c, RemoveInProgress, order, st2))
  {
    hide Midway, Loop, Before, Covers;
    ListKeeps(c, order, t0, {}, RemoveFinished, st);
    var st1 := Loop(c, RemoveFinished, order, st);
    assert {} + {RemoveFinished} == {RemoveFinished};
    ListKeeps(c, order, t0, {RemoveFinished}, RemoveStray, st1);
    var st2 := Loop(c, RemoveStray, order, st1);
    assert {RemoveFinished} + {RemoveStray} == {RemoveFinished, RemoveStray};
    ListKeeps(c, order, t0, {RemoveFinished, RemoveStray}, RemoveInProgress, st2);
    assert {RemoveFinished, RemoveStray} + {RemoveInProgress} == {RemoveFinished, RemoveStray, RemoveInProgress};
  }

  lemma {:induction false} HandledGetsOn(c: Context, order: seq<Pair>, t0: Trace, st: State)
    requires Midway(c, order, t0, {}, st) && Covers(c, st) && Inv(c.begin.osds, t0) && st.notCompleted == 0 && AllHaveStatus(c.begin.osds)
    requires Before(t0, c.pass) && NoDuplicates(order) && forall p :: p in order <==> p in c.begin.osds
    ensures Onward(c, Handled(c, order, st))
    ensures HasBucket(c.begin, RemoveWaitingRebalance) && Handled(c, order, st).requeue ==> Falls(c, Handled(c, order, st).info.osds)
  {
    hide Inv, Midway, Loop, Before, Covers, Falls, HasBucket, PendingListEmpty;
    MidwaysHold(c, order, t0, st);
    FinishedListGetsOn(c, order, t0, st);
    var st1 := Loop(c, RemoveFinished, order, st);
    assert Onward(c, st1);
    hide Onward;
    ListOnward(c, order, t0, {RemoveFinished}, RemoveStray, st1);
    var st2 := Loop(c, RemoveStray, order, st1);
    ListOnward(c, order, t0, {RemoveFinished, RemoveStray}, RemoveInProgress, st2);
    var st3 := Loop(c, RemoveInProgress, order, st2);
    ListOnward(c, order, t0, {RemoveFinished, RemoveStray, RemoveInProgress}, RemoveWaitingRebalance, st3);
  }

  lemma {:induction false} MidwayStarts(c: Context, order: seq<Pair>, t0: Trace, st: State)
    requires Midway(c, order, t0, {}, st)
    ensures Sound(c, st) && AllAdvance(c.begin.osds, st.info.osds)
    ensures forall p :: p in order && p in c.begin.osds ==> Untouched(c, t0, st, p)
  {
    hide Inv, Before, Advances, Of;
  }

  // -------------------------------------------------------------------- pending OSDs

  lemma {:induction false} PendingStepEither(c: Context, p: Pair, st: State)
    requires Covers(c, st) && p in st.info.osds && p in c.begin.osds && st.info.osds[p] == c.begin.osds[p] && !st.moved
    requires PhaseIs(c.begin.osds[p], RemovePending)
    ensures var st' := PendingStep(c, p, st);
      && p in st'.info.osds && (if st'.moved then OsdRank(st'.info.osds[p]) < OsdRank(c.begin.osds[p]) else st'.waiting != map[])
      && (st'.requeue ==> st.requeue)
  {
    PendingIs(c, p, st);
    hide PendingStep, Tagged, WellFormed, ResetWaiting;
    var out := OsdOutcome(c, RemovePending, p, st.info.osds[p].remove.value.osd);
    var st1 := WithOutcome(c, p, st, out);
    ResetRank(st1.info.osds, st.waiting, p);
    assert p.osd in st.waiting[p.osd := p.host];
  }

  lemma {:induction false} PendingLoopEither(c: Context, order: seq<Pair>, st: State, t0: Trace)
    requires Sound(c, st) && Before(t0, c.pass) && NoDuplicates(order) && PendingReady(c, [], st) && !st.moved
    requires forall p :: p in order ==> p in c.begin.osds
    requires forall p :: p in order && Bucket(c.begin.osds[p]) == RemovePending ==> Untouched(c, t0, st, p)
    ensures var st' := Loop(c, RemovePending, order, st);
      && (st'.moved ==> Falls(c, st'.info.osds))
      && (!st'.moved && (exists p :: p in order && Bucket(c.begin.osds[p]) == RemovePending) ==> st'.waiting != map[])
  {
    hide Inv, Before, Advances, Of, PendingStep, PendingReady, Falls, OsdRank;
    if order != [] {
      var last := |order| - 1;
      var init, p := order[..last], order[last];
      assert order == init + [p] && p !in init;
      PendingLoopEither(c, init, st, t0);
      PendingLoopKeeps(c, init, st, t0);
      var st' := Loop(c, RemovePending, init, st);
      if Bucket(c.begin.osds[p]) == RemovePending {
        if st'.moved {
          MovedStays(c, p, st');
        } else {
          assert Untouched(c, t0, st, p);
          PendingStepEither(c, p, st');
          if PendingStep(c, p, st').moved { FallsAt(c, PendingStep(c, p, st').info.osds, p); }
        }
      }
    }
  }

  lemma {:induction false} MovedStays(c: Context, p: Pair, st: State)
    requires Covers(c, st) && p in st.info.osds && st.moved
    ensures PendingStep(c, p, st) == st
  {
    hide Covers, WithOutcome, OsdOutcome;
  }

  // ------------------------------------------------------------------------ the result

  lemma {:induction false} ContinuedGetsOn(c: Context, order: seq<Pair>, trace: Trace)
    requires WellFormed(c.begin) && AllHaveStatus(c.begin.osds) && IsOrder(order, c.begin.osds.Keys)
    requires Inv(c.begin.osds, trace) && Before(trace, c.pass)
    requires !Continued(c, order, trace).finished && Continued(c, order, trace).requeue
    ensures Falls(c, Continued(c, order, trace).info.osds)
  {
    hide Inv, Before, Handled, Loop, FailedIssues, Falls, Midway;
    var st := Initial(c.begin, trace);
    InitialCovers(c, trace);
    BeginsMidway(c, order, trace);
    HandledGetsOn(c, order, trace, st);
    var st4 := Handled(c, order, st);
    HandledKeeps(c, order, st, trace);
    HandledWaiting(c, order, st);
    if !HasBucket(c.begin, RemoveWaitingRebalance) && !HasBucket(c.begin, RemoveFailed) {
      PendingGetsOn(c, order, trace, st4);
    }
  }

  lemma {:induction false} PendingGetsOn(c: Context, order: seq<Pair>, t0: Trace, st: State)
    requires Midway(c, order, t0, VISITED, st) && Before(t0, c.pass) && NoDuplicates(order)
    requires st.waiting == map[] && !st.moved && (forall p :: p in order <==> p in c.begin.osds)
    requires AllHaveStatus(c.begin.osds) && !HasBucket(c.begin, RemoveWaitingRebalance)
    ensures var st' := Loop(c, RemovePending, order, st);
      && (HasBucket(c.begin, RemovePending) && st'.waiting == map[] ==> Falls(c, st'.info.osds))
      && (!HasBucket(c.begin, RemovePending) ==> st' == st)
  {
    hide Inv, Before, Advances, Of, Loop, Falls;
    StillNoRebalance(c, order, st, t0);
    if HasBucket(c.begin, RemovePending) {
      PendingLoopEither(c, order, st, t0);
    } else {
      LoopNone(c, RemovePending, order, st);
    }
  }

  /** An unfinished pass asks to be repeated at once only if it lowered the measure: the removal never spins. */
  lemma {:induction false} RequeueMeansProgress(w: World, i: Input, w': World, osdKeys: seq<Pair>, hostKeys: seq<string>)
    requires Reachable(w) && Follows(w, i, w') && !ResultOf(w, i).finished && ResultOf(w, i).requeue
    requires IsOrder(osdKeys, w.info.osds.Keys) && IsOrder(hostKeys, w.info.hosts.Keys)
    ensures IsOrder(osdKeys, w'.info.osds.Keys) && IsOrder(hostKeys, w'.info.hosts.Keys)
    ensures Measure(w'.info, osdKeys, hostKeys) < Measure(w.info, osdKeys, hostKeys)
  {
    hide Inv, Before, Of, Pass, Advances, OsdRank, HostRank;
    NextReachable(w, i, w');
    SumOsdsFalls(osdKeys, w.info.osds, w'.info.osds);
    SumHostsFalls(hostKeys, w.info.hosts, w'.info.hosts);
    PassGetsOn(w, i, w');
  }

  lemma {:induction false} PassGetsOn(w: World, i: Input, w': World)
    requires Reachable(w) && Follows(w, i, w') && !ResultOf(w, i).finished && ResultOf(w, i).requeue
    ensures || (exists p :: p in w.info.osds && p in w'.info.osds && OsdRank(w'.info.osds[p]) < OsdRank(w.info.osds[p]))
            || (exists h :: h in w.info.hosts && h in w'.info.hosts && HostRank(w'.info.hosts[h]) < HostRank(w.info.hosts[h]))
  {
    hide Inv, Before, Of, HostDue, RemoveHosts, Continued, Advances, OsdRank, Collected;
    var begin := Collected(w.info);
    var c := Context(i.env, w.passes, begin);
    CollectedKeeps(w.info, w.trace);
    CollectedPlain(w.info);
    if h :| h in begin.hosts && HostDue(begin, h) {
      RemoveHostsKeeps(c, i.hostOrder, State(begin, w.trace, 0, true, map[], false));
      DueMeans(begin, h);
      assert HostRank(w'.info.hosts[h]) < HostRank(w.info.hosts[h]);
    } else {
      ContinuedGetsOn(c, i.order, w.trace);
      var p :| p in begin.osds && p in w'.info.osds && OsdRank(w'.info.osds[p]) < OsdRank(begin.osds[p]);
      RankFalls(w.info.osds[p], begin.osds[p]);
    }
  }
}
