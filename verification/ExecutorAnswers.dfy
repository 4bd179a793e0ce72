/**
 * How the answers of the cluster decide what becomes of every OSD in a pass.
 */
module ExecutorAnswers {
  import opened Wrappers
  import opened RemovalPlan
  import opened Executor
  import opened ExecutorInvariants
  import opened ExecutorPass
  import opened ExecutorRuns

  /** The status of the OSD after the command sequence of its list. */
  ghost predicate Answered(c: Context, b: RemovePhase, osds: map<Pair, Osd>, p: Pair)
    requires p in c.begin.osds && c.begin.osds[p].remove.Some?
  {
    p in osds && osds[p].remove.Some? && osds[p].remove.value.osd == OsdOutcome(c, b, p, c.begin.osds[p].remove.value.osd).status
  }

  lemma {:induction false} StepAnswers(c: Context, b: RemovePhase, p: Pair, st: State)
    requires Covers(c, st) && p in st.info.osds && st.info.osds[p] == c.begin.osds[p] && b in {RemoveStray, RemoveInProgress, RemoveWaitingRebalance}
    ensures Answered(c, b, Step(c, b, p, st).info.osds, p)
  {
    hide OsdOutcome, Tagged, WellFormed;
  }

  lemma {:induction false} LoopAnswers(c: Context, b: RemovePhase, order: seq<Pair>, st: State, t0: Trace, p: Pair)
    requires Sound(c, st) && Before(t0, c.pass) && NoDuplicates(order) && b in {RemoveStray, RemoveInProgress, RemoveWaitingRebalance}
    requires forall q :: q in order ==> q in c.begin.osds
    requires forall q :: q in order && Bucket(c.begin.osds[q]) == b ==> Untouched(c, t0, st, q)
    requires p in order && Bucket(c.begin.osds[p]) == b
    ensures Answered(c, b, Loop(c, b, order, st).info.osds, p)
  {
    hide Inv, Before, Advances, Of, Step, Answered;
    var last := |order| - 1;
    var init, q := order[..last], order[last];
    assert order == init + [q] && q !in init;
    LoopKeeps(c, b, init, st, t0);
    var st' := Loop(c, b, init, st);
    if q == p {
      assert Untouched(c, t0, st, p);
      StepAnswers(c, b, p, st');
    } else {
      LoopAnswers(c, b, init, st, t0, p);
      if Bucket(c.begin.osds[q]) == b {
        assert Untouched(c, t0, st, q);
        StepKeeps(c, b, q, st', t0);
        StaysAnswered(c, b, p, st'.info.osds, Step(c, b, q, st').info.osds);
      }
    }
  }

  lemma {:induction false} StaysAnswered(c: Context, b: RemovePhase, p: Pair, osds: map<Pair, Osd>, osds': map<Pair, Osd>)
    requires p in c.begin.osds && c.begin.osds[p].remove.Some? && Answered(c, b, osds, p) && p in osds' && osds'[p] == osds[p]
    ensures Answered(c, b, osds', p)
  {
    hide OsdOutcome;
  }

  /** Later lists leave it alone. */
  lemma {:induction false} ListSpares(c: Context, order: seq<Pair>, t0: Trace, done: set<RemovePhase>, b: RemovePhase, st: State, p: Pair)
    requires Midway(c, order, t0, done, st) && b !in done && b in {RemoveFinished, RemoveStray, RemoveInProgress, RemoveWaitingRebalance}
    requires Before(t0, c.pass) && NoDuplicates(order) && forall q :: q in order <==> q in c.begin.osds
    requires p in c.begin.osds && Bucket(c.begin.osds[p]) != b
    ensures p in st.info.osds && p in Loop(c, b, order, st).info.osds && Loop(c, b, order, st).info.osds[p] == st.info.osds[p]
  {
    hide Inv, Before, Advances, Of, Loop;
    LoopKeeps(c, b, order, st, t0);
  }

  lemma {:induction false} ListAnswers(c: Context, order: seq<Pair>, t0: Trace, done: set<RemovePhase>, b: RemovePhase, st: State, p: Pair)
    requires Midway(c, order, t0, done, st) && b !in done && b in {RemoveStray, RemoveInProgress, RemoveWaitingRebalance}
    requires Before(t0, c.pass) && NoDuplicates(order) && forall q :: q in order <==> q in c.begin.osds
    requires p in c.begin.osds && Bucket(c.begin.osds[p]) == b
    ensures Answered(c, b, Loop(c, b, order, st).info.osds, p)
  {
    hide Inv, Before, Advances, Of, Loop, Answered;
    LoopAnswers(c, b, order, st, t0, p);
  }

  lemma {:induction false} HandledAnswers(c: Context, order: seq<Pair>, t0: Trace, st: State, b: RemovePhase, p: Pair)
    requires Midway(c, order, t0, {}, st) && Covers(c, st) && AllHaveStatus(c.begin.osds)
    requires Before(t0, c.pass) && NoDuplicates(order) && forall q :: q in order <==> q in c.begin.osds
    requires p in c.begin.osds && Bucket(c.begin.osds[p]) == b && b in {RemoveStray, RemoveInProgress, RemoveWaitingRebalance}
    ensures Answered(c, b, Handled(c, order, st).info.osds, p)
  {
    hide Midway, Loop, Before, Covers, Answered, Bucket;
    ListKeeps(c, order, t0, {}, RemoveFinished, st);
    var st1 := Loop(c, RemoveFinished, order, st);
    assert {} + {RemoveFinished} == {RemoveFinished};
    ListKeeps(c, order, t0, {RemoveFinished}, RemoveStray, st1);
    var st2 := Loop(c, RemoveStray, order, st1);
    var two := {RemoveFinished, RemoveStray};
    assert {RemoveFinished} + {RemoveStray} == two;
    ListKeeps(c, order, t0, two, RemoveInProgress, st2);
    var st3 := Loop(c, RemoveInProgress, order, st2);
    var three := two + {RemoveInProgress};
    var st4 := Loop(c, RemoveWaitingRebalance, order, st3);
    if b == RemoveStray {
      ListAnswers(c, order, t0, {RemoveFinished}, b, st1, p);
      ListSpares(c, order, t0, two, RemoveInProgress, st2, p);
      StaysAnswered(c, b, p, st2.info.osds, st3.info.osds);
      ListSpares(c, order, t0, three, RemoveWaitingRebalance, st3, p);
      StaysAnswered(c, b, p, st3.info.osds, st4.info.osds);
    } else if b == RemoveInProgress {
      ListAnswers(c, order, t0, two, b, st2, p);
      ListSpares(c, order, t0, three, RemoveWaitingRebalance, st3, p);
      StaysAnswered(c, b, p, st3.info.osds, st4.info.osds);
    } else {
      ListAnswers(c, order, t0, three, b, st3, p);
    }
  }

  lemma {:induction false} ContinuedAnswers(c: Context, order: seq<Pair>, trace: Trace, b: RemovePhase, p: Pair)
    requires WellFormed(c.begin) && AllHaveStatus(c.begin.osds) && IsOrder(order, c.begin.osds.Keys)
    requires Inv(c.begin.osds, trace) && Before(trace, c.pass)
    requires p in c.begin.osds && Bucket(c.begin.osds[p]) == b && b in {RemoveStray, RemoveInProgress, RemoveWaitingRebalance}
    ensures Answered(c, b, Continued(c, order, trace).info.osds, p)
  {
    hide Inv, Before, Handled, Loop, FailedIssues, HasBucket, Answered, Advances, Of;
    var st := Initial(c.begin, trace);
    InitialCovers(c, trace);
    BeginsMidway(c, order, trace);
    HandledAnswers(c, order, trace, st, b, p);
    var st4 := Handled(c, order, st);
    HandledKeeps(c, order, st, trace);
    HandledWaiting(c, order, st);
    if !HasBucket(c.begin, RemoveWaitingRebalance) && !HasBucket(c.begin, RemoveFailed) {
      StillNoRebalance(c, order, st4, trace);
      PendingLoopKeeps(c, order, st4, trace);
      StaysAnswered(c, b, p, st4.info.osds, Loop(c, RemovePending, order, st4).info.osds);
    }
  }

  // ------------------------------------------------------------------- pending OSDs

  /** A pending OSD is still pending, or has the status its answers give it. */
  ghost predicate Tried(c: Context, osds: map<Pair, Osd>, p: Pair)
    requires p in c.begin.osds && c.begin.osds[p].remove.Some?
  {
    && p in osds && osds[p].remove.Some?
    && (|| osds[p].remove.value.osd.phase == RemovePending
        || osds[p].remove.value.osd == OsdOutcome(c, RemovePending, p, c.begin.osds[p].remove.value.osd).status)
  }

  /** Another OSD that is tried changes at most the wait start time, and that of pending OSDs only. */
  lemma {:induction false} OtherTried(c: Context, order: seq<Pair>, q: Pair, st: State, p: Pair)
    requires AllHaveStatus(c.begin.osds) && PendingReady(c, order, st) && Covers(c, st) && q in st.info.osds && p in st.info.osds && p != q
    requires p in c.begin.osds && Tried(c, st.info.osds, p)
    ensures Tried(c, PendingStep(c, q, st).info.osds, p)
  {
    hide OsdOutcome, Tagged, WellFormed, NoRebalance, Bucket;
  }

  lemma {:induction false} NowTried(c: Context, order: seq<Pair>, st: State, p: Pair)
    requires AllHaveStatus(c.begin.osds) && PendingReady(c, order, st) && p !in order && Covers(c, st) && p in st.info.osds
    requires p in c.begin.osds && st.info.osds[p] == c.begin.osds[p] && PhaseIs(c.begin.osds[p], RemovePending)
    ensures Tried(c, PendingStep(c, p, st).info.osds, p)
  {
    hide OsdOutcome, Tagged, WellFormed, NoRebalance, Bucket;
  }

  lemma {:induction false} LoopTried(c: Context, order: seq<Pair>, st: State, t0: Trace, p: Pair)
    requires Sound(c, st) && Before(t0, c.pass) && NoDuplicates(order) && PendingReady(c, [], st)
    requires forall q :: q in order ==> q in c.begin.osds
    requires forall q :: q in order && Bucket(c.begin.osds[q]) == RemovePending ==> Untouched(c, t0, st, q)
    requires p in order && Bucket(c.begin.osds[p]) == RemovePending
    ensures Tried(c, Loop(c, RemovePending, order, st).info.osds, p)
  {
    hide Inv, Before, Advances, Of, PendingStep, Tried, PendingReady;
    var last := |order| - 1;
    var init, q := order[..last], order[last];
    assert order == init + [q] && q !in init;
    PendingLoopKeeps(c, init, st, t0);
    var st' := Loop(c, RemovePending, init, st);
    if q == p {
      assert Untouched(c, t0, st, p);
      NowTried(c, init, st', p);
    } else {
      LoopTried(c, init, st, t0, p);
      if Bucket(c.begin.osds[q]) == RemovePending { OtherTried(c, init, q, st', p); }
    }
  }

  lemma {:induction false} StillPending(c: Context, osds: map<Pair, Osd>, p: Pair)
    requires p in c.begin.osds && c.begin.osds[p].remove.Some? && p in osds && PhaseIs(osds[p], RemovePending)
    ensures Tried(c, osds, p)
  {
    hide OsdOutcome;
  }

  lemma {:induction false} ContinuedTried(c: Context, order: seq<Pair>, trace: Trace, p: Pair)
    requires WellFormed(c.begin) && AllHaveStatus(c.begin.osds) && IsOrder(order, c.begin.osds.Keys)
    requires Inv(c.begin.osds, trace) && Before(trace, c.pass)
    requires p in c.begin.osds && Bucket(c.begin.osds[p]) == RemovePending
    ensures Tried(c, Continued(c, order, trace).info.osds, p)
  {
    hide Inv, Before, Handled, Loop, FailedIssues, HasBucket, Tried, Advances, Of;
    var st := Initial(c.begin, trace);
    InitialCovers(c, trace);
    BeginsMidway(c, order, trace);
    var st4 := Handled(c, order, st);
    HandledKeeps(c, order, st, trace);
    HandledWaiting(c, order, st);
    assert Untouched(c, trace, st4, p);
    StillPending(c, st4.info.osds, p);
    if !HasBucket(c.begin, RemoveWaitingRebalance) && !HasBucket(c.begin, RemoveFailed) {
      StillNoRebalance(c, order, st4, trace);
      LoopTried(c, order, st4, trace, p);
    }
  }

  // -------------------------------------------------------------------- running jobs

  /** What becomes of a running job. */
  function JobAfter(job: Option<JobState>): RemovePhase {
    match job
    case None => RemoveFailed
    case Some(JobFailed) => RemoveFailed
    case Some(JobSucceeded) => RemoveCompleted
    case Some(_) => RemoveInProgress
  }

  ghost predicate JobAnswered(c: Context, osds: map<Pair, Osd>, p: Pair) {
    p in osds && JobIs(osds[p], JobAfter(c.env.osd(p).job))
  }

  lemma {:induction false} DeployKeepsJob(c: Context, p: Pair, st: State)
    requires Covers(c, st) && p in st.info.osds
    ensures p in DeployStep(c, p, st).info.osds && DeployStep(c, p, st).info.osds[p].remove.Some?
    ensures DeployStep(c, p, st).info.osds[p].remove.value.job == st.info.osds[p].remove.value.job
  {
    hide Tagged, WellFormed, RemoveDeployment;
  }

  lemma {:induction false} RunningAnswered(c: Context, p: Pair, st: State)
    requires Covers(c, st) && p in st.info.osds && JobIs(st.info.osds[p], RemoveInProgress) && !st.info.osds[p].skipCleanup
    ensures JobAnswered(c, FinishedStep(c, p, st).info.osds, p)
  {
    FinishedIs(c, p, st);
    hide FinishedStep, Tagged, DeployStep, HasBucket, PendingListEmpty, ParallelJob, JobDevices;
    var out := HandleJobRun(st.info.osds, p, c.env.osd(p));
    var r' := st.info.osds[p].remove.value.(job := Some(out.status));
    assert out.status.phase == JobAfter(c.env.osd(p).job);
    hide HandleJobRun, WellFormed;
    WithCovers(c, p, st, r', out.actions);
    DeployKeepsJob(c, p, WithEvents(WithResult(st, p, r'), c.pass, p, out.actions));
  }

  lemma {:induction false} LoopJobAnswered(c: Context, order: seq<Pair>, st: State, t0: Trace, p: Pair)
    requires Sound(c, st) && Before(t0, c.pass) && NoDuplicates(order)
    requires forall q :: q in order ==> q in c.begin.osds
    requires forall q :: q in order && Bucket(c.begin.osds[q]) == RemoveFinished ==> Untouched(c, t0, st, q)
    requires p in order && Bucket(c.begin.osds[p]) == RemoveFinished && JobIs(c.begin.osds[p], RemoveInProgress) && !c.begin.osds[p].skipCleanup
    ensures JobAnswered(c, Loop(c, RemoveFinished, order, st).info.osds, p)
  {
    hide Inv, Before, Advances, Of, Step, JobIs, JobAfter;
    var last := |order| - 1;
    var init, q := order[..last], order[last];
    assert order == init + [q] && q !in init;
    LoopKeeps(c, RemoveFinished, init, st, t0);
    var st' := Loop(c, RemoveFinished, init, st);
    StepFinishesAt(c, q, st');
    if q == p {
      assert Untouched(c, t0, st, p);
      RunningAnswered(c, p, st');
    } else {
      LoopJobAnswered(c, init, st, t0, p);
      if Bucket(c.begin.osds[q]) == RemoveFinished {
        assert Untouched(c, t0, st, q);
        StepKeeps(c, RemoveFinished, q, st', t0);
      }
    }
  }

  lemma {:induction false} StepFinishesAt(c: Context, q: Pair, st: State)
    requires Covers(c, st) && q in c.begin.osds
    ensures q in st.info.osds && Step(c, RemoveFinished, q, st) == FinishedStep(c, q, st)
  {
    hide FinishedStep;
  }

  lemma {:induction false} ContinuedJobAnswered(c: Context, order: seq<Pair>, trace: Trace, p: Pair)
    requires WellFormed(c.begin) && AllHaveStatus(c.begin.osds) && IsOrder(order, c.begin.osds.Keys)
    requires Inv(c.begin.osds, trace) && Before(trace, c.pass)
    requires p in c.begin.osds && Bucket(c.begin.osds[p]) == RemoveFinished && JobIs(c.begin.osds[p], RemoveInProgress) && !c.begin.osds[p].skipCleanup
    ensures JobAnswered(c, Continued(c, order, trace).info.osds, p)
  {
    hide Inv, Before, Loop, FailedIssues, HasBucket, Advances, Of, JobIs, JobAfter, Midway, Covers;
    var st := Initial(c.begin, trace);
    InitialCovers(c, trace);
    BeginsMidway(c, order, trace);
    MidwaySound(c, order, trace, {}, st);
    LoopJobAnswered(c, order, st, trace, p);
    ListKeeps(c, order, trace, {}, RemoveFinished, st);
    var st1 := Loop(c, RemoveFinished, order, st);
    assert {} + {RemoveFinished} == {RemoveFinished};
    ListSpares(c, order, trace, {RemoveFinished}, RemoveStray, st1, p);
    ListKeeps(c, order, trace, {RemoveFinished}, RemoveStray, st1);
    var st2 := Loop(c, RemoveStray, order, st1);
    var two := {RemoveFinished, RemoveStray};
    assert {RemoveFinished} + {RemoveStray} == two;
    ListSpares(c, order, trace, two, RemoveInProgress, st2, p);
    ListKeeps(c, order, trace, two, RemoveInProgress, st2);
    var st3 := Loop(c, RemoveInProgress, order, st2);
    ListSpares(c, order, trace, two + {RemoveInProgress}, RemoveWaitingRebalance, st3, p);
    var st4 := Loop(c, RemoveWaitingRebalance, order, st3);
    HandledKeeps(c, order, st, trace);
    HandledWaiting(c, order, st);
    if !HasBucket(c.begin, RemoveWaitingRebalance) && !HasBucket(c.begin, RemoveFailed) {
      PendingSpares(c, order, st4, trace, p);
    }
  }

  lemma {:induction false} MidwaySound(c: Context, order: seq<Pair>, t0: Trace, done: set<RemovePhase>, st: State)
    requires Midway(c, order, t0, done, st)
    ensures Sound(c, st) && forall q :: q in order && q in c.begin.osds && Bucket(c.begin.osds[q]) !in done ==> Untouched(c, t0, st, q)
  {
    hide Inv, Before, Advances, Of;
  }

  lemma {:induction false} PendingSpares(c: Context, order: seq<Pair>, st: State, t0: Trace, p: Pair)
    requires Midway(c, order, t0, VISITED, st) && Before(t0, c.pass) && NoDuplicates(order) && st.waiting == map[] && !st.moved
    requires AllHaveStatus(c.begin.osds) && !HasBucket(c.begin, RemoveWaitingRebalance) && forall q :: q in order <==> q in c.begin.osds
    requires p in c.begin.osds && Bucket(c.begin.osds[p]) != RemovePending
    ensures p in st.info.osds && p in Loop(c, RemovePending, order, st).info.osds && Loop(c, RemovePending, order, st).info.osds[p] == st.info.osds[p]
  {
    hide Inv, Before, Advances, Of, Loop, HasBucket;
    StillNoRebalance(c, order, st, t0);
    PendingLoopKeeps(c, order, st, t0);
  }

  // ------------------------------------------------------------------------ the results

  /** No host is due, so the pass goes on to the OSDs. */
  ghost predicate GoesOn(info: RemoveInfo) {
    forall h :: h in info.hosts ==> !HostDue(info, h)
  }

  /**
   * What a pass makes of every OSD, from the answers about it alone: removal succeeds exactly if all its
   * commands do, a stray is skipped exactly if its id is in the cluster, a rebalance is over exactly if no
   * placement groups are left and fails exactly without an answer or after the timeout, and a running job
   * ends as it was seen.
   */
  lemma {:induction false} AnswersDecide(w: World, i: Input, w': World, p: Pair)
    requires Reachable(w) && Follows(w, i, w') && GoesOn(Collected(w.info)) && p in w.info.osds
    ensures var o, a := Collected(w.info).osds[p], i.env.osd(p);
      && p in w'.info.osds && w'.info.osds[p].remove.Some?
      && var o' := w'.info.osds[p];
      && (PhaseIs(o, RemoveInProgress) ==> PhaseIs(o', if a.scaledDown && a.purged && a.keyringDeleted then RemoveFinished else RemoveFailed))
      && (PhaseIs(o, RemoveStray) ==> PhaseIs(o',
            if a.listed == Some(true) then RemoveSkipped
            else if a.listed == Some(false) && a.scaledDown && a.keyringDeleted then RemoveFinished else RemoveFailed))
      && (PhaseIs(o, RemoveWaitingRebalance) ==>
            var start := o.remove.value.osd.startedAt;
            var late := start.Some? && a.now - start.value >= i.env.rebalanceTimeout;
            && PhaseIs(o', if a.hasPgs == Some(false) then RemoveInProgress else if a.hasPgs.None? || late then RemoveFailed else RemoveWaitingRebalance)
            && o'.remove.value.osd.startedAt == start)
      && (JobIs(o, RemoveInProgress) && !o.skipCleanup ==>
            JobIs(o', if a.job == Some(JobSucceeded) then RemoveCompleted
                      else if a.job.None? || a.job == Some(JobFailed) then RemoveFailed else RemoveInProgress))
  {
    hide Inv, Before, HostDue, Continued, Answered, Collected, JobAnswered, Of;
    var begin := Collected(w.info);
    var c := Context(i.env, w.passes, begin);
    CollectedKeeps(w.info, w.trace);
    CollectedPlain(w.info);
    ContinuedKeeps(c, i.order, w.trace);
    var o, o' := begin.osds[p], w'.info.osds[p];
    var b := Bucket(o);
    if b in {RemoveStray, RemoveInProgress, RemoveWaitingRebalance} {
      ContinuedAnswers(c, i.order, w.trace, b, p);
      AnsweredMeans(c, b, w'.info.osds, p);
    } else if JobIs(o, RemoveInProgress) && !o.skipCleanup {
      RunningListed(begin.osds, w.trace, p);
      ContinuedJobAnswered(c, i.order, w.trace, p);
      JobAnsweredMeans(c, w'.info.osds, p);
    }
    JobOnlyRemoved(begin.osds, w.trace, p);
    StatusKept(begin.osds, w'.info.osds, p);
  }

  lemma {:induction false} StatusKept(osds: map<Pair, Osd>, osds': map<Pair, Osd>, p: Pair)
    requires AllAdvance(osds, osds') && p in osds && osds[p].remove.Some?
    ensures p in osds' && osds'[p].remove.Some?
  {
    assert Advances(osds[p], osds'[p]);
  }

  lemma {:induction false} JobOnlyRemoved(osds: map<Pair, Osd>, trace: Trace, p: Pair)
    requires Inv(osds, trace) && p in osds
    ensures JobIs(osds[p], RemoveInProgress) ==> Removed(osds[p])
  {
    hide Of, OneJobPerHost, OneRebalance, ZapSafe, Evidence, Once, Backed, Recorded;
  }

  lemma {:induction false} RunningListed(osds: map<Pair, Osd>, trace: Trace, p: Pair)
    requires Inv(osds, trace) && p in osds && JobIs(osds[p], RemoveInProgress)
    ensures Bucket(osds[p]) == RemoveFinished
  {
    JobOnlyRemoved(osds, trace, p);
  }

  lemma {:induction false} AnsweredMeans(c: Context, b: RemovePhase, osds: map<Pair, Osd>, p: Pair)
    requires p in c.begin.osds && c.begin.osds[p].remove.Some? && Bucket(c.begin.osds[p]) == b && Answered(c, b, osds, p)
    requires b in {RemoveStray, RemoveInProgress, RemoveWaitingRebalance}
    ensures var o, o', a := c.begin.osds[p], osds[p], c.env.osd(p);
      && (b == RemoveInProgress ==> PhaseIs(o', if a.scaledDown && a.purged && a.keyringDeleted then RemoveFinished else RemoveFailed))
      && (b == RemoveStray ==> PhaseIs(o',
            if a.listed == Some(true) then RemoveSkipped
            else if a.listed == Some(false) && a.scaledDown && a.keyringDeleted then RemoveFinished else RemoveFailed))
      && (b == RemoveWaitingRebalance ==>
            var start := o.remove.value.osd.startedAt;
            var late := start.Some? && a.now - start.value >= c.env.rebalanceTimeout;
            && PhaseIs(o', if a.hasPgs == Some(false) then RemoveInProgress else if a.hasPgs.None? || late then RemoveFailed else RemoveWaitingRebalance)
            && o'.remove.value.osd.startedAt == start)
  {
  }

  lemma {:induction false} JobAnsweredMeans(c: Context, osds: map<Pair, Osd>, p: Pair)
    requires JobAnswered(c, osds, p)
    ensures var a := c.env.osd(p);
      JobIs(osds[p], if a.job == Some(JobSucceeded) then RemoveCompleted else if a.job.None? || a.job == Some(JobFailed) then RemoveFailed else RemoveInProgress)
  {
  }

  /**
   * A pending OSD leaves its phase only as its answers say: to the rebalance, from now on, if it is up, and, if it is in, may be
   * stopped and was reweighted; straight to removal if it is down, and reweighted if it is in; it fails without an
   * answer, without the reweight, or if it must not be stopped and the timeout is over.
   */
  lemma {:induction false} AnswersDecidePending(w: World, i: Input, w': World, p: Pair)
    requires Reachable(w) && Follows(w, i, w') && GoesOn(Collected(w.info)) && p in w.info.osds
    requires PhaseIs(Collected(w.info).osds[p], RemovePending)
    ensures var a := i.env.osd(p); var start := Collected(w.info).osds[p].remove.value.osd.startedAt;
      && p in w'.info.osds && var o' := w'.info.osds[p];
      var late := (if start.Some? then a.now - start.value else 0) >= i.env.rebalanceTimeout;
      || PhaseIs(o', RemovePending)
      || (PhaseIs(o', RemoveWaitingRebalance) && o'.remove.value.osd.startedAt == Some(a.now)
          && a.state.Some? && a.state.value.isUp && (a.state.value.isIn ==> a.okToStop && a.reweighted))
      || (PhaseIs(o', RemoveInProgress) && a.state.Some? && !a.state.value.isUp && (a.state.value.isIn ==> a.reweighted))
      || (PhaseIs(o', RemoveFailed) && (a.state.None?
            || (a.state.value.isIn && (if a.state.value.isUp && !a.okToStop then late else !a.reweighted))))
  {
    hide Inv, Before, HostDue, Continued, Tried, Collected, Of;
    var begin := Collected(w.info);
    var c := Context(i.env, w.passes, begin);
    CollectedKeeps(w.info, w.trace);
    CollectedPlain(w.info);
    assert Bucket(begin.osds[p]) == RemovePending;
    ContinuedTried(c, i.order, w.trace, p);
    TriedMeans(c, w'.info.osds, p);
  }

  lemma {:induction false} TriedMeans(c: Context, osds: map<Pair, Osd>, p: Pair)
    requires p in c.begin.osds && c.begin.osds[p].remove.Some? && Tried(c, osds, p)
    ensures var a := c.env.osd(p); var start := c.begin.osds[p].remove.value.osd.startedAt;
      && p in osds && var o' := osds[p];
      var late := (if start.Some? then a.now - start.value else 0) >= c.env.rebalanceTimeout;
      || PhaseIs(o', RemovePending)
      || (PhaseIs(o', RemoveWaitingRebalance) && o'.remove.value.osd.startedAt == Some(a.now)
          && a.state.Some? && a.state.value.isUp && (a.state.value.isIn ==> a.okToStop && a.reweighted))
      || (PhaseIs(o', RemoveInProgress) && a.state.Some? && !a.state.value.isUp && (a.state.value.isIn ==> a.reweighted))
      || (PhaseIs(o', RemoveFailed) && (a.state.None?
            || (a.state.value.isIn && (if a.state.value.isUp && !a.okToStop then late else !a.reweighted))))
  {
  }

  // -------------------------------------------------------------------- how long a rebalance takes

  /** One pass of the wait: it starts now, or went on with the start time kept and the timeout not over. */
  ghost predicate Waited(o: Osd, o': Osd, a: Answers, timeout: int, asked: bool)
    requires PhaseIs(o', RemoveWaitingRebalance)
  {
    if PhaseIs(o, RemoveWaitingRebalance)
    then
      var start := o.remove.value.osd.startedAt;
      && o'.remove.value.osd.startedAt == start
      && (asked ==> a.hasPgs == Some(true) && (start.Some? ==> a.now - start.value < timeout))
    else asked && o'.remove.value.osd.startedAt == Some(a.now)
  }

  lemma {:induction false} WaitsOn(w: World, i: Input, w': World, p: Pair)
    requires Reachable(w) && Follows(w, i, w') && p in w.info.osds && p in w'.info.osds && PhaseIs(w'.info.osds[p], RemoveWaitingRebalance)
    ensures Waited(w.info.osds[p], w'.info.osds[p], i.env.osd(p), i.env.rebalanceTimeout, GoesOn(Collected(w.info)))
  {
    hide Inv, Before, HostDue, Continued, RemoveHosts, Of, Collected, AllAdvance;
    var begin := Collected(w.info);
    CollectedKeeps(w.info, w.trace);
    CollectedPlain(w.info);
    BegunNotWaiting(w.info, p);
    if exists h :: h in begin.hosts && HostDue(begin, h) {
      RemoveHostsKeeps(Context(i.env, w.passes, begin), i.hostOrder, State(begin, w.trace, 0, true, map[], false));
    } else {
      AskedWaitsOn(w, i, w', p);
    }
  }

  lemma {:induction false} AskedWaitsOn(w: World, i: Input, w': World, p: Pair)
    requires Reachable(w) && Follows(w, i, w') && p in w.info.osds && p in w'.info.osds && PhaseIs(w'.info.osds[p], RemoveWaitingRebalance)
    requires GoesOn(Collected(w.info))
    ensures Waited(w.info.osds[p], w'.info.osds[p], i.env.osd(p), i.env.rebalanceTimeout, true)
  {
    hide Reachable, Follows, GoesOn, Collected;
    BegunNotWaiting(w.info, p);
    AskedFrom(w, i, w', p);
    AnswersDecide(w, i, w', p);
    if PhaseIs(Collected(w.info).osds[p], RemovePending) {
      AnswersDecidePending(w, i, w', p);
    } else if PhaseIs(w.info.osds[p], RemoveWaitingRebalance) {
      match i.env.osd(p).hasPgs
      case None =>
      case Some(_) =>
    }
  }

  lemma {:induction false} AskedFrom(w: World, i: Input, w': World, p: Pair)
    requires Reachable(w) && Follows(w, i, w') && p in w.info.osds && p in w'.info.osds && PhaseIs(w'.info.osds[p], RemoveWaitingRebalance)
    requires GoesOn(Collected(w.info))
    ensures p in Collected(w.info).osds && Collected(w.info).osds[p].remove.Some?
    ensures Collected(w.info).osds[p].remove.value.osd.phase in {RemovePending, RemoveStray, RemoveInProgress, RemoveWaitingRebalance}
  {
    hide Inv, Before, HostDue, Continued, Of, Collected, AllAdvance, PhaseIs, Advances;
    BegunNotWaiting(w.info, p);
    CollectedKeeps(w.info, w.trace);
    CollectedPlain(w.info);
    ContinuedKeeps(Context(i.env, w.passes, Collected(w.info)), i.order, w.trace);
    ToWaiting(Collected(w.info).osds, w'.info.osds, p);
  }

  lemma {:induction false} BegunNotWaiting(info: RemoveInfo, p: Pair)
    requires p in info.osds
    ensures p in Collected(info).osds && Collected(info).osds[p].remove.Some?
    ensures PhaseIs(Collected(info).osds[p], RemoveWaitingRebalance) <==> PhaseIs(info.osds[p], RemoveWaitingRebalance)
    ensures info.osds[p].remove.Some? ==> Collected(info).osds[p] == info.osds[p]
  {
  }

  /** Nothing but a pending OSD starts to wait, apart from the phases whose answers decide. */
  lemma {:induction false} ToWaiting(osds: map<Pair, Osd>, osds': map<Pair, Osd>, p: Pair)
    requires AllAdvance(osds, osds') && p in osds && osds[p].remove.Some? && p in osds' && PhaseIs(osds'[p], RemoveWaitingRebalance)
    ensures osds[p].remove.value.osd.phase in {RemovePending, RemoveStray, RemoveInProgress, RemoveWaitingRebalance}
  {
    assert Advances(osds[p], osds'[p]);
  }

  /**
   * An OSD that is draining started to in an earlier pass, which fixed its start time, and in every pass that
   * asked about it since, placement groups were left and the time since the start was below the timeout.
   */
  lemma {:induction false} RebalanceWithinTimeout(ws: seq<World>, ins: seq<Input>, k: nat, p: Pair) returns (j: nat)
    requires IsRun(ws, ins) && k < |ws| && p in ws[k].info.osds && PhaseIs(ws[k].info.osds[p], RemoveWaitingRebalance)
    ensures j < k && ws[k].info.osds[p].remove.value.osd.startedAt == Some(ins[j].env.osd(p).now)
    ensures forall m :: j < m < k && GoesOn(Collected(ws[m].info)) ==>
      var a := ins[m].env.osd(p); a.hasPgs == Some(true) && a.now - ins[j].env.osd(p).now < ins[m].env.rebalanceTimeout
  {
    hide Reachable, Follows, GoesOn, Collected, AllAdvance, HostsAdvance;
    if k == 0 { assert false; }
    var w, w' := ws[k - 1], ws[k];
    assert Follows(w, ins[k - 1], w');
    RunReachable(ws, ins, k - 1);
    NextReachable(w, ins[k - 1], w');
    SameOsds(w.info.osds, w'.info.osds, p);
    WaitsOn(w, ins[k - 1], w', p);
    if PhaseIs(w.info.osds[p], RemoveWaitingRebalance) {
      j := RebalanceWithinTimeout(ws, ins, k - 1, p);
    } else {
      j := k - 1;
    }
  }

  lemma {:induction false} SameOsds(osds: map<Pair, Osd>, osds': map<Pair, Osd>, p: Pair)
    requires AllAdvance(osds, osds') && p in osds'
    ensures p in osds
  {
  }
}
