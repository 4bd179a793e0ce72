/**
 * What it means that a pass reports the removal as finished without issues: everything that was
 * approved is done; and a map in which everything is done is recognised as such.
 */
module ExecutorCompletion {
  import opened Wrappers
  import opened RemovalPlan
  import opened Executor
  import opened ExecutorInvariants
  import opened ExecutorPass
  import opened ExecutorRuns
  import opened ExecutorProgress

  /** The OSD is gone, its disks are cleaned or left alone on purpose, its deployment likewise. */
  predicate Settled(o: Osd) {
    && Removed(o) && JobDone(o)
    && o.remove.value.deploy.Some?
    && (o.remove.value.deploy.value.phase == RemoveFinished || o.remove.value.deploy.value.phase == RemoveSkipped)
  }

  ghost predicate Complete(info: RemoveInfo) {
    && (forall p :: p in info.osds ==> Settled(info.osds[p]))
    && (forall h :: h in info.hosts && (info.hosts[h].completeCleanup || info.hosts[h].dropFromCrush) ==>
          info.hosts[h].removed.Some?)
  }

  lemma {:induction false} SettledStays(o: Osd, o': Osd)
    requires Advances(o, o') && Settled(o)
    ensures Settled(o')
  {
  }

  // ------------------------------------------------------- counting in the loops

  /** The counter and the issues only grow. */
  ghost predicate Grows(st: State, st': State) {
    st.notCompleted <= st'.notCompleted && st.info.issues <= st'.info.issues
  }

  lemma {:induction false} DeployGrows(c: Context, p: Pair, st: State)
    requires Covers(c, st) && p in st.info.osds
    ensures Grows(st, DeployStep(c, p, st))
  {
    hide Tagged, RemoveDeployment;
  }

  lemma {:induction false} FinishedGrows(c: Context, p: Pair, st: State)
    requires Covers(c, st) && p in st.info.osds
    ensures Grows(st, FinishedStep(c, p, st))
  {
    hide HandleJobRun, HasBucket, PendingListEmpty, SkipsJob, DeployStep, WithEvents;
    var res := st.info.osds[p].remove.value;
    if !JobOpen(res.job) {
      DeployGrows(c, p, st);
    } else if SkipsJob(st.info.hosts[p.host], st.info.osds[p]) {
      WithCovers(c, p, st, res.(job := Some(Just(RemoveSkipped))), []);
      DeployGrows(c, p, WithResult(st, p, res.(job := Some(Just(RemoveSkipped)))));
    } else {
      JobGrows(c, p, st);
    }
  }

  lemma {:induction false} JobGrows(c: Context, p: Pair, st: State)
    requires Covers(c, st) && p in st.info.osds
    requires JobOpen(st.info.osds[p].remove.value.job) && !SkipsJob(st.info.hosts[p.host], st.info.osds[p])
    ensures Grows(st, FinishedStep(c, p, st))
  {
    hide Tagged, HandleJobRun, HasBucket, PendingListEmpty, SkipsJob, DeployStep;
    var out := HandleJobRun(st.info.osds, p, c.env.osd(p));
    var r' := st.info.osds[p].remove.value.(job := Some(out.status));
    WithCovers(c, p, st, r', out.actions);
    DeployGrows(c, p, WithEvents(WithResult(st, p, r'), c.pass, p, out.actions));
  }

  lemma {:induction false} StepGrows(c: Context, b: RemovePhase, p: Pair, st: State)
    requires Covers(c, st) && p in st.info.osds
    ensures Grows(st, Step(c, b, p, st))
    ensures b != RemoveFinished && (b == RemovePending ==> !st.moved) ==> Step(c, b, p, st).notCompleted > st.notCompleted
  {
    hide FinishedStep, OsdOutcome, Tagged, Covers, WellFormed, AllHaveStatus, ResetWaiting;
    FinishedGrows(c, p, st);
  }

  lemma {:induction false} LoopGrows(c: Context, b: RemovePhase, order: seq<Pair>, st: State)
    requires Covers(c, st) && forall p :: p in order ==> p in c.begin.osds
    ensures Grows(st, Loop(c, b, order, st))
  {
    hide Step;
    if order != [] {
      LoopGrows(c, b, order[..|order| - 1], st);
      StepGrows(c, b, order[|order| - 1], Loop(c, b, order[..|order| - 1], st));
    }
  }

  /** A list that is not empty is counted. */
  lemma {:induction false} LoopCounts(c: Context, b: RemovePhase, order: seq<Pair>, st: State)
    requires Covers(c, st) && (forall p :: p in order ==> p in c.begin.osds) && b != RemoveFinished
    requires exists p :: p in order && Bucket(c.begin.osds[p]) == b
    requires b == RemovePending ==> !st.moved
    ensures Loop(c, b, order, st).notCompleted > st.notCompleted
  {
    hide Step;
    var last := |order| - 1;
    var init, p := order[..last], order[last];
    assert forall q :: q in order <==> q in init || q == p;
    if q :| q in init && Bucket(c.begin.osds[q]) == b {
      LoopCounts(c, b, init, st);
    } else {
      LoopNone(c, b, init, st);
    }
    StepGrows(c, b, p, Loop(c, b, init, st));
  }

  lemma {:induction false} DeploySettles(c: Context, p: Pair, st: State)
    requires Covers(c, st) && p in st.info.osds && Removed(st.info.osds[p]) && JobDone(st.info.osds[p])
    requires Shape(st.info.osds[p].remove.value)
    ensures var st' := DeployStep(c, p, st);
      st'.notCompleted == st.notCompleted && st'.info.issues == {} ==> Settled(st'.info.osds[p])
  {
    hide Tagged, RemoveDeployment, WellFormed;
    if st.info.osds[p].remove.value.deploy.Some? && st.info.osds[p].remove.value.deploy.value.phase == RemoveFailed {
      assert DeploymentRemoveFailed(p) in DeployStep(c, p, st).info.issues;
    }
  }

  lemma {:induction false} SkippedSettles(c: Context, p: Pair, st: State)
    requires Covers(c, st) && p in st.info.osds && Removed(st.info.osds[p]) && Shape(st.info.osds[p].remove.value)
    requires JobOpen(st.info.osds[p].remove.value.job) && SkipsJob(st.info.hosts[p.host], st.info.osds[p])
    ensures var st' := FinishedStep(c, p, st);
      st'.notCompleted == st.notCompleted && st'.info.issues == {} ==> Settled(st'.info.osds[p])
  {
    hide DeployStep, Settled;
    var r' := st.info.osds[p].remove.value.(job := Some(Just(RemoveSkipped)));
    WithCovers(c, p, st, r', []);
    DeploySettles(c, p, WithResult(st, p, r'));
  }

  lemma {:induction false} JobSettles(c: Context, p: Pair, st: State)
    requires Covers(c, st) && p in st.info.osds && Removed(st.info.osds[p]) && Shape(st.info.osds[p].remove.value)
    requires JobOpen(st.info.osds[p].remove.value.job) && !SkipsJob(st.info.hosts[p.host], st.info.osds[p])
    ensures var st' := FinishedStep(c, p, st);
      st'.notCompleted == st.notCompleted && st'.info.issues == {} ==> Settled(st'.info.osds[p])
  {
    hide Tagged, HandleJobRun, HasBucket, PendingListEmpty, SkipsJob, DeployStep, Settled, Shape;
    var res := st.info.osds[p].remove.value;
    var out := HandleJobRun(st.info.osds, p, c.env.osd(p));
    var r' := res.(job := Some(out.status));
    WithCovers(c, p, st, r', out.actions);
    JobFollows(st.info.osds, p, c.env.osd(p));
    if out.status.phase == RemoveCompleted {
      DeploySettles(c, p, WithEvents(WithResult(st, p, r'), c.pass, p, out.actions));
    }
  }

  /** A removed OSD that is neither counted nor an issue is settled. */
  lemma {:induction false} FinishedSettles(c: Context, p: Pair, st: State)
    requires Covers(c, st) && p in st.info.osds && Removed(st.info.osds[p]) && Shape(st.info.osds[p].remove.value)
    ensures var st' := FinishedStep(c, p, st);
      st'.notCompleted == st.notCompleted && st'.info.issues == {} ==> Settled(st'.info.osds[p])
  {
    hide HandleJobRun, HasBucket, PendingListEmpty, SkipsJob, DeployStep, Settled;
    var job := st.info.osds[p].remove.value.job;
    if JobOpen(job) {
      if SkipsJob(st.info.hosts[p.host], st.info.osds[p]) {
        SkippedSettles(c, p, st);
      } else {
        JobSettles(c, p, st);
      }
    } else if job.value.phase == RemoveCompleted || job.value.phase == RemoveSkipped {
      DeploySettles(c, p, st);
    }
  }

  /** A job that is still open leaves no room for a deployment status. */
  lemma {:induction false} JobFollows(osds: map<Pair, Osd>, p: Pair, a: Answers)
    requires p in osds && Removed(osds[p]) && Shape(osds[p].remove.value) && JobOpen(osds[p].remove.value.job)
    ensures Shape(osds[p].remove.value.(job := Some(HandleJobRun(osds, p, a).status)))
  {
    hide ParallelJob, JobDevices;
  }

  lemma {:induction false} LoopSettles(c: Context, order: seq<Pair>, st: State, t0: Trace)
    requires Sound(c, st) && Before(t0, c.pass) && NoDuplicates(order)
    requires forall p :: p in order ==> p in c.begin.osds
    requires forall p :: p in order && Bucket(c.begin.osds[p]) == RemoveFinished ==> Untouched(c, t0, st, p)
    ensures var st' := Loop(c, RemoveFinished, order, st);
      st'.notCompleted == st.notCompleted && st'.info.issues == {} ==>
        forall p :: p in order && Bucket(c.begin.osds[p]) == RemoveFinished ==> Settled(st'.info.osds[p])
  {
    hide Inv, Before, Advances, Of, Step, Settled;
    if order != [] {
      var last := |order| - 1;
      var init, p := order[..last], order[last];
      assert order == init + [p] && p !in init;
      LoopSettles(c, init, st, t0);
      LoopKeeps(c, RemoveFinished, init, st, t0);
      LoopGrows(c, RemoveFinished, init, st);
      var st' := Loop(c, RemoveFinished, init, st);
      if Bucket(c.begin.osds[p]) == RemoveFinished {
        assert Untouched(c, t0, st, p);
        SettleStep(c, p, st');
      }
    }
  }

  /** One OSD of the list settles, and those that have settled stay so. */
  lemma {:induction false} SettleStep(c: Context, p: Pair, st: State)
    requires Sound(c, st) && p in c.begin.osds && Bucket(c.begin.osds[p]) == RemoveFinished && st.info.osds[p] == c.begin.osds[p]
    ensures var st' := Step(c, RemoveFinished, p, st);
      && st'.notCompleted >= st.notCompleted && st.info.issues <= st'.info.issues
      && (st'.notCompleted == st.notCompleted && st'.info.issues == {} ==> Settled(st'.info.osds[p]))
      && forall q :: q in st.info.osds && Settled(st.info.osds[q]) ==> Settled(st'.info.osds[q])
  {
    hide Inv, Before, Advances, Of, FinishedStep, Settled;
    StepGrows(c, RemoveFinished, p, st);
    LocalAt(c, st, p);
    FinishedSettles(c, p, st);
    FinishedKeeps(c, p, st);
    var st' := FinishedStep(c, p, st);
    StepReaches(c, RemoveFinished, [p], p, st, st');
    forall q | q in st.info.osds && Settled(st.info.osds[q]) ensures Settled(st'.info.osds[q]) {
      SettledStays(st.info.osds[q], st'.info.osds[q]);
    }
  }

  // ---------------------------------------------------------------- a whole pass

  /** Nothing is counted and no issue is raised only if every list but the finished one is empty. */
  lemma {:induction false} HandledCounts(c: Context, order: seq<Pair>, st: State, t0: Trace)
    requires Midway(c, order, t0, {}, st) && Covers(c, st) && Before(t0, c.pass) && NoDuplicates(order)
    requires forall p :: p in order <==> p in c.begin.osds
    requires Handled(c, order, st).notCompleted == st.notCompleted && Handled(c, order, st).info.issues == {}
    ensures !HasBucket(c.begin, RemoveStray) && !HasBucket(c.begin, RemoveInProgress)
    ensures !HasBucket(c.begin, RemoveWaitingRebalance)
    ensures Handled(c, order, st) == Loop(c, RemoveFinished, order, st)
    ensures st.info.issues == {}
  {
    hide Loop, Before, Midway, WellFormed;
    var st1 := Loop(c, RemoveFinished, order, st);
    var st2 := Loop(c, RemoveStray, order, st1);
    var st3 := Loop(c, RemoveInProgress, order, st2);
    LoopGrows(c, RemoveFinished, order, st);
    LoopGrows(c, RemoveStray, order, st1);
    LoopGrows(c, RemoveInProgress, order, st2);
    LoopGrows(c, RemoveWaitingRebalance, order, st3);
    if HasBucket(c.begin, RemoveStray) { LoopCounts(c, RemoveStray, order, st1); }
    if HasBucket(c.begin, RemoveInProgress) { LoopCounts(c, RemoveInProgress, order, st2); }
    if HasBucket(c.begin, RemoveWaitingRebalance) { LoopCounts(c, RemoveWaitingRebalance, order, st3); }
    LoopNone(c, RemoveStray, order, st1);
    LoopNone(c, RemoveInProgress, order, st2);
    LoopNone(c, RemoveWaitingRebalance, order, st3);
  }

  lemma {:induction false} ContinuedCompletes(c: Context, order: seq<Pair>, trace: Trace)
    requires WellFormed(c.begin) && AllHaveStatus(c.begin.osds) && IsOrder(order, c.begin.osds.Keys)
    requires Inv(c.begin.osds, trace) && Before(trace, c.pass)
    requires Continued(c, order, trace).finished && Continued(c, order, trace).info.issues == {}
    ensures forall p :: p in c.begin.osds ==> Removed(c.begin.osds[p]) && Settled(Continued(c, order, trace).info.osds[p])
  {
    hide Inv, Before, Of, Handled, Loop, Settled, Advances;
    var st := Initial(c.begin, trace);
    InitialCovers(c, trace);
    BeginsMidway(c, order, trace);
    var st4 := Handled(c, order, st);
    HandledWaiting(c, order, st);
    if !HasBucket(c.begin, RemoveFailed) {
      LoopGrows(c, RemovePending, order, st4);
      if HasBucket(c.begin, RemovePending) { LoopCounts(c, RemovePending, order, st4); }
      LoopNone(c, RemovePending, order, st4);
    }
    HandledCounts(c, order, st, trace);
    assert !HasBucket(c.begin, RemoveFailed) by { NoFailedIssues(c.begin); }
    LoopSettles(c, order, st, trace);
    forall p | p in c.begin.osds ensures Removed(c.begin.osds[p]) {
      NotCompleted(p, c.begin.osds, trace);
    }
  }

  lemma {:induction false} NoFailedIssues(info: RemoveInfo)
    requires AllHaveStatus(info.osds) && FailedIssues(info) == {}
    ensures !HasBucket(info, RemoveFailed)
  {
    assert forall p :: p in info.osds && Bucket(info.osds[p]) == RemoveFailed ==> OsdRemoveFailed(p) in FailedIssues(info);
  }

  lemma {:induction false} NotCompleted(p: Pair, osds: map<Pair, Osd>, trace: Trace)
    requires Inv(osds, trace) && p in osds && osds[p].remove.Some?
    ensures Bucket(osds[p]) != RemoveCompleted
  {
    hide Of, OneJobPerHost, OneRebalance, ZapSafe;
    assert Local(p, osds[p], Of(trace, p));
  }

  // ------------------------------------------------------------- the main results

  /**
   * If a pass of a run reports finished without issues, every OSD is removed or skipped, every
   * cleanup job completed or skipped, every deployment removed or skipped, and every host marked
   * for removal was handled.
   */
  lemma {:induction false} FinishedMeansComplete(w: World, i: Input, w': World)
    requires Reachable(w) && Follows(w, i, w')
    requires ResultOf(w, i).finished && w'.info.issues == {}
    ensures Complete(w'.info)
  {
    hide Inv, Before, Of, RemoveHosts, Continued, Settled, Collected, HostDue, AllAdvance;
    var begin := Collected(w.info);
    var c := Context(i.env, w.passes, begin);
    CollectedKeeps(w.info, w.trace);
    CollectedPlain(w.info);
    ContinuedCompletes(c, i.order, w.trace);
    ContinuedHosts(c, i.order, w.trace);
    HostsHandled(begin);
    SameKeys(c, i.order, w.trace);
  }

  lemma {:induction false} SameKeys(c: Context, order: seq<Pair>, trace: Trace)
    requires WellFormed(c.begin) && AllHaveStatus(c.begin.osds) && forall p :: p in order ==> p in c.begin.osds
    ensures Continued(c, order, trace).info.osds.Keys == c.begin.osds.Keys
  {
  }

  lemma {:induction false} HostsHandled(info: RemoveInfo)
    requires forall h :: h in info.hosts ==> !HostDue(info, h)
    requires forall p :: p in info.osds ==> Removed(info.osds[p])
    ensures forall h :: h in info.hosts && (info.hosts[h].completeCleanup || info.hosts[h].dropFromCrush) ==>
      info.hosts[h].removed.Some?
  {
    forall h | h in info.hosts && (info.hosts[h].completeCleanup || info.hosts[h].dropFromCrush)
      ensures info.hosts[h].removed.Some?
    {
      NotDue(info, h);
    }
  }

  lemma {:induction false} NotDue(info: RemoveInfo, h: string)
    requires h in info.hosts && !HostDue(info, h) && (info.hosts[h].completeCleanup || info.hosts[h].dropFromCrush)
    requires forall p :: p in info.osds ==> Removed(info.osds[p])
    ensures info.hosts[h].removed.Some?
  {
  }

  lemma {:induction false} ContinuedHosts(c: Context, order: seq<Pair>, trace: Trace)
    requires WellFormed(c.begin) && AllHaveStatus(c.begin.osds) && forall p :: p in order ==> p in c.begin.osds
    ensures Continued(c, order, trace).info.hosts == c.begin.hosts
  {
  }

  /** The same over whole runs. */
  lemma {:induction false} RunFinishedMeansComplete(ws: seq<World>, ins: seq<Input>, k: nat)
    requires IsRun(ws, ins) && k < |ins| && Follows(ws[k], ins[k], ws[k + 1])
    requires ResultOf(ws[k], ins[k]).finished && ws[k + 1].info.issues == {}
    ensures Complete(ws[k + 1].info)
  {
    hide Follows, Reachable, Starts, Complete;
    RunReachable(ws, ins, k);
    FinishedMeansComplete(ws[k], ins[k], ws[k + 1]);
  }

  /** A complete map is left as it is and reported as finished without issues, with no command issued. */
  lemma {:induction false} CompleteIsFinished(w: World, i: Input, w': World)
    requires Complete(w.info) && Follows(w, i, w')
    ensures ResultOf(w, i).finished && w'.info == w.info.(issues := {}) && w'.trace == w.trace
  {
    hide HostDue, RemoveHosts, Handled, Loop, Collected, Settled, FailedIssues, HasBucket;
    CompleteBegins(w.info);
    var c := Context(i.env, w.passes, Collected(w.info));
    var st := Initial(c.begin, w.trace);
    InitialCovers(c, w.trace);
    LoopIdle(c, i.order, st);
    LoopNone(c, RemoveStray, i.order, st);
    LoopNone(c, RemoveInProgress, i.order, st);
    LoopNone(c, RemoveWaitingRebalance, i.order, st);
    LoopNone(c, RemovePending, i.order, st);
    assert Handled(c, i.order, st) == st by { HandledIdle(c, i.order, st); }
  }

  lemma {:induction false} CompleteBegins(info: RemoveInfo)
    requires WellFormed(info) && Complete(info)
    ensures Collected(info) == info && AllHaveStatus(info.osds) && FailedIssues(info) == {}
    ensures forall h :: h in info.hosts ==> !HostDue(info, h)
    ensures forall p :: p in info.osds ==> Bucket(info.osds[p]) == RemoveFinished
    ensures !HasBucket(info, RemoveWaitingRebalance) && !HasBucket(info, RemoveFailed)
  {
  }

  lemma {:induction false} LoopIdle(c: Context, order: seq<Pair>, st: State)
    requires Covers(c, st) && (forall p :: p in order ==> p in c.begin.osds)
    requires forall p :: p in st.info.osds ==> Settled(st.info.osds[p])
    ensures Loop(c, RemoveFinished, order, st) == st
  {
    if order != [] {
      LoopIdle(c, order[..|order| - 1], st);
    }
  }

  lemma {:induction false} HandledIdle(c: Context, order: seq<Pair>, st: State)
    requires Covers(c, st) && (forall p :: p in order ==> p in c.begin.osds)
    requires Loop(c, RemoveFinished, order, st) == st && Loop(c, RemoveStray, order, st) == st
    requires Loop(c, RemoveInProgress, order, st) == st && Loop(c, RemoveWaitingRebalance, order, st) == st
    ensures Handled(c, order, st) == st
  {
    hide Loop;
  }
}
