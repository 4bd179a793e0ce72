/**
 * Passes over a cleanup map with a single OSD, for the examples.
 */
module SingleOsd {
  import opened Wrappers
  import opened RemovalPlan
  import opened Executor
  import opened ExecutorRuns
  import opened ExecutorProgress

  /** One OSD on one host that is not marked for removal itself. */
  ghost predicate OneOsd(info: RemoveInfo, p: Pair, o: Osd) {
    && info.osds == map[p := o] && info.hosts == map[p.host := Host(false, false, false, false, None)]
    && info.issues == {} && info.warnings == []
  }

  lemma {:induction false} OneOsdInput(info: RemoveInfo, p: Pair, o: Osd)
    requires OneOsd(info, p, o)
    ensures ValidInput(info, [p], [p.host])
  {
  }

  lemma {:induction false} NoHostDue(info: RemoveInfo, p: Pair, o: Osd)
    requires OneOsd(info, p, o)
    ensures !exists h :: h in info.hosts && HostDue(info, h)
  {
  }

  /** The loop over its list handles the OSD. */
  lemma {:induction false} LoopAlone(c: Context, b: RemovePhase, p: Pair, st: State)
    requires Covers(c, st) && c.begin.osds.Keys == {p} && Bucket(c.begin.osds[p]) == b
    ensures Loop(c, b, [p], st) == Step(c, b, p, st)
  {
    hide Step;
    assert [p][..0] == [];
    assert Loop(c, b, [], st) == st;
  }

  // --------------------------------------------------------------- a stray is removed

  function FinishedResult(): RemoveResult {
    RemoveResult(Just(RemoveFinished), None, None)
  }

  /** A stray in the CRUSH map is removed from the cluster in its first pass. */
  lemma {:induction false} StrayRemoved(info: RemoveInfo, p: Pair, o: Osd, trace: Trace, n: nat, env: Env)
    requires OneOsd(info, p, o) && o.remove.None? && IsStray(p) && o.inCrushMap && ValidInput(info, [p], [p.host])
    requires env.osd(p).scaledDown && env.osd(p).purged && env.osd(p).keyringDeleted
    ensures OneOsd(Pass(info, trace, n, env, [p], [p.host]).info, p, o.(remove := Some(FinishedResult())))
  {
    hide Continued, HostDue, IsStray;
    var begun := o.(remove := Some(RemoveResult(Just(RemoveInProgress), None, None)));
    var begin := Collected(info);
    assert begin.osds == map[p := begun];
    NoHostDue(begin, p, begun);
    StrayContinued(Context(env, n, begin), p, begun, trace);
  }

  lemma {:induction false} StrayContinued(c: Context, p: Pair, o: Osd, trace: Trace)
    requires OneOsd(c.begin, p, o) && o.remove == Some(RemoveResult(Just(RemoveInProgress), None, None))
    requires c.env.osd(p).scaledDown && c.env.osd(p).purged && c.env.osd(p).keyringDeleted
    requires WellFormed(c.begin) && AllHaveStatus(c.begin.osds)
    ensures OneOsd(Continued(c, [p], trace).info, p, o.(remove := Some(FinishedResult())))
  {
    hide Loop, Step;
    var st := Initial(c.begin, trace);
    InitialCovers(c, trace);
    assert FailedIssues(c.begin) == {};
    LoopNone(c, RemoveFinished, [p], st);
    LoopNone(c, RemoveStray, [p], st);
    LoopAlone(c, RemoveInProgress, p, st);
    var st' := Step(c, RemoveInProgress, p, st);
    PurgeStep(c, p, st);
    LoopNone(c, RemoveWaitingRebalance, [p], st');
    LoopNone(c, RemovePending, [p], st');
  }

  lemma {:induction false} PurgeStep(c: Context, p: Pair, st: State)
    requires Covers(c, st) && p in st.info.osds && st.info.osds[p].remove.value.osd == Just(RemoveInProgress)
    requires c.env.osd(p).scaledDown && c.env.osd(p).purged && c.env.osd(p).keyringDeleted
    ensures var res := st.info.osds[p].remove.value;
      Step(c, RemoveInProgress, p, st).info == WithResult(st, p, res.(osd := Just(RemoveFinished))).info
  {
    hide Tagged, WellFormed;
  }

  // ------------------------------------------------------------------- its disk is wiped

  /** The cleanup job of a removed OSD that is alone on its disks gets them as they are. */
  lemma {:induction false} JobStarted(info: RemoveInfo, p: Pair, o: Osd, trace: Trace, n: nat, env: Env)
    requires OneOsd(info, p, o) && o.remove == Some(FinishedResult()) && ValidInput(info, [p], [p.host])
    requires o.devices != map[] && !o.skipCleanup && env.osd(p).jobCreated
    ensures Pass(info, trace, n, env, [p], [p.host]).trace == trace + [OsdEvent(n, p, RanCleanupJob(o.devices, true))]
  {
    hide Continued, HostDue;
    var begin := Collected(info);
    assert begin.osds == info.osds;
    NoHostDue(begin, p, o);
    JobContinued(Context(env, n, begin), p, o, trace);
  }

  lemma {:induction false} JobContinued(c: Context, p: Pair, o: Osd, trace: Trace)
    requires OneOsd(c.begin, p, o) && o.remove == Some(FinishedResult()) && WellFormed(c.begin) && AllHaveStatus(c.begin.osds)
    requires o.devices != map[] && !o.skipCleanup && c.env.osd(p).jobCreated
    ensures Continued(c, [p], trace).trace == trace + [OsdEvent(c.pass, p, RanCleanupJob(o.devices, true))]
  {
    hide Loop, Step, FinishedStep;
    var st := Initial(c.begin, trace);
    InitialCovers(c, trace);
    LoopAlone(c, RemoveFinished, p, st);
    StepFinishes(c, p, st);
    JobAlone(c, p, o, st);
    var st' := FinishedStep(c, p, st);
    LoopNone(c, RemoveStray, [p], st');
    LoopNone(c, RemoveInProgress, [p], st');
    LoopNone(c, RemoveWaitingRebalance, [p], st');
    LoopNone(c, RemovePending, [p], st');
  }

  lemma {:induction false} JobAlone(c: Context, p: Pair, o: Osd, st: State)
    requires Covers(c, st) && st.info.osds == map[p := o] && st.info.hosts == map[p.host := Host(false, false, false, false, None)]
    requires o.remove == Some(FinishedResult()) && o.devices != map[] && !o.skipCleanup && c.env.osd(p).jobCreated
    ensures FinishedStep(c, p, st).trace == st.trace + [OsdEvent(c.pass, p, RanCleanupJob(o.devices, true))]
  {
    hide HasBucket, PendingListEmpty, DeployStep, WellFormed;
    assert !ParallelJob(st.info.osds, p);
    assert JobDevices(st.info.osds, p) == o.devices;
    assert HandleJobRun(st.info.osds, p, c.env.osd(p)).actions == [RanCleanupJob(o.devices, true)];
    assert Tagged(c.pass, p, [RanCleanupJob(o.devices, true)]) == [OsdEvent(c.pass, p, RanCleanupJob(o.devices, true))];
  }
}
