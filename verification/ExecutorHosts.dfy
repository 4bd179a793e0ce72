/**
 * What a removal does to hosts and to the disks on them: when a host is dropped from the CRUSH map,
 * and when a cleanup job is run or skipped.
 */
module ExecutorHosts {
  import opened Wrappers
  import opened RemovalPlan
  import opened Executor
  import opened ExecutorInvariants
  import opened ExecutorPass
  import opened ExecutorRuns

  // ------------------------------------------------------------------ dropped hosts

  /** The answers to the orders to drop a host. */
  function HostLog(trace: Trace, h: string): seq<bool> {
    if trace == [] then []
    else
      var rest := HostLog(trace[..|trace| - 1], h);
      match trace[|trace| - 1]
      case HostEvent(_, host, ok) => if host == h then rest + [ok] else rest
      case OsdEvent(_, _, _) => rest
  }

  lemma {:induction false} HostLogTagged(trace: Trace, pass: nat, p: Pair, actions: seq<Action>, h: string)
    ensures HostLog(trace + Tagged(pass, p, actions), h) == HostLog(trace, h)
  {
    var all := trace + Tagged(pass, p, actions);
    if actions == [] {
      assert all == trace;
    } else {
      var init := actions[..|actions| - 1];
      HostLogTagged(trace, pass, p, init, h);
      assert all[..|all| - 1] == trace + Tagged(pass, p, init);
    }
  }

  ghost predicate SameHosts(trace: Trace, trace': Trace) {
    forall h :: HostLog(trace', h) == HostLog(trace, h)
  }

  /**
   * A host has a remove status exactly if it was ordered to be dropped, once, and the status is the
   * answer; it was marked for that, and all its OSDs are removed.
   */
  ghost predicate HostFits(info: RemoveInfo, trace: Trace, h: string)
    requires h in info.hosts
  {
    var host := info.hosts[h];
    if host.removed.None? then HostLog(trace, h) == []
    else
      && (host.completeCleanup || host.dropFromCrush)
      && (host.removed.value.phase == RemoveFinished || host.removed.value.phase == RemoveFailed)
      && HostLog(trace, h) == [host.removed.value.phase == RemoveFinished]
      && forall p :: p in info.osds && p.host == h ==> Removed(info.osds[p])
  }

  ghost predicate HostsFit(info: RemoveInfo, trace: Trace) {
    && (forall h :: h in info.hosts ==> HostFits(info, trace, h))
    && (forall h :: h !in info.hosts ==> HostLog(trace, h) == [])
  }

  // ------------------------------------------------------------------- cleanup jobs

  /** There is nothing to clean, nobody to do it, or it is not wanted. */
  predicate NoCleanup(h: Host, o: Osd) {
    o.skipCleanup || o.devices == map[] || h.nodeIsDown || h.volumesInfoMissed || h.dropFromCrush
  }

  /** The same devices, with fewer of them to be wiped. */
  predicate Lowered(devices: map<string, Device>, devices': map<string, Device>) {
    && devices'.Keys == devices.Keys
    && forall d :: d in devices ==> devices'[d] == devices[d].(zap := devices'[d].zap) && (devices'[d].zap ==> devices[d].zap)
  }

  /** The cleanup job is skipped exactly if it is not to be run; one that ran was handed the devices of the OSD. */
  ghost predicate JobFits(h: Host, o: Osd, log: seq<Logged>) {
    && (o.remove.Some? && o.remove.value.job.Some? ==> (JobIs(o, RemoveSkipped) <==> NoCleanup(h, o)))
    && forall i :: 0 <= i < |log| && log[i].action.RanCleanupJob? ==> !NoCleanup(h, o) && Lowered(o.devices, log[i].action.devices)
  }

  ghost predicate JobsFit(info: RemoveInfo, trace: Trace) {
    forall p :: p in info.osds && p.host in info.hosts ==> JobFits(info.hosts[p.host], info.osds[p], Of(trace, p))
  }

  /** The state of a pass: jobs fit, and no host was dropped since `trace`. */
  ghost predicate Fit(trace: Trace, st: State) {
    JobsFit(st.info, st.trace) && SameHosts(trace, st.trace)
  }

  lemma {:induction false} JobFitsMore(h: Host, o: Osd, o': Osd, log: seq<Logged>, pass: nat, actions: seq<Action>)
    requires JobFits(h, o, log) && SamePlan(o, o') && o'.remove.Some?
    requires o'.remove.value.job == (if o.remove.Some? then o.remove.value.job else None)
      || (o'.remove.value.job.Some? && (JobIs(o', RemoveSkipped) <==> NoCleanup(h, o)))
    requires forall i :: 0 <= i < |actions| && actions[i].RanCleanupJob? ==> !NoCleanup(h, o) && Lowered(o.devices, actions[i].devices)
    ensures JobFits(h, o', log + LoggedAll(pass, actions))
  {
    var log' := log + LoggedAll(pass, actions);
    forall i | 0 <= i < |log'| && log'[i].action.RanCleanupJob? ensures !NoCleanup(h, o') && Lowered(o'.devices, log'[i].action.devices) {
      if i >= |log| { assert log'[i].action == actions[i - |log|]; }
    }
  }

  /** One update of one OSD with its events. */
  lemma {:induction false} UpdateFits(trace: Trace, st: State, c: Context, p: Pair, r': RemoveResult, actions: seq<Action>)
    requires Fit(trace, st) && p in st.info.osds && p.host in st.info.hosts
    requires var h, o := st.info.hosts[p.host], st.info.osds[p];
      && (r'.job == (if o.remove.Some? then o.remove.value.job else None)
          || (r'.job.Some? && (r'.job.value.phase == RemoveSkipped <==> NoCleanup(h, o))))
      && forall i :: 0 <= i < |actions| && actions[i].RanCleanupJob? ==> !NoCleanup(h, o) && Lowered(o.devices, actions[i].devices)
    ensures Fit(trace, WithEvents(WithResult(st, p, r'), c.pass, p, actions))
  {
    hide Of, HostLog, NoCleanup, Lowered, JobFits, Tagged, LoggedAll;
    var st' := WithEvents(WithResult(st, p, r'), c.pass, p, actions);
    OfStep(st.trace, c.pass, p, actions);
    JobFitsMore(st.info.hosts[p.host], st.info.osds[p], st'.info.osds[p], Of(st.trace, p), c.pass, actions);
    forall h ensures HostLog(st'.trace, h) == HostLog(trace, h) { HostLogTagged(st.trace, c.pass, p, actions, h); }
  }

  lemma {:induction false} SilentFits(trace: Trace, st: State, p: Pair, r': RemoveResult)
    requires Fit(trace, st) && p in st.info.osds && p.host in st.info.hosts
    requires var h, o := st.info.hosts[p.host], st.info.osds[p];
      r'.job == (if o.remove.Some? then o.remove.value.job else None)
      || (r'.job.Some? && (r'.job.value.phase == RemoveSkipped <==> NoCleanup(h, o)))
    ensures Fit(trace, WithResult(st, p, r'))
  {
    hide Of, HostLog, NoCleanup, JobFits, LoggedAll;
    var st' := WithResult(st, p, r');
    JobFitsMore(st.info.hosts[p.host], st.info.osds[p], st'.info.osds[p], Of(st.trace, p), 0, []);
    assert Of(st.trace, p) + LoggedAll(0, []) == Of(st.trace, p) by { NothingLogged(Of(st.trace, p)); }
  }

  lemma {:induction false} NothingLogged(log: seq<Logged>)
    ensures log + LoggedAll(0, []) == log
  {
  }

  // --------------------------------------------------------------------- the steps

  lemma {:induction false} DeployFits(trace: Trace, c: Context, p: Pair, st: State)
    requires Covers(c, st) && p in st.info.osds && Fit(trace, st)
    ensures Fit(trace, DeployStep(c, p, st))
  {
    hide Tagged, JobsFit, SameHosts;
    var o := st.info.osds[p];
    var res := o.remove.value;
    if res.deploy.None? {
      if res.osd.phase == RemoveFinished && !o.skipCleanup {
        var out := RemoveDeployment(p, c.env.osd(p));
        FlagsFit(trace, st, st.(notCompleted := st.notCompleted + 1));
        UpdateFits(trace, st.(notCompleted := st.notCompleted + 1), c, p, res.(deploy := Some(out.status)), out.actions);
      } else {
        SilentFits(trace, st, p, res.(deploy := Some(Just(RemoveSkipped))));
      }
    } else {
      FlagsFit(trace, st, DeployStep(c, p, st));
    }
  }

  /** Counters, issues and warnings do not matter. */
  lemma {:induction false} FlagsFit(trace: Trace, st: State, st': State)
    requires Fit(trace, st) && st'.trace == st.trace && st'.info.osds == st.info.osds && st'.info.hosts == st.info.hosts
    ensures Fit(trace, st')
  {
    hide Of, JobFits, HostLog;
  }

  lemma {:induction false} JobDevicesLowered(osds: map<Pair, Osd>, p: Pair)
    requires p in osds
    ensures Lowered(osds[p].devices, JobDevices(osds, p))
  {
    hide ZapAllowed;
  }

  /** A job that is not skipped is for an OSD whose disks are to be cleaned. */
  lemma {:induction false} OpenMeansCleanup(h: Host, o: Osd, log: seq<Logged>)
    requires o.remove.Some? && JobOpen(o.remove.value.job) && !SkipsJob(h, o) && JobFits(h, o, log)
    ensures !NoCleanup(h, o)
  {
  }

  lemma {:induction false} JobRunFits(osds: map<Pair, Osd>, p: Pair, a: Answers, h: Host)
    requires p in osds && osds[p].remove.Some? && JobOpen(osds[p].remove.value.job) && !NoCleanup(h, osds[p])
    ensures var out := HandleJobRun(osds, p, a);
      && out.status.phase != RemoveSkipped
      && forall i :: 0 <= i < |out.actions| && out.actions[i].RanCleanupJob? ==> Lowered(osds[p].devices, out.actions[i].devices)
  {
    hide ParallelJob, Lowered, JobDevices;
    JobDevicesLowered(osds, p);
  }

  lemma {:induction false} JobStepFits(trace: Trace, c: Context, p: Pair, st: State)
    requires Covers(c, st) && p in st.info.osds && p.host in st.info.hosts && Fit(trace, st)
    requires JobOpen(st.info.osds[p].remove.value.job) && !SkipsJob(st.info.hosts[p.host], st.info.osds[p])
    ensures Fit(trace, JobStep(c, p, st))
  {
    var h, o := st.info.hosts[p.host], st.info.osds[p];
    assert JobFits(h, o, Of(st.trace, p));
    OpenMeansCleanup(h, o, Of(st.trace, p));
    JobRunFits(st.info.osds, p, c.env.osd(p), h);
    hide Tagged, JobsFit, SameHosts, HandleJobRun, JobFits, NoCleanup, SkipsJob, DeployStep, HasBucket, PendingListEmpty, Lowered, WellFormed;
    var out := HandleJobRun(st.info.osds, p, c.env.osd(p));
    var r' := o.remove.value.(job := Some(out.status));
    UpdateFits(trace, st, c, p, r', out.actions);
    WithCovers(c, p, st, r', out.actions);
    var st' := WithEvents(WithResult(st, p, r'), c.pass, p, out.actions);
    if out.status.phase == RemoveCompleted {
      DeployFits(trace, c, p, st');
    } else {
      FlagsFit(trace, st', JobStep(c, p, st));
    }
  }

  lemma {:induction false} SkippedFits(trace: Trace, c: Context, p: Pair, st: State)
    requires Covers(c, st) && p in st.info.osds && p.host in st.info.hosts && Fit(trace, st)
    requires JobOpen(st.info.osds[p].remove.value.job) && SkipsJob(st.info.hosts[p.host], st.info.osds[p])
    ensures var st' := WithResult(st, p, st.info.osds[p].remove.value.(job := Some(Just(RemoveSkipped))));
      Covers(c, st') && Fit(trace, DeployStep(c, p, st'))
  {
    assert NoCleanup(st.info.hosts[p.host], st.info.osds[p]);
    hide JobsFit, SameHosts, DeployStep, NoCleanup;
    var r' := st.info.osds[p].remove.value.(job := Some(Just(RemoveSkipped)));
    SilentFits(trace, st, p, r');
    WithCovers(c, p, st, r', []);
    DeployFits(trace, c, p, WithResult(st, p, r'));
  }

  lemma {:induction false} FinishedFits(trace: Trace, c: Context, p: Pair, st: State)
    requires Covers(c, st) && p in st.info.osds && Fit(trace, st)
    ensures Fit(trace, FinishedStep(c, p, st))
  {
    hide Fit, JobStep, DeployStep, SkipsJob, FinishedStep;
    assert p.host in st.info.hosts;
    FinishedIs(c, p, st);
    var o := st.info.osds[p];
    if JobOpen(o.remove.value.job) {
      if SkipsJob(st.info.hosts[p.host], o) {
        FinishedSkips(c, p, st);
        SkippedFits(trace, c, p, st);
      } else {
        JobStepFits(trace, c, p, st);
      }
    } else if o.remove.value.job.value.phase in {RemoveCompleted, RemoveSkipped} {
      DeployFits(trace, c, p, st);
    } else {
      FlagsFit(trace, st, FinishedStep(c, p, st));
    }
  }

  lemma {:induction false} OutcomeQuiet(c: Context, b: RemovePhase, p: Pair, cur: RemoveStatus)
    ensures forall i :: 0 <= i < |OsdOutcome(c, b, p, cur).actions| ==> !OsdOutcome(c, b, p, cur).actions[i].RanCleanupJob?
  {
  }

  lemma {:induction false} OutcomeFits(trace: Trace, c: Context, b: RemovePhase, p: Pair, st: State)
    requires Covers(c, st) && p in st.info.osds && Fit(trace, st)
    ensures Fit(trace, WithOutcome(c, p, st, OsdOutcome(c, b, p, st.info.osds[p].remove.value.osd)))
  {
    hide JobsFit, SameHosts, OsdOutcome, Tagged;
    var res := st.info.osds[p].remove.value;
    OutcomeQuiet(c, b, p, res.osd);
    var out := OsdOutcome(c, b, p, res.osd);
    FlagsFit(trace, st, st.(notCompleted := st.notCompleted + 1));
    UpdateFits(trace, st.(notCompleted := st.notCompleted + 1), c, p, res.(osd := out.status), out.actions);
  }

  lemma {:induction false} ResetFits(trace: Trace, st: State, st': State, waiting: map<string, string>)
    requires Fit(trace, st) && st'.trace == st.trace && st'.info.hosts == st.info.hosts
    requires st'.info.osds == ResetWaiting(st.info.osds, waiting)
    ensures Fit(trace, st')
  {
    hide Of, HostLog;
    forall p | p in st'.info.osds && p.host in st'.info.hosts ensures JobFits(st'.info.hosts[p.host], st'.info.osds[p], Of(st'.trace, p)) {
      assert JobFits(st.info.hosts[p.host], st.info.osds[p], Of(st.trace, p));
    }
  }

  lemma {:induction false} PendingFits(trace: Trace, c: Context, p: Pair, st: State)
    requires Covers(c, st) && p in st.info.osds && Fit(trace, st)
    ensures Fit(trace, PendingStep(c, p, st))
  {
    hide Fit, PendingStep, OsdOutcome, WithOutcome, WellFormed;
    OutcomeFits(trace, c, RemovePending, p, st);
    PendingIs(c, p, st);
    var out := OsdOutcome(c, RemovePending, p, st.info.osds[p].remove.value.osd);
    var st' := WithOutcome(c, p, st, out);
    if !st.moved {
      if out.status.phase == RemovePending {
        FlagsFit(trace, st', PendingStep(c, p, st));
      } else {
        ResetFits(trace, st', PendingStep(c, p, st), st.waiting);
      }
    }
  }

  lemma {:induction false} StepFits(trace: Trace, c: Context, b: RemovePhase, p: Pair, st: State)
    requires Covers(c, st) && p in st.info.osds && Fit(trace, st)
    ensures Fit(trace, Step(c, b, p, st))
  {
    hide Fit, FinishedStep, PendingStep, OsdOutcome, WithOutcome;
    if b == RemoveFinished {
      FinishedFits(trace, c, p, st);
    } else {
      OutcomeFits(trace, c, b, p, st);
      var st' := WithOutcome(c, p, st, OsdOutcome(c, b, p, st.info.osds[p].remove.value.osd));
      if b == RemovePending {
        PendingFits(trace, c, p, st);
      } else {
        FlagsFit(trace, st', Step(c, b, p, st));
      }
    }
  }

  lemma {:induction false} LoopFits(trace: Trace, c: Context, b: RemovePhase, order: seq<Pair>, st: State)
    requires Covers(c, st) && Fit(trace, st) && forall p :: p in order ==> p in c.begin.osds
    ensures Fit(trace, Loop(c, b, order, st))
  {
    hide Fit, Step;
    if order != [] {
      LoopFits(trace, c, b, order[..|order| - 1], st);
      StepFits(trace, c, b, order[|order| - 1], Loop(c, b, order[..|order| - 1], st));
    }
  }

  lemma {:induction false} ContinuedFits(c: Context, order: seq<Pair>, trace: Trace)
    requires WellFormed(c.begin) && AllHaveStatus(c.begin.osds) && (forall p :: p in order ==> p in c.begin.osds) && JobsFit(c.begin, trace)
    ensures var r := Continued(c, order, trace); JobsFit(r.info, r.trace) && SameHosts(trace, r.trace) && r.info.hosts == c.begin.hosts
  {
    hide JobsFit, SameHosts, Loop, HasBucket;
    var st := Initial(c.begin, trace);
    InitialCovers(c, trace);
    SameHostsItself(trace);
    InitialFits(c.begin, trace);
    LoopFits(trace, c, RemoveFinished, order, st);
    var st1 := Loop(c, RemoveFinished, order, st);
    LoopFits(trace, c, RemoveStray, order, st1);
    var st2 := Loop(c, RemoveStray, order, st1);
    LoopFits(trace, c, RemoveInProgress, order, st2);
    var st3 := Loop(c, RemoveInProgress, order, st2);
    LoopFits(trace, c, RemoveWaitingRebalance, order, st3);
    LoopFits(trace, c, RemovePending, order, Loop(c, RemoveWaitingRebalance, order, st3));
  }

  lemma {:induction false} SameHostsItself(trace: Trace)
    ensures SameHosts(trace, trace)
  {
  }

  lemma {:induction false} InitialFits(info: RemoveInfo, trace: Trace)
    requires AllHaveStatus(info.osds) && JobsFit(info, trace)
    ensures JobsFit(Initial(info, trace).info, trace)
  {
    hide JobFits, Of, FailedIssues;
  }

  // -------------------------------------------------------------------- hosts and passes

  lemma {:induction false} HostLogEvent(trace: Trace, pass: nat, host: string, ok: bool, h: string)
    ensures HostLog(trace + [HostEvent(pass, host, ok)], h) == HostLog(trace, h) + if h == host then [ok] else []
  {
    assert (trace + [HostEvent(pass, host, ok)])[..|trace|] == trace;
  }

  lemma {:induction false} OfHostEvent(trace: Trace, pass: nat, host: string, ok: bool, p: Pair)
    ensures Of(trace + [HostEvent(pass, host, ok)], p) == Of(trace, p)
  {
    assert (trace + [HostEvent(pass, host, ok)])[..|trace|] == trace;
  }

  lemma {:induction false} HostStepFits(c: Context, h: string, st: State)
    requires WellFormed(st.info) && HostsFit(st.info, st.trace) && st.info.osds == c.begin.osds
    requires h in st.info.hosts && h in c.begin.hosts && st.info.hosts[h] == c.begin.hosts[h]
    ensures var st' := HostStep(c, h, st); HostsFit(st'.info, st'.trace)
  {
    hide HostLog;
    var st' := HostStep(c, h, st);
    if HostDue(c.begin, h) {
      var ok := c.env.hostRemoved(h);
      forall x ensures HostLog(st'.trace, x) == HostLog(st.trace, x) + if x == h then [ok] else [] { HostLogEvent(st.trace, c.pass, h, ok, x); }
      forall x | x in st'.info.hosts ensures HostFits(st'.info, st'.trace, x) {
        assert HostFits(st.info, st.trace, x);
      }
    }
  }

  lemma {:induction false} HostStepJobs(c: Context, h: string, st: State)
    requires WellFormed(st.info) && JobsFit(st.info, st.trace)
    ensures var st' := HostStep(c, h, st); JobsFit(st'.info, st'.trace) && st'.info.osds == st.info.osds
  {
    hide Of, HostDue;
    var st' := HostStep(c, h, st);
    forall p | p in st'.info.osds && p.host in st'.info.hosts ensures JobFits(st'.info.hosts[p.host], st'.info.osds[p], Of(st'.trace, p)) {
      if h in c.begin.hosts && h in st.info.hosts && HostDue(c.begin, h) { OfHostEvent(st.trace, c.pass, h, c.env.hostRemoved(h), p); }
      assert JobFits(st.info.hosts[p.host], st.info.osds[p], Of(st.trace, p));
    }
  }

  lemma {:induction false} RemoveHostsFit(c: Context, hosts: seq<string>, st: State)
    requires WellFormed(st.info) && HostsFit(st.info, st.trace) && JobsFit(st.info, st.trace) && NoDuplicates(hosts)
    requires st.info.osds == c.begin.osds && st.info.hosts == c.begin.hosts && forall h :: h in hosts ==> h in c.begin.hosts
    ensures var st' := RemoveHosts(c, hosts, st);
      && HostsFit(st'.info, st'.trace) && JobsFit(st'.info, st'.trace) && st'.info.osds == st.info.osds
      && forall h :: h in c.begin.hosts && h !in hosts ==> st'.info.hosts[h] == c.begin.hosts[h]
  {
    hide HostsFit, JobsFit, HostDue;
    if hosts != [] {
      var last := |hosts| - 1;
      var init, h := hosts[..last], hosts[last];
      assert hosts == init + [h] && h !in init;
      RemoveHostsFit(c, init, st);
      HostStepFits(c, h, RemoveHosts(c, init, st));
      HostStepJobs(c, h, RemoveHosts(c, init, st));
    }
  }

  ghost predicate Fits(info: RemoveInfo, trace: Trace) {
    HostsFit(info, trace) && JobsFit(info, trace)
  }

  lemma {:induction false} CollectedFits(info: RemoveInfo, trace: Trace)
    requires Fits(info, trace)
    ensures Fits(Collected(info), trace)
  {
    hide Of, HostLog;
    var begin := Collected(info);
    forall p | p in begin.osds && p.host in begin.hosts ensures JobFits(begin.hosts[p.host], begin.osds[p], Of(trace, p)) {
      assert JobFits(info.hosts[p.host], info.osds[p], Of(trace, p));
    }
    forall h | h in begin.hosts ensures HostFits(begin, trace, h) {
      assert HostFits(info, trace, h);
    }
  }

  /** Dropped hosts stay so while OSDs move on. */
  lemma {:induction false} HostsFitLater(info: RemoveInfo, info': RemoveInfo, trace: Trace, trace': Trace)
    requires HostsFit(info, trace) && info'.hosts == info.hosts && SameHosts(trace, trace') && AllAdvance(info.osds, info'.osds)
    ensures HostsFit(info', trace')
  {
    hide HostLog;
    forall h | h in info'.hosts ensures HostFits(info', trace', h) {
      assert HostFits(info, trace, h);
      forall p | p in info'.osds && p.host == h && info.hosts[h].removed.Some? ensures Removed(info'.osds[p]) {
        assert Removed(info.osds[p]) && Advances(info.osds[p], info'.osds[p]);
      }
    }
  }

  lemma {:induction false} PassFits(w: World, i: Input, w': World)
    requires Reachable(w) && Follows(w, i, w') && Fits(w.info, w.trace)
    ensures Fits(w'.info, w'.trace)
  {
    hide Inv, Before, HostDue, RemoveHosts, Continued, HostsFit, JobsFit, AllAdvance, Collected;
    var begin := Collected(w.info);
    var c := Context(i.env, w.passes, begin);
    CollectedKeeps(w.info, w.trace);
    CollectedFits(w.info, w.trace);
    CollectedPlain(w.info);
    if exists h :: h in begin.hosts && HostDue(begin, h) {
      RemoveHostsFit(c, i.hostOrder, State(begin, w.trace, 0, true, map[], false));
    } else {
      ContinuedFits(c, i.order, w.trace);
      ContinuedKeeps(c, i.order, w.trace);
      HostsFitLater(begin, w'.info, w.trace, w'.trace);
    }
  }

  lemma {:induction false} RunFits(ws: seq<World>, ins: seq<Input>, k: nat)
    requires IsRun(ws, ins) && k < |ws|
    ensures Fits(ws[k].info, ws[k].trace)
  {
    hide Follows, Reachable, Fits;
    if k == 0 {
      StartFits(ws[0]);
    } else {
      RunFits(ws, ins, k - 1);
      RunReachable(ws, ins, k - 1);
      assert Follows(ws[k - 1], ins[k - 1], ws[k - 1 + 1]);
      PassFits(ws[k - 1], ins[k - 1], ws[k]);
    }
  }

  lemma {:induction false} StartFits(w: World)
    requires Starts(w)
    ensures Fits(w.info, w.trace)
  {
  }

  // ------------------------------------------------------------------------ the results

  /**
   * In every run a host is dropped from the CRUSH map at most once, only if it was marked for that and
   * after all its OSDs were removed, and its status is the answer to that order.
   */
  lemma {:induction false} HostsDroppedLast(ws: seq<World>, ins: seq<Input>, k: nat, h: string)
    requires IsRun(ws, ins) && k < |ws|
    ensures |HostLog(ws[k].trace, h)| <= 1
    ensures HostLog(ws[k].trace, h) != [] <==> h in ws[k].info.hosts && ws[k].info.hosts[h].removed.Some?
    ensures HostLog(ws[k].trace, h) != [] ==>
      && (ws[k].info.hosts[h].completeCleanup || ws[k].info.hosts[h].dropFromCrush)
      && (ws[k].info.hosts[h].removed.value.phase == if HostLog(ws[k].trace, h)[0] then RemoveFinished else RemoveFailed)
      && forall p :: p in ws[k].info.osds && p.host == h ==> Removed(ws[k].info.osds[p])
  {
    hide HostLog, Follows, JobsFit;
    RunFits(ws, ins, k);
    if h in ws[k].info.hosts { assert HostFits(ws[k].info, ws[k].trace, h); }
  }

  /**
   * In every run a cleanup job is skipped exactly if there is nothing to clean, nobody to do it, or it is
   * not wanted; every job that was started was for none of these, and was handed the devices of its OSD.
   */
  lemma {:induction false} JobsSkippedExactly(ws: seq<World>, ins: seq<Input>, k: nat, p: Pair)
    requires IsRun(ws, ins) && k < |ws| && p in ws[k].info.osds
    ensures p.host in ws[k].info.hosts
    ensures var h, o, log := ws[k].info.hosts[p.host], ws[k].info.osds[p], Of(ws[k].trace, p);
      var unwanted := o.skipCleanup || o.devices == map[] || h.nodeIsDown || h.volumesInfoMissed || h.dropFromCrush;
      && (o.remove.Some? && o.remove.value.job.Some? ==> (o.remove.value.job.value.phase == RemoveSkipped <==> unwanted))
      && forall i :: 0 <= i < |log| && log[i].action.RanCleanupJob? ==> !unwanted && Lowered(o.devices, log[i].action.devices)
  {
    hide Of, HostsFit, Follows, Inv, Before;
    RunFits(ws, ins, k);
    RunReachable(ws, ins, k);
    assert JobFits(ws[k].info.hosts[p.host], ws[k].info.osds[p], Of(ws[k].trace, p));
  }
}
