/**
 * One pass of OSD removal (pkg/controller/osdremove-task/executor.go).
 *
 * The per-OSD operations are functions of the current status and the answers of the cluster.
 * `Pass` is the specification of a whole pass, for an arbitrary iteration order of the maps;
 * class `OsdRemoval` runs the pass with the loops of the original and is proved equal to it.
 */
module Executor {
  import opened Wrappers
  import opened RemovalPlan

  // ------------------------------------------------------ per-OSD operations

  datatype Outcome = Outcome(status: RemoveStatus, actions: seq<Action>)

  function RemoveStrayOsd(p: Pair, cur: RemoveStatus, a: Answers): Outcome {
    var id := BaseId(p.osd);
    match a.listed
    case None => Outcome(cur.(phase := RemoveFailed, error := true), [NoAnswer])
    case Some(true) => Outcome(cur.(phase := RemoveSkipped), [SawListed(true)])
    case Some(false) =>
      var begun := cur.(startedAt := Some(a.now));
      var scale := [SawListed(false), ScaledDown(id, a.scaledDown)];
      if !a.scaledDown then Outcome(begun.(phase := RemoveFailed, error := true), scale)
      else
        var keyring := scale + [DeletedKeyring(id, a.keyringDeleted)];
        if a.keyringDeleted then Outcome(begun.(phase := RemoveFinished), keyring)
        else Outcome(begun.(phase := RemoveFailed, error := true), keyring)
  }

  function RemoveFromCrush(p: Pair, cur: RemoveStatus, a: Answers): Outcome {
    var id := CommandId(p.osd);
    var scale := [ScaledDown(id, a.scaledDown)];
    var purge := scale + [Purged(id, a.purged)];
    var keyring := purge + [DeletedKeyring(id, a.keyringDeleted)];
    var failed := cur.(phase := RemoveFailed, error := true);
    if !a.scaledDown then Outcome(failed, scale)
    else if !a.purged then Outcome(failed, purge)
    else if !a.keyringDeleted then Outcome(failed, keyring)
    else Outcome(cur.(phase := RemoveFinished), keyring)
  }

  function CheckRebalance(cur: RemoveStatus, a: Answers, timeout: int): Outcome {
    match a.hasPgs
    case None => Outcome(cur.(phase := RemoveFailed, error := true), [NoAnswer])
    case Some(false) => Outcome(cur.(phase := RemoveInProgress), [SawPgs(false)])
    case Some(true) =>
      if cur.startedAt.None? || timeout - (a.now - cur.startedAt.value) > 0 then Outcome(cur, [SawPgs(true)])
      else Outcome(cur.(phase := RemoveFailed, error := true), [SawPgs(true)])
  }

  function TryToMoveOsdOut(cur: RemoveStatus, a: Answers, timeout: int): Outcome {
    if a.state.None? then Outcome(RemoveStatus(RemoveFailed, None, true), [NoAnswer])
    else
      var state := a.state.value;
      var out := RemoveStatus(if state.isUp then RemoveWaitingRebalance else RemoveInProgress, Some(a.now), false);
      if !state.isIn then Outcome(out, [SawState(state)])
      else
        var asked := [SawState(state)] + if state.isUp then [AskedOkToStop(a.okToStop)] else [];
        if state.isUp && !a.okToStop then
          var waitLeft := if cur.startedAt.Some? then timeout - (a.now - cur.startedAt.value) else timeout;
          if waitLeft > 0
          then Outcome(RemoveStatus(RemovePending, if cur.startedAt.None? then Some(a.now) else None, false), asked)
          else Outcome(RemoveStatus(RemoveFailed, None, true), asked)
        else if a.reweighted then Outcome(out, asked + [Reweighted(true)])
        else Outcome(RemoveStatus(RemoveFailed, None, true), asked + [Reweighted(false)])
  }

  function RemoveDeployment(p: Pair, a: Answers): Outcome {
    Outcome(RemoveStatus(if a.deploymentRemoved then RemoveFinished else RemoveFailed, Some(a.now), !a.deploymentRemoved),
            [RemovedDeployment(CommandId(p.osd), a.deploymentRemoved)])
  }

  function RemoveHostFromCrush(ok: bool): RemoveStatus {
    RemoveStatus(if ok then RemoveFinished else RemoveFailed, None, !ok)
  }

  // ------------------------------------------------------------ cleanup jobs

  predicate JobIs(o: Osd, phase: RemovePhase) {
    o.remove.Some? && o.remove.value.job.Some? && o.remove.value.job.value.phase == phase
  }

  predicate JobDone(o: Osd) {
    JobIs(o, RemoveCompleted) || JobIs(o, RemoveSkipped)
  }

  /** Another OSD of the same host. */
  predicate Neighbour(osds: map<Pair, Osd>, cur: Pair, q: Pair) {
    q in osds && q.host == cur.host && q != cur
  }

  /** Some other OSD of the host has its job running. */
  predicate ParallelJob(osds: map<Pair, Osd>, cur: Pair) {
    exists q :: q in osds && Neighbour(osds, cur, q) && JobIs(osds[q], RemoveInProgress)
  }

  /** An OSD that does not stand in the way of wiping a disk it shares. */
  predicate Yields(o: Osd) {
    !o.skipCleanup && JobDone(o)
  }

  /** The whole disk may be wiped on behalf of `cur`: every other OSD on it is cleaned up already. */
  predicate ZapAllowed(osds: map<Pair, Osd>, cur: Pair, device: string) {
    forall q :: q in osds && Neighbour(osds, cur, q) && device in osds[q].devices ==> Yields(osds[q])
  }

  /** ZapAllowed as far as the OSDs outside `left` are concerned. */
  ghost predicate YieldOutside(osds: map<Pair, Osd>, left: set<Pair>, cur: Pair, device: string) {
    forall q :: q in osds && Neighbour(osds, cur, q) && q !in left && device in osds[q].devices ==> Yields(osds[q])
  }

  /** The devices handed to the cleanup job of `cur`, zapping only where it is allowed. */
  function JobDevices(osds: map<Pair, Osd>, cur: Pair): map<string, Device>
    requires cur in osds
  {
    map d | d in osds[cur].devices ::
      osds[cur].devices[d].(zap := osds[cur].devices[d].zap && ZapAllowed(osds, cur, d))
  }

  predicate AllHaveStatus(osds: map<Pair, Osd>) {
    forall p :: p in osds ==> osds[p].remove.Some?
  }

  /** Clears the zap flag of the devices of `data` that `o` uses and stands in the way of. */
  method ClearSharedZap(o: Osd, data: map<string, Device>) returns (cleared: map<string, Device>)
    requires o.remove.Some?
    ensures cleared.Keys == data.Keys
    ensures forall d :: d in data ==>
      cleared[d] == data[d].(zap := data[d].zap && (d in o.devices ==> Yields(o)))
  {
    cleared := data;
    var left := o.devices.Keys;
    while left != {}
      invariant left <= o.devices.Keys
      invariant cleared.Keys == data.Keys
      invariant forall d :: d in data ==>
        cleared[d] == data[d].(zap := data[d].zap && (d in o.devices && d !in left ==> Yields(o)))
      decreases |left|
    {
      var device :| device in left;
      left := left - {device};
      if device in cleared && cleared[device].zap {
        var job := o.remove.value.job;
        if !o.skipCleanup && job.Some? && (job.value.phase == RemoveCompleted || job.value.phase == RemoveSkipped) {
          continue;
        }
        cleared := cleared[device := cleared[device].(zap := false)];
      }
    }
  }

  /** Checks that no other job runs on the host and computes the devices to clean, in any order of the OSDs. */
  method GetJobData(osds: map<Pair, Osd>, cur: Pair) returns (parallel: bool, data: map<string, Device>)
    requires cur in osds && AllHaveStatus(osds)
    ensures parallel <==> ParallelJob(osds, cur)
    ensures !parallel ==> data == JobDevices(osds, cur)
  {
    data := osds[cur].devices;
    var left := set q | q in osds && q.host == cur.host;
    while left != {}
      invariant left <= osds.Keys
      invariant forall q :: q in left ==> q.host == cur.host
      invariant data.Keys == osds[cur].devices.Keys
      invariant forall q :: q in osds && Neighbour(osds, cur, q) && q !in left ==> !JobIs(osds[q], RemoveInProgress)
      invariant forall d :: d in data ==> data[d] == osds[cur].devices[d].(zap := data[d].zap)
      invariant forall d :: d in data ==>
        (data[d].zap <==> (osds[cur].devices[d].zap && YieldOutside(osds, left, cur, d)))
      decreases |left|
    {
      var q :| q in left;
      left := left - {q};
      if q == cur { continue; }
      assert Neighbour(osds, cur, q);
      if JobIs(osds[q], RemoveInProgress) {
        return true, data;
      }
      ghost var seen := left + {q};
      data := ClearSharedZap(osds[q], data);
      forall d | d in data
        ensures YieldOutside(osds, left, cur, d) <==>
                (YieldOutside(osds, seen, cur, d) && (d in osds[q].devices ==> Yields(osds[q])))
      {
        assert forall x :: x !in left <==> x !in seen || x == q;
      }
    }
    parallel := false;
    assert forall d :: d in data ==> (YieldOutside(osds, left, cur, d) <==> ZapAllowed(osds, cur, d));
  }

  /** The cleanup job of an OSD whose job is not started, delayed or running. */
  function HandleJobRun(osds: map<Pair, Osd>, p: Pair, a: Answers): Outcome
    requires p in osds && osds[p].remove.Some?
  {
    var cur := osds[p].remove.value.job;
    if cur.None? || cur.value.phase == RemovePending then
      if ParallelJob(osds, p) then Outcome(Just(RemovePending), [])
      else if osds[p].devices == map[] then Outcome(Just(RemoveSkipped), [])
      else Outcome(RemoveStatus(if a.jobCreated then RemoveInProgress else RemoveFailed,
                                if a.jobCreated then Some(a.now) else None, !a.jobCreated),
                   [RanCleanupJob(JobDevices(osds, p), a.jobCreated)])
    else
      var seen := [SawJob(a.job)];
      match a.job
      case None => Outcome(cur.value.(phase := RemoveFailed, error := true), seen)
      case Some(JobActive) => Outcome(cur.value, seen)
      case Some(JobFailed) => Outcome(cur.value.(phase := RemoveFailed, error := true), seen)
      case Some(JobSucceeded) => Outcome(cur.value.(phase := RemoveCompleted), seen)
      case Some(JobNotStarted) => Outcome(cur.value, seen)
  }

  /** HandleJobRun as the original runs it, through the loops of GetJobData. */
  method RunCleanupJob(osds: map<Pair, Osd>, p: Pair, a: Answers) returns (out: Outcome)
    requires p in osds && AllHaveStatus(osds)
    ensures out == HandleJobRun(osds, p, a)
  {
    var cur := osds[p].remove.value.job;
    if cur.None? || cur.value.phase == RemovePending {
      var parallel, data := GetJobData(osds, p);
      if parallel {
        return Outcome(Just(RemovePending), []);
      }
      assert data.Keys == osds[p].devices.Keys;
      if data == map[] {
        assert osds[p].devices == map[];
        return Outcome(Just(RemoveSkipped), []);
      }
      if a.jobCreated {
        return Outcome(RemoveStatus(RemoveInProgress, Some(a.now), false), [RanCleanupJob(data, true)]);
      }
      return Outcome(RemoveStatus(RemoveFailed, None, true), [RanCleanupJob(data, false)]);
    }
    var status := cur.value;
    if a.job.None? || a.job == Some(JobFailed) {
      status := status.(phase := RemoveFailed, error := true);
    } else if a.job == Some(JobSucceeded) {
      status := status.(phase := RemoveCompleted);
    }
    out := Outcome(status, [SawJob(a.job)]);
  }

  // ------------------------------------------------------------------- a pass

  /** The status an OSD without one gets at the start of a pass. */
  function Begun(p: Pair, o: Osd): Osd {
    if o.remove.Some? then o
    else
      var phase := if IsStray(p) then (if o.inCrushMap then RemoveInProgress else RemoveStray) else RemovePending;
      o.(remove := Some(RemoveResult(Just(phase), None, None)))
  }

  function Collected(info: RemoveInfo): RemoveInfo {
    info.(osds := map p | p in info.osds :: Begun(p, info.osds[p]))
  }

  /** The list an OSD is put on for this pass: skipped OSDs are handled like finished ones. */
  function Bucket(o: Osd): RemovePhase
    requires o.remove.Some?
  {
    if o.remove.value.osd.phase == RemoveSkipped then RemoveFinished else o.remove.value.osd.phase
  }

  predicate Removed(o: Osd) {
    o.remove.Some? && (o.remove.value.osd.phase == RemoveFinished || o.remove.value.osd.phase == RemoveSkipped)
  }

  /** A host marked for removal whose OSDs are all removed and which was not handled yet. */
  predicate HostDue(info: RemoveInfo, h: string)
    requires h in info.hosts
  {
    && (info.hosts[h].completeCleanup || info.hosts[h].dropFromCrush)
    && info.hosts[h].removed.None?
    && forall p :: p in info.osds && p.host == h ==> Removed(info.osds[p])
  }

  /** An enumeration of the OSDs and one of the hosts: the iteration order of the maps in one pass. */
  ghost predicate IsOrder<T(!new)>(order: seq<T>, keys: set<T>) {
    NoDuplicates(order) && forall x :: x in order <==> x in keys
  }

  /** The variables of a pass. */
  datatype State = State(info: RemoveInfo, trace: Trace, notCompleted: nat, requeue: bool,
                         waiting: map<string, string>, moved: bool)

  /** What stays fixed during the loops of a pass: the statuses it began with and the environment. */
  datatype Context = Context(env: Env, pass: nat, begin: RemoveInfo)

  predicate HasBucket(info: RemoveInfo, b: RemovePhase)
    requires AllHaveStatus(info.osds)
  {
    exists p :: p in info.osds && Bucket(info.osds[p]) == b
  }

  /** Pending OSDs are left alone while one has failed. */
  predicate PendingListEmpty(info: RemoveInfo)
    requires AllHaveStatus(info.osds)
  {
    HasBucket(info, RemoveFailed) || !HasBucket(info, RemovePending)
  }

  function WithResult(st: State, p: Pair, r: RemoveResult): State
    requires p in st.info.osds
  {
    st.(info := st.info.(osds := st.info.osds[p := st.info.osds[p].(remove := Some(r))]))
  }

  function WithEvents(st: State, pass: nat, p: Pair, actions: seq<Action>): State {
    st.(trace := st.trace + Tagged(pass, p, actions))
  }

  predicate Covers(c: Context, st: State) {
    && WellFormed(st.info) && AllHaveStatus(st.info.osds)
    && WellFormed(c.begin) && AllHaveStatus(c.begin.osds)
    && st.info.osds.Keys == c.begin.osds.Keys && st.info.hosts == c.begin.hosts
  }

  /** Removal of the deployment, once the disks of a removed OSD are dealt with. */
  function DeployStep(c: Context, p: Pair, st: State): (r: State)
    requires Covers(c, st) && p in st.info.osds
    ensures Covers(c, r)
  {
    var o := st.info.osds[p];
    var res := o.remove.value;
    if res.deploy.None? then
      if res.osd.phase == RemoveFinished && !o.skipCleanup then
        var out := RemoveDeployment(p, c.env.osd(p));
        WithEvents(WithResult(st.(notCompleted := st.notCompleted + 1), p, res.(deploy := Some(out.status))),
                   c.pass, p, out.actions)
      else WithResult(st, p, res.(deploy := Some(Just(RemoveSkipped))))
    else if res.deploy.value.phase == RemoveFailed then
      st.(info := st.info.(issues := st.info.issues + {DeploymentRemoveFailed(p)}))
    else st
  }

  predicate JobOpen(job: Option<RemoveStatus>) {
    job.None? || job.value.phase == RemoveInProgress || job.value.phase == RemovePending
  }

  predicate SkipsJob(h: Host, o: Osd)
    requires o.remove.Some?
  {
    || (&& o.remove.value.job.None?
        && (h.nodeIsDown || h.volumesInfoMissed || h.dropFromCrush || o.devices == map[]))
    || o.skipCleanup
  }

  /** Starts or checks the cleanup job. */
  function JobStep(c: Context, p: Pair, st: State): (r: State)
    requires Covers(c, st) && p in st.info.osds
    ensures Covers(c, r)
  {
    var out := HandleJobRun(st.info.osds, p, c.env.osd(p));
    var st' := WithEvents(WithResult(st, p, st.info.osds[p].remove.value.(job := Some(out.status))), c.pass, p, out.actions);
    if out.status.phase == RemoveCompleted then DeployStep(c, p, st')
    else st'.(notCompleted := st.notCompleted + 1,
              requeue := st.requeue && !(!HasBucket(c.begin, RemoveWaitingRebalance) && PendingListEmpty(c.begin)))
  }

  /** The cleanup job and deployment of a removed OSD. */
  function FinishedStep(c: Context, p: Pair, st: State): (r: State)
    requires Covers(c, st) && p in st.info.osds
    ensures Covers(c, r)
  {
    var o := st.info.osds[p];
    var res := o.remove.value;
    if JobOpen(res.job) then
      if SkipsJob(st.info.hosts[p.host], o) then
        DeployStep(c, p, WithResult(st, p, res.(job := Some(Just(RemoveSkipped)))))
      else JobStep(c, p, st)
    else if res.job.value.phase == RemoveFailed then
      st.(info := st.info.(issues := st.info.issues + {CleanupJobFailed(p), DeploymentKept(p)}))
    else if res.job.value.phase != RemoveCompleted && res.job.value.phase != RemoveSkipped then
      st.(info := st.info.(warnings := st.info.warnings + [UnexpectedJobStatus(p)]))
    else DeployStep(c, p, st)
  }

  /** The command sequence of an OSD that is not removed yet. */
  function OsdOutcome(c: Context, b: RemovePhase, p: Pair, cur: RemoveStatus): Outcome {
    match b
    case RemoveStray => RemoveStrayOsd(p, cur, c.env.osd(p))
    case RemoveInProgress => RemoveFromCrush(p, cur, c.env.osd(p))
    case RemoveWaitingRebalance => CheckRebalance(cur, c.env.osd(p), c.env.rebalanceTimeout)
    case _ => TryToMoveOsdOut(cur, c.env.osd(p), c.env.rebalanceTimeout)
  }

  function WithOutcome(c: Context, p: Pair, st: State, out: Outcome): (r: State)
    requires Covers(c, st) && p in st.info.osds
    ensures Covers(c, r)
  {
    WithEvents(WithResult(st.(notCompleted := st.notCompleted + 1), p, st.info.osds[p].remove.value.(osd := out.status)),
               c.pass, p, out.actions)
  }

  function ClearStart(o: Osd): Osd {
    if o.remove.Some? then o.(remove := Some(o.remove.value.(osd := o.remove.value.osd.(startedAt := None)))) else o
  }

  /** The OSDs that waited before another one could be moved out get a new wait start time. */
  function ResetWaiting(osds: map<Pair, Osd>, waiting: map<string, string>): map<Pair, Osd> {
    map p | p in osds :: if p.osd in waiting && waiting[p.osd] == p.host then ClearStart(osds[p]) else osds[p]
  }

  /** One OSD is tried after the other until one leaves the pending phase. */
  function PendingStep(c: Context, p: Pair, st: State): (r: State)
    requires Covers(c, st) && p in st.info.osds
    ensures Covers(c, r)
  {
    if st.moved then st
    else
      var out := OsdOutcome(c, RemovePending, p, st.info.osds[p].remove.value.osd);
      var st' := WithOutcome(c, p, st, out);
      if out.status.phase == RemovePending then st'.(waiting := st.waiting[p.osd := p.host])
      else st'.(info := st'.info.(osds := ResetWaiting(st'.info.osds, st.waiting)), waiting := map[], moved := true)
  }

  /** One iteration of the loop over the list `b`. */
  function Step(c: Context, b: RemovePhase, p: Pair, st: State): (r: State)
    requires Covers(c, st) && p in st.info.osds
    ensures Covers(c, r)
  {
    match b
    case RemoveFinished => FinishedStep(c, p, st)
    case RemovePending => PendingStep(c, p, st)
    case _ =>
      var out := OsdOutcome(c, b, p, st.info.osds[p].remove.value.osd);
      var st' := WithOutcome(c, p, st, out);
      if b == RemoveWaitingRebalance && out.status.phase != RemoveInProgress then st'.(requeue := false) else st'
  }

  /** The loop over the list `b`, in the order `order`. */
  function Loop(c: Context, b: RemovePhase, order: seq<Pair>, st: State): (r: State)
    requires Covers(c, st) && forall p :: p in order ==> p in c.begin.osds
    ensures Covers(c, r)
  {
    if order == [] then st
    else
      var last := |order| - 1;
      var st' := Loop(c, b, order[..last], st);
      if Bucket(c.begin.osds[order[last]]) == b then Step(c, b, order[last], st') else st'
  }

  /** Removal of one host, if it is due. */
  function HostStep(c: Context, h: string, st: State): (r: State)
    requires WellFormed(st.info)
    ensures WellFormed(r.info) && r.info.hosts.Keys == st.info.hosts.Keys
  {
    if h in c.begin.hosts && h in st.info.hosts && HostDue(c.begin, h) then
      var ok := c.env.hostRemoved(h);
      st.(info := st.info.(hosts := st.info.hosts[h := st.info.hosts[h].(removed := Some(RemoveHostFromCrush(ok)))],
                           warnings := st.info.warnings + if ok then [] else [HostRemoveFailed(h)]),
          trace := st.trace + [HostEvent(c.pass, h, ok)])
    else st
  }

  function RemoveHosts(c: Context, hosts: seq<string>, st: State): (r: State)
    requires WellFormed(st.info)
    ensures WellFormed(r.info) && r.info.hosts.Keys == st.info.hosts.Keys
  {
    if hosts == [] then st
    else HostStep(c, hosts[|hosts| - 1], RemoveHosts(c, hosts[..|hosts| - 1], st))
  }

  datatype PassResult = PassResult(finished: bool, requeue: bool, info: RemoveInfo, trace: Trace)

  function FailedIssues(info: RemoveInfo): set<Issue>
    requires AllHaveStatus(info.osds)
  {
    set p | p in info.osds && Bucket(info.osds[p]) == RemoveFailed :: OsdRemoveFailed(p)
  }

  function Initial(info: RemoveInfo, trace: Trace): State
    requires AllHaveStatus(info.osds)
  {
    State(info.(issues := FailedIssues(info)), trace, 0, true, map[], false)
  }

  /** The loops over the OSDs that are not pending. */
  function Handled(c: Context, order: seq<Pair>, st: State): (r: State)
    requires Covers(c, st) && forall p :: p in order ==> p in c.begin.osds
    ensures Covers(c, r)
  {
    var st1 := Loop(c, RemoveFinished, order, st);
    var st2 := Loop(c, RemoveStray, order, st1);
    var st3 := Loop(c, RemoveInProgress, order, st2);
    Loop(c, RemoveWaitingRebalance, order, st3)
  }

  ghost predicate ValidInput(info: RemoveInfo, order: seq<Pair>, hostOrder: seq<string>) {
    WellFormed(info) && IsOrder(order, info.osds.Keys) && IsOrder(hostOrder, info.hosts.Keys)
  }

  /** What a pass does when no host is due. */
  function Continued(c: Context, order: seq<Pair>, trace: Trace): PassResult
    requires WellFormed(c.begin) && AllHaveStatus(c.begin.osds) && forall p :: p in order ==> p in c.begin.osds
  {
    var st := Handled(c, order, Initial(c.begin, trace));
    if HasBucket(c.begin, RemoveWaitingRebalance) then PassResult(false, st.requeue, st.info, st.trace)
    else
      var st' := if HasBucket(c.begin, RemoveFailed) then st else Loop(c, RemovePending, order, st);
      PassResult(st'.notCompleted == 0, st'.requeue && (st'.notCompleted == 0 || st'.waiting == map[]),
                 st'.info, st'.trace)
  }

  /** A whole pass. */
  function Pass(info: RemoveInfo, trace: Trace, pass: nat, env: Env, order: seq<Pair>, hostOrder: seq<string>): PassResult
    requires ValidInput(info, order, hostOrder)
  {
    var c := Context(env, pass, Collected(info));
    if exists h :: h in c.begin.hosts && HostDue(c.begin, h) then
      var st := RemoveHosts(c, hostOrder, State(c.begin, trace, 0, true, map[], false));
      PassResult(false, true, st.info, st.trace)
    else Continued(c, order, trace)
  }

  // ----------------------------------------------------------- the pass, run

  /** Removes the deployment of a removed OSD, or finds that it was handled before. */
  method HandleDeployment(c: Context, p: Pair, st: State) returns (r: State)
    requires Covers(c, st) && p in st.info.osds
    ensures r == DeployStep(c, p, st)
  {
    r := st;
    var res := st.info.osds[p].remove.value;
    if res.deploy.None? {
      var status := Just(RemoveSkipped);
      if res.osd.phase == RemoveFinished && !st.info.osds[p].skipCleanup {
        r := r.(notCompleted := r.notCompleted + 1);
        var out := RemoveDeployment(p, c.env.osd(p));
        status := out.status;
        r := WithEvents(r, c.pass, p, out.actions);
      }
      r := WithResult(r, p, res.(deploy := Some(status)));
    } else if res.deploy.value.phase == RemoveFailed {
      r := r.(info := r.info.(issues := r.info.issues + {DeploymentRemoveFailed(p)}));
    }
  }

  /** The cleanup job of a removed OSD, and its deployment once the job is dealt with. */
  method FinishOsd(c: Context, p: Pair, st: State) returns (r: State)
    requires Covers(c, st) && p in st.info.osds
    ensures r == FinishedStep(c, p, st)
  {
    hide HandleJobRun, HasBucket, PendingListEmpty, Tagged, DeployStep, SkipsJob;
    r := st;
    var res := st.info.osds[p].remove.value;
    if JobOpen(res.job) {
      if SkipsJob(st.info.hosts[p.host], st.info.osds[p]) {
        r := WithResult(r, p, res.(job := Some(Just(RemoveSkipped))));
      } else {
        var out := RunCleanupJob(st.info.osds, p, c.env.osd(p));
        r := WithEvents(WithResult(r, p, res.(job := Some(out.status))), c.pass, p, out.actions);
        if out.status.phase != RemoveCompleted {
          r := r.(notCompleted := r.notCompleted + 1);
          if !HasBucket(c.begin, RemoveWaitingRebalance) && PendingListEmpty(c.begin) {
            r := r.(requeue := false);
          }
          return;
        }
      }
    } else if res.job.value.phase == RemoveFailed {
      r := r.(info := r.info.(issues := r.info.issues + {CleanupJobFailed(p), DeploymentKept(p)}));
      return;
    } else if res.job.value.phase != RemoveCompleted && res.job.value.phase != RemoveSkipped {
      r := r.(info := r.info.(warnings := r.info.warnings + [UnexpectedJobStatus(p)]));
      return;
    }
    r := HandleDeployment(c, p, r);
  }

  lemma {:induction false} StepFinishes(c: Context, p: Pair, st: State)
    requires Covers(c, st) && p in st.info.osds
    ensures Step(c, RemoveFinished, p, st) == FinishedStep(c, p, st)
  {
    hide FinishedStep;
  }

  /** The next command sequence of an OSD that is a stray, drained, or being drained. */
  method HandleOsd(c: Context, b: RemovePhase, p: Pair, st: State) returns (r: State)
    requires Covers(c, st) && p in st.info.osds && b in {RemoveStray, RemoveInProgress, RemoveWaitingRebalance}
    ensures r == Step(c, b, p, st)
  {
    hide RemoveStrayOsd, RemoveFromCrush, CheckRebalance, TryToMoveOsdOut, Tagged, FinishedStep, PendingStep;
    var res, a := st.info.osds[p].remove.value, c.env.osd(p);
    var out;
    if b == RemoveStray {
      out := RemoveStrayOsd(p, res.osd, a);
    } else if b == RemoveInProgress {
      out := RemoveFromCrush(p, res.osd, a);
    } else {
      out := CheckRebalance(res.osd, a, c.env.rebalanceTimeout);
    }
    assert out == OsdOutcome(c, b, p, res.osd);
    hide OsdOutcome, WellFormed, AllHaveStatus;
    r := WithEvents(WithResult(st.(notCompleted := st.notCompleted + 1), p, res.(osd := out.status)), c.pass, p, out.actions);
    if b == RemoveWaitingRebalance && out.status.phase != RemoveInProgress {
      r := r.(requeue := false);
    }
  }

  method RunList(c: Context, b: RemovePhase, order: seq<Pair>, st: State) returns (r: State)
    requires Covers(c, st) && (forall p :: p in order ==> p in c.begin.osds)
    requires b in {RemoveFinished, RemoveStray, RemoveInProgress, RemoveWaitingRebalance}
    ensures r == Loop(c, b, order, st)
  {
    hide Step, FinishedStep;
    r := st;
    for i := 0 to |order|
      invariant r == Loop(c, b, order[..i], st)
    {
      assert order[..i + 1][..i] == order[..i];
      if b == RemoveFinished { StepFinishes(c, order[i], r); }
      if Bucket(c.begin.osds[order[i]]) == b {
        if b == RemoveFinished {
          r := FinishOsd(c, order[i], r);
        } else {
          r := HandleOsd(c, b, order[i], r);
        }
      }
    }
    assert order[..|order|] == order;
  }

  /** Clears the wait start time of every OSD that waited; all of them are in the map. */
  method ClearWaiting(osds: map<Pair, Osd>, waiting: map<string, string>) returns (cleared: map<Pair, Osd>)
    requires forall id :: id in waiting ==> Pair(waiting[id], id) in osds
    ensures cleared == ResetWaiting(osds, waiting) && cleared.Keys == osds.Keys
    ensures forall p | p in osds && osds[p].remove.Some? ::
      var r := osds[p].remove.value;
      cleared[p].remove == Some(if p.osd in waiting && waiting[p.osd] == p.host then r.(osd := r.osd.(startedAt := None)) else r)
  {
    cleared := osds;
    var left := waiting.Keys;
    while left != {}
      invariant left <= waiting.Keys && cleared.Keys == osds.Keys
      invariant forall p :: p in osds ==>
        cleared[p] == if p.osd in waiting && p.osd !in left && waiting[p.osd] == p.host then ClearStart(osds[p]) else osds[p]
      decreases |left|
    {
      var id :| id in left;
      var p := Pair(waiting[id], id);
      left := left - {id};
      cleared := cleared[p := ClearStart(cleared[p])];
    }
  }

  /** Once an OSD has moved, the rest of the loop over the pending ones does nothing. */
  lemma {:induction false} LoopMoved(c: Context, order: seq<Pair>, i: nat, st: State)
    requires Covers(c, st) && (forall p :: p in order ==> p in c.begin.osds) && i <= |order|
    requires Loop(c, RemovePending, order[..i], st).moved
    ensures Loop(c, RemovePending, order, st) == Loop(c, RemovePending, order[..i], st)
  {
    hide WithOutcome, OsdOutcome, ResetWaiting;
    if i < |order| {
      var init := order[..|order| - 1];
      assert init[..i] == order[..i];
      LoopMoved(c, init, i, st);
    } else {
      assert order[..i] == order;
    }
  }

  /** One OSD is tried; `left` says that it left the pending phase. */
  method TryPending(c: Context, p: Pair, st: State) returns (r: State, left: bool)
    requires Covers(c, st) && p in st.info.osds && !st.moved
    requires forall id :: id in st.waiting ==> Pair(st.waiting[id], id) in st.info.osds
    ensures r == PendingStep(c, p, st) && left == r.moved
    ensures forall id :: id in r.waiting ==> Pair(r.waiting[id], id) in st.info.osds
  {
    PendingIs(c, p, st);
    hide ResetWaiting, TryToMoveOsdOut, Tagged, WellFormed, PendingStep;
    var res := st.info.osds[p].remove.value;
    var out := TryToMoveOsdOut(res.osd, c.env.osd(p), c.env.rebalanceTimeout);
    r := WithEvents(WithResult(st.(notCompleted := st.notCompleted + 1), p, res.(osd := out.status)), c.pass, p, out.actions);
    left := out.status.phase != RemovePending;
    if left {
      var cleared := ClearWaiting(r.info.osds, r.waiting);
      r := r.(info := r.info.(osds := cleared), waiting := map[], moved := true);
    } else {
      r := r.(waiting := r.waiting[p.osd := p.host]);
    }
  }

  /** Tries the pending OSDs until one leaves the pending phase. */
  method RunPending(c: Context, order: seq<Pair>, st: State) returns (r: State)
    requires Covers(c, st) && (forall p :: p in order ==> p in c.begin.osds) && st.waiting == map[] && !st.moved
    ensures r == Loop(c, RemovePending, order, st)
  {
    hide PendingStep;
    r := st;
    for i := 0 to |order|
      invariant r == Loop(c, RemovePending, order[..i], st) && !r.moved
      invariant forall id :: id in r.waiting ==> Pair(r.waiting[id], id) in c.begin.osds
    {
      var p := order[i];
      assert order[..i + 1][..i] == order[..i];
      if Bucket(c.begin.osds[p]) != RemovePending { continue; }
      var left;
      r, left := TryPending(c, p, r);
      if left {
        LoopMoved(c, order, i + 1, st);
        return;
      }
    }
    assert order[..|order|] == order;
  }

  /** What a finished OSD comes to, in terms of its job. */
  lemma {:induction false} FinishedIs(c: Context, p: Pair, st: State)
    requires Covers(c, st) && p in st.info.osds
    ensures var o := st.info.osds[p]; var job := o.remove.value.job;
      && (JobOpen(job) && !SkipsJob(st.info.hosts[p.host], o) ==> FinishedStep(c, p, st) == JobStep(c, p, st))
      && (!JobOpen(job) && job.value.phase == RemoveFailed ==>
            FinishedStep(c, p, st) == st.(info := st.info.(issues := st.info.issues + {CleanupJobFailed(p), DeploymentKept(p)})))
      && (!JobOpen(job) && job.value.phase in {RemoveCompleted, RemoveSkipped} ==> FinishedStep(c, p, st) == DeployStep(c, p, st))
      && (!JobOpen(job) && job.value.phase !in {RemoveFailed, RemoveCompleted, RemoveSkipped} ==>
            FinishedStep(c, p, st) == st.(info := st.info.(warnings := st.info.warnings + [UnexpectedJobStatus(p)])))
  {
    hide JobStep, DeployStep, SkipsJob;
  }

  lemma {:induction false} FinishedSkips(c: Context, p: Pair, st: State)
    requires Covers(c, st) && p in st.info.osds && JobOpen(st.info.osds[p].remove.value.job) && SkipsJob(st.info.hosts[p.host], st.info.osds[p])
    ensures var st' := WithResult(st, p, st.info.osds[p].remove.value.(job := Some(Just(RemoveSkipped))));
      Covers(c, st') && FinishedStep(c, p, st) == DeployStep(c, p, st')
  {
    hide JobStep, DeployStep, SkipsJob;
  }

  /** What is done after a pending OSD was tried. */
  function Concluded(st: State, p: Pair, pending: bool, waiting: map<string, string>): State {
    if pending then st.(waiting := waiting[p.osd := p.host])
    else st.(info := st.info.(osds := ResetWaiting(st.info.osds, waiting)), waiting := map[], moved := true)
  }

  lemma {:induction false} PendingIs(c: Context, p: Pair, st: State)
    requires Covers(c, st) && p in st.info.osds
    ensures var out := OsdOutcome(c, RemovePending, p, st.info.osds[p].remove.value.osd);
      PendingStep(c, p, st) == if st.moved then st else Concluded(WithOutcome(c, p, st, out), p, out.status.phase == RemovePending, st.waiting)
  {
    hide OsdOutcome, WithOutcome, ResetWaiting;
  }

  /** A step only appends to the trace, and leaves the waiting OSDs alone. */
  ghost predicate Plain(st: State, st': State) {
    st.trace <= st'.trace && st'.waiting == st.waiting && st'.moved == st.moved
  }

  lemma {:induction false} WithCovers(c: Context, p: Pair, st: State, r': RemoveResult, actions: seq<Action>)
    requires Covers(c, st) && p in st.info.osds
    ensures Covers(c, WithResult(st, p, r')) && Covers(c, WithEvents(WithResult(st, p, r'), c.pass, p, actions))
  {
    hide Tagged;
  }

  lemma {:induction false} DeployPlain(c: Context, p: Pair, st: State)
    requires Covers(c, st) && p in st.info.osds
    ensures Plain(st, DeployStep(c, p, st))
  {
    hide Tagged, Covers, RemoveDeployment;
  }

  lemma {:induction false} JobPlain(c: Context, p: Pair, st: State)
    requires Covers(c, st) && p in st.info.osds
    ensures Plain(st, JobStep(c, p, st))
  {
    hide HandleJobRun, Tagged, HasBucket, PendingListEmpty, DeployStep, WellFormed;
    var out := HandleJobRun(st.info.osds, p, c.env.osd(p));
    var r' := st.info.osds[p].remove.value.(job := Some(out.status));
    WithCovers(c, p, st, r', out.actions);
    hide Covers;
    DeployPlain(c, p, WithEvents(WithResult(st, p, r'), c.pass, p, out.actions));
  }

  lemma {:induction false} FinishedPlain(c: Context, p: Pair, st: State)
    requires Covers(c, st) && p in st.info.osds
    ensures Plain(st, FinishedStep(c, p, st))
  {
    hide JobStep, DeployStep, SkipsJob;
    assert p.host in st.info.hosts;
    hide WellFormed;
    var res := st.info.osds[p].remove.value;
    if JobOpen(res.job) {
      if SkipsJob(st.info.hosts[p.host], st.info.osds[p]) {
        var skipped := res.(job := Some(Just(RemoveSkipped)));
        WithCovers(c, p, st, skipped, []);
        hide Covers;
        DeployPlain(c, p, WithResult(st, p, skipped));
      } else {
        JobPlain(c, p, st);
      }
    } else {
      DeployPlain(c, p, st);
    }
  }

  lemma {:induction false} StepWaiting(c: Context, b: RemovePhase, p: Pair, st: State)
    requires Covers(c, st) && p in st.info.osds && b != RemovePending
    ensures Plain(st, Step(c, b, p, st))
  {
    hide OsdOutcome, Tagged, Covers, FinishedStep;
    if b == RemoveFinished { FinishedPlain(c, p, st); }
  }

  /** Only the pending loop touches the waiting OSDs. */
  lemma {:induction false} LoopWaiting(c: Context, b: RemovePhase, order: seq<Pair>, st: State)
    requires Covers(c, st) && (forall p :: p in order ==> p in c.begin.osds) && b != RemovePending
    ensures Loop(c, b, order, st).waiting == st.waiting && Loop(c, b, order, st).moved == st.moved
  {
    hide Step;
    if order != [] {
      LoopWaiting(c, b, order[..|order| - 1], st);
      StepWaiting(c, b, order[|order| - 1], Loop(c, b, order[..|order| - 1], st));
    }
  }

  lemma {:induction false} HandledWaiting(c: Context, order: seq<Pair>, st: State)
    requires Covers(c, st) && forall p :: p in order ==> p in c.begin.osds
    ensures Handled(c, order, st).waiting == st.waiting && Handled(c, order, st).moved == st.moved
  {
    hide Loop;
    var st1 := Loop(c, RemoveFinished, order, st);
    LoopWaiting(c, RemoveFinished, order, st);
    var st2 := Loop(c, RemoveStray, order, st1);
    LoopWaiting(c, RemoveStray, order, st1);
    var st3 := Loop(c, RemoveInProgress, order, st2);
    LoopWaiting(c, RemoveInProgress, order, st2);
    LoopWaiting(c, RemoveWaitingRebalance, order, st3);
  }

  method RunLists(c: Context, order: seq<Pair>, trace: Trace) returns (r: PassResult)
    requires WellFormed(c.begin) && AllHaveStatus(c.begin.osds) && forall p :: p in order ==> p in c.begin.osds
    ensures r == Continued(c, order, trace)
  {
    var st := Initial(c.begin, trace);
    st := RunList(c, RemoveFinished, order, st);
    st := RunList(c, RemoveStray, order, st);
    st := RunList(c, RemoveInProgress, order, st);
    st := RunList(c, RemoveWaitingRebalance, order, st);
    if HasBucket(c.begin, RemoveWaitingRebalance) {
      return PassResult(false, st.requeue, st.info, st.trace);
    }
    if !HasBucket(c.begin, RemoveFailed) {
      HandledWaiting(c, order, Initial(c.begin, trace));
      st := RunPending(c, order, st);
    }
    if st.notCompleted == 0 {
      return PassResult(true, st.requeue, st.info, st.trace);
    }
    return PassResult(false, st.requeue && st.waiting == map[], st.info, st.trace);
  }

  lemma {:induction false} HostsSnoc(c: Context, hosts: seq<string>, i: nat, st: State)
    requires WellFormed(st.info) && i < |hosts|
    ensures RemoveHosts(c, hosts[..i + 1], st) == HostStep(c, hosts[i], RemoveHosts(c, hosts[..i], st))
  {
    hide HostStep;
    assert hosts[..i + 1][..i] == hosts[..i];
  }

  /** The removal of one task: its cleanup map, rewritten by every pass, and the commands issued so far. */
  class OsdRemoval {
    var info: RemoveInfo
    var requeueNow: bool
    var trace: Trace
    var passes: nat

    constructor (approved: RemoveInfo)
      ensures info == approved && trace == [] && passes == 0
    {
      info, requeueNow, trace, passes := approved, false, [], 0;
    }

    /** Gives every OSD without a status its first one. */
    method CollectStatuses(order: seq<Pair>)
      requires WellFormed(info) && IsOrder(order, info.osds.Keys)
      modifies this`info
      ensures info == Collected(old(info))
    {
      for i := 0 to |order|
        invariant info == old(info).(osds := info.osds) && info.osds.Keys == old(info).osds.Keys
        invariant forall p :: p in info.osds ==>
          info.osds[p] == if p in order[..i] then Begun(p, old(info).osds[p]) else old(info).osds[p]
      {
        var p := order[i];
        if info.osds[p].remove.None? {
          info := info.(osds := info.osds[p := Begun(p, info.osds[p])]);
        }
      }
    }

    /** Removes the hosts that are due from the CRUSH map. */
    method DropHosts(env: Env, hostOrder: seq<string>) returns (any: bool)
      requires WellFormed(info) && IsOrder(hostOrder, info.hosts.Keys)
      modifies this`info, this`trace
      ensures any <==> exists h :: h in old(info).hosts && HostDue(old(info), h)
      ensures var st := RemoveHosts(Context(env, passes, old(info)), hostOrder, State(old(info), old(trace), 0, true, map[], false));
              info == st.info && trace == st.trace
    {
      var begin := info;
      ghost var c := Context(env, passes, begin);
      ghost var st := State(begin, trace, 0, true, map[], false);
      hide HostDue;
      any := false;
      for i := 0 to |hostOrder|
        invariant any <==> exists h :: h in hostOrder[..i] && h in begin.hosts && HostDue(begin, h)
        invariant info == RemoveHosts(c, hostOrder[..i], st).info
        invariant trace == RemoveHosts(c, hostOrder[..i], st).trace
        invariant info.hosts.Keys == begin.hosts.Keys && WellFormed(info)
      {
        hide RemoveHosts;
        var h := hostOrder[i];
        HostsSnoc(c, hostOrder, i, st);
        assert forall x :: x in hostOrder[..i + 1] <==> x in hostOrder[..i] || x == h;
        if HostDue(begin, h) {
          any := true;
          var ok := env.hostRemoved(h);
          var warnings := info.warnings + if ok then [] else [HostRemoveFailed(h)];
          info := info.(hosts := info.hosts[h := info.hosts[h].(removed := Some(RemoveHostFromCrush(ok)))],
                        warnings := warnings);
          trace := trace + [HostEvent(passes, h, ok)];
        }
      }
      assert hostOrder[..|hostOrder|] == hostOrder;
    }

    /** One pass over the cleanup map; returns whether the removal is finished. */
    method ProcessOsdRemoveTask(env: Env, order: seq<Pair>, hostOrder: seq<string>) returns (finished: bool)
      requires ValidInput(info, order, hostOrder) && !requeueNow
      modifies this
      ensures PassResult(finished, requeueNow, info, trace)
              == Pass(old(info), old(trace), old(passes), env, order, hostOrder)
      ensures passes == old(passes) + 1
    {
      CollectStatuses(order);
      var begin := info;
      var c := Context(env, passes, begin);
      requeueNow := DropHosts(env, hostOrder);
      passes := passes + 1;
      if requeueNow {
        return false;
      }
      assert info == begin && trace == old(trace) by { NoHostsRemoved(c, hostOrder, State(begin, old(trace), 0, true, map[], false)); }
      var result := RunLists(c, order, trace);
      info, trace, requeueNow := result.info, result.trace, result.requeue;
      return result.finished;
    }
  }

  lemma {:induction false} NoHostsRemoved(c: Context, hosts: seq<string>, st: State)
    requires WellFormed(st.info)
    requires forall h :: h in c.begin.hosts ==> !HostDue(c.begin, h)
    ensures RemoveHosts(c, hosts, st) == st
  {
    if hosts != [] {
      NoHostsRemoved(c, hosts[..|hosts| - 1], st);
    }
  }
}
