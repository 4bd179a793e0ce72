/**
 * What every step of a removal keeps: the shape of the statuses, the evidence behind a purge, the
 * exclusion of parallel cleanup jobs and rebalances, and the rule for wiping shared disks.
 */
module ExecutorInvariants {
  import opened Wrappers
  import opened RemovalPlan
  import opened Executor

  // -------------------------------------------- one OSD and its part of the trace

  /** The job follows the removal of the OSD and the deployment follows the job. */
  predicate Shape(r: RemoveResult) {
    && r.osd.phase != RemoveCompleted
    && (r.job.Some? ==>
          && (r.osd.phase == RemoveFinished || r.osd.phase == RemoveSkipped)
          && r.job.value.phase in {RemovePending, RemoveInProgress, RemoveCompleted, RemoveSkipped, RemoveFailed})
    && (r.deploy.Some? ==>
          && r.job.Some? && (r.job.value.phase == RemoveCompleted || r.job.value.phase == RemoveSkipped)
          && r.deploy.value.phase in {RemoveFinished, RemoveSkipped, RemoveFailed})
  }

  /** Strays are never drained; only strays are skipped. */
  predicate StrayShape(p: Pair, r: RemoveResult) {
    if IsStray(p) then r.osd.phase != RemovePending && r.osd.phase != RemoveWaitingRebalance
    else r.osd.phase != RemoveStray && r.osd.phase != RemoveSkipped
  }

  /** `j` is the last look at the state of the OSD, and if it was in, its weight was set to zero since. */
  ghost predicate MovedOut(log: seq<Logged>, j: nat) {
    && j < |log| && log[j].action.SawState?
    && (forall k :: j < k < |log| ==> !log[k].action.SawState?)
    && (log[j].action.state.isIn ==> exists k :: j < k < |log| && log[k].action == Reweighted(true))
  }

  /** Seen without placement groups since the look at `j`, and after the weight was set to zero if it was in. */
  ghost predicate SeenEmpty(log: seq<Logged>, j: nat)
    requires j < |log| && log[j].action.SawState?
  {
    exists k :: j < k < |log| && log[k].action == SawPgs(false)
      && (log[j].action.state.isIn ==> exists r :: j < r < k && log[r].action == Reweighted(true))
  }

  /** Moved out, and either down already or seen without placement groups after that. */
  ghost predicate Drained(log: seq<Logged>) {
    exists j: nat :: MovedOut(log, j) && (log[j].action.state.isUp ==> SeenEmpty(log, j))
  }

  ghost predicate Evidence(p: Pair, r: RemoveResult, log: seq<Logged>) {
    !IsStray(p) ==>
      && (r.osd.phase == RemoveWaitingRebalance ==> exists j: nat :: MovedOut(log, j))
      && (r.osd.phase == RemoveInProgress ==> Drained(log))
  }

  /** The part of the log before `m` was written in earlier passes than entry `i` and shows the OSD drained. */
  ghost predicate DrainedBefore(log: seq<Logged>, m: nat, i: nat)
    requires i < |log|
  {
    m <= i && Drained(log[..m]) && forall k :: 0 <= k < m ==> log[k].pass < log[i].pass
  }

  // ------------------------------------------------- what a status rests on

  ghost predicate Has(log: seq<Logged>, a: Action) {
    exists i :: 0 <= i < |log| && log[i].action == a
  }

  /** The three actions are in the log, in this order. */
  ghost predicate HasAll(log: seq<Logged>, a: Action, b: Action, c: Action) {
    exists i, j, k :: 0 <= i < j < k < |log| && log[i].action == a && log[j].action == b && log[k].action == c
  }

  /** Something in the log went wrong: a command failed, a question was not answered, or a wait was not over. */
  predicate Wrong(a: Action) {
    match a
    case NoAnswer => true
    case AskedOkToStop(ok) => !ok
    case Reweighted(ok) => !ok
    case SawPgs(present) => present
    case ScaledDown(_, ok) => !ok
    case Purged(_, ok) => !ok
    case DeletedKeyring(_, ok) => !ok
    case _ => false
  }

  ghost predicate WentWrong(log: seq<Logged>) {
    exists i :: 0 <= i < |log| && Wrong(log[i].action)
  }

  /**
   * A finished removal is backed by its commands, all successful: for a stray outside the CRUSH map a
   * sight that its id is free, scale-down and keyring deletion; for all others scale-down, purge and
   * keyring deletion. A skipped one was seen in the cluster, and a failed one had something go wrong.
   */
  ghost predicate OsdBacked(p: Pair, o: Osd, phase: RemovePhase, log: seq<Logged>) {
    && (phase == RemoveFinished && !(IsStray(p) && !o.inCrushMap) ==>
          var id := CommandId(p.osd); HasAll(log, ScaledDown(id, true), Purged(id, true), DeletedKeyring(id, true)))
    && (phase == RemoveFinished && IsStray(p) && !o.inCrushMap ==>
          var id := BaseId(p.osd); HasAll(log, SawListed(false), ScaledDown(id, true), DeletedKeyring(id, true)))
    && (phase == RemoveSkipped ==> Has(log, SawListed(true)))
    && (phase == RemoveFailed ==> WentWrong(log))
    && (IsStray(p) && phase == RemoveStray ==> !o.inCrushMap)
    && (IsStray(p) && phase == RemoveInProgress ==> o.inCrushMap)
  }

  /** A cleanup job was created. */
  ghost predicate JobCreated(log: seq<Logged>, i: nat) {
    i < |log| && log[i].action.RanCleanupJob? && log[i].action.ok
  }

  /** A cleanup job was refused, or seen failed or not at all. */
  predicate JobWrong(a: Action) {
    (a.RanCleanupJob? && !a.ok) || a == SawJob(None) || a == SawJob(Some(JobFailed))
  }

  ghost predicate JobBacked(job: Option<RemoveStatus>, log: seq<Logged>) {
    job.Some? ==>
      && (job.value.phase == RemoveInProgress ==> exists i: nat :: JobCreated(log, i))
      && (job.value.phase == RemoveCompleted ==>
            exists i: nat, j: nat :: JobCreated(log, i) && i < j < |log| && log[j].action == SawJob(Some(JobSucceeded)))
      && (job.value.phase == RemoveFailed ==> exists i :: 0 <= i < |log| && JobWrong(log[i].action))
  }

  ghost predicate DeployBacked(p: Pair, o: Osd, r: RemoveResult, log: seq<Logged>) {
    r.deploy.Some? ==>
      && (r.deploy.value.phase == RemoveFinished ==> Has(log, RemovedDeployment(CommandId(p.osd), true)))
      && (r.deploy.value.phase == RemoveFailed ==> Has(log, RemovedDeployment(CommandId(p.osd), false)))
      && (r.deploy.value.phase == RemoveSkipped ==> r.osd.phase == RemoveSkipped || o.skipCleanup)
  }

  ghost predicate Backed(p: Pair, o: Osd, r: RemoveResult, log: seq<Logged>) {
    OsdBacked(p, o, r.osd.phase, log) && JobBacked(r.job, log) && DeployBacked(p, o, r, log)
  }

  lemma {:induction false} OsdBackedAppend(p: Pair, o: Osd, phase: RemovePhase, log: seq<Logged>, more: seq<Logged>)
    requires OsdBacked(p, o, phase, log)
    ensures OsdBacked(p, o, phase, log + more)
  {
    var log' := log + more;
    assert forall i :: 0 <= i < |log| ==> log'[i] == log[i];
    if phase == RemoveSkipped {
      var i :| 0 <= i < |log| && log[i].action == SawListed(true);
      assert log'[i].action == SawListed(true);
    } else if phase == RemoveFailed {
      var i :| 0 <= i < |log| && Wrong(log[i].action);
      assert Wrong(log'[i].action);
    } else if phase == RemoveFinished && IsStray(p) && !o.inCrushMap {
      HasAllAppend(log, more, SawListed(false), ScaledDown(BaseId(p.osd), true), DeletedKeyring(BaseId(p.osd), true));
    } else if phase == RemoveFinished {
      HasAllAppend(log, more, ScaledDown(CommandId(p.osd), true), Purged(CommandId(p.osd), true), DeletedKeyring(CommandId(p.osd), true));
    }
  }

  lemma {:induction false} HasAllAppend(log: seq<Logged>, more: seq<Logged>, a: Action, b: Action, c: Action)
    requires HasAll(log, a, b, c)
    ensures HasAll(log + more, a, b, c)
  {
    var i, j, k :| 0 <= i < j < k < |log| && log[i].action == a && log[j].action == b && log[k].action == c;
    var log' := log + more;
    assert log'[i].action == a && log'[j].action == b && log'[k].action == c;
  }

  lemma {:induction false} JobBackedAppend(job: Option<RemoveStatus>, log: seq<Logged>, more: seq<Logged>)
    requires JobBacked(job, log)
    ensures JobBacked(job, log + more)
  {
    var log' := log + more;
    assert forall i :: 0 <= i < |log| ==> log'[i] == log[i];
    if job.Some? {
      if job.value.phase == RemoveInProgress {
        var i: nat :| JobCreated(log, i);
        assert JobCreated(log', i);
      } else if job.value.phase == RemoveCompleted {
        var i: nat, j: nat :| JobCreated(log, i) && i < j < |log| && log[j].action == SawJob(Some(JobSucceeded));
        assert JobCreated(log', i) && log'[j].action == SawJob(Some(JobSucceeded));
      } else if job.value.phase == RemoveFailed {
        var i :| 0 <= i < |log| && JobWrong(log[i].action);
        assert JobWrong(log'[i].action);
      }
    }
  }

  predicate Gone(r: RemoveResult) {
    r.osd.phase == RemoveFinished || r.osd.phase == RemoveFailed
  }

  /** The id an OSD has in commands; for a stray the part of its key before the dot. */
  predicate OwnId(p: Pair, id: string) {
    id == CommandId(p.osd) || (IsStray(p) && id == BaseId(p.osd))
  }

  /** Before entry `i`, in the same pass, the OSD was seen in, and the cluster agreed to stop it if it was up. */
  ghost predicate AskedFirst(log: seq<Logged>, j: nat, i: nat)
    requires i < |log|
  {
    && j < i && log[j].pass == log[i].pass && log[j].action.SawState? && log[j].action.state.isIn
    && (log[j].action.state.isUp ==> exists k :: j < k < i && log[k] == Logged(log[i].pass, AskedOkToStop(true)))
  }

  /** What the statuses say about an action in the log. */
  ghost predicate Recorded(p: Pair, r: RemoveResult, log: seq<Logged>, i: nat)
    requires i < |log|
  {
    match log[i].action
    case Purged(id, _) => Gone(r) && id == CommandId(p.osd) && (!IsStray(p) ==> exists m: nat :: DrainedBefore(log, m, i))
    case ScaledDown(id, _) => Gone(r) && OwnId(p, id)
    case DeletedKeyring(id, _) => Gone(r) && OwnId(p, id)
    case RemovedDeployment(id, _) => r.osd.phase == RemoveFinished && r.deploy.Some? && id == CommandId(p.osd)
    case Reweighted(_) => exists j: nat :: AskedFirst(log, j, i)
    case SawListed(true) => r.osd.phase == RemoveSkipped
    case RanCleanupJob(_, _) => r.job.Some? && r.job.value.phase != RemovePending
    case _ => true
  }

  /** Actions that are issued at most once for an OSD in a whole run. */
  predicate SameOneShot(a: Action, b: Action) {
    || (a.Purged? && b.Purged?)
    || (a.RanCleanupJob? && b.RanCleanupJob?)
    || (a.RemovedDeployment? && b.RemovedDeployment?)
  }

  ghost predicate Once(log: seq<Logged>) {
    forall i, j :: 0 <= i < j < |log| ==> !SameOneShot(log[i].action, log[j].action)
  }

  ghost predicate Local(p: Pair, o: Osd, log: seq<Logged>) {
    if o.remove.None? then log == []
    else
      var r := o.remove.value;
      && Shape(r) && StrayShape(p, r) && Evidence(p, r, log) && Once(log) && Backed(p, o, r, log)
      && (forall i :: 0 <= i < |log| ==> Recorded(p, r, log, i))
  }

  // ------------------------------------------------------------- what persists

  /** Statuses move forward only: a lower rank is closer to the end, and a final status stays as it is. */
  function PhaseRank(phase: RemovePhase): nat {
    match phase
    case RemovePending => 3
    case RemoveWaitingRebalance => 2
    case RemoveInProgress => 1
    case RemoveStray => 1
    case _ => 0
  }

  function JobRank(job: Option<RemoveStatus>): nat {
    if job.None? then 3
    else match job.value.phase
      case RemovePending => 2
      case RemoveInProgress => 1
      case _ => 0
  }

  predicate SamePlan(o: Osd, o': Osd) {
    o'.inCrushMap == o.inCrushMap && o'.devices == o.devices && o'.skipCleanup == o.skipCleanup
  }

  predicate Forward(r: RemoveResult, r': RemoveResult) {
    && (r'.osd == r.osd || PhaseRank(r'.osd.phase) < PhaseRank(r.osd.phase)
        || r'.osd.phase == r.osd.phase == RemovePending)
    && (r'.job == r.job || JobRank(r'.job) < JobRank(r.job) || JobRank(r'.job) == JobRank(r.job) == 2)
    && (r'.deploy == r.deploy || r.deploy.None?)
  }

  predicate Advances(o: Osd, o': Osd) {
    && SamePlan(o, o')
    && (o.remove.Some? ==> o'.remove.Some? && Forward(o.remove.value, o'.remove.value))
  }

  // -------------------------------------------------------- all OSDs together

  /** A job of this OSD was started with the order to wipe the whole disk. */
  ghost predicate ZapRan(log: seq<Logged>, device: string) {
    exists i :: 0 <= i < |log| && Zaps(log[i].action, device)
  }

  predicate Zaps(a: Action, device: string) {
    a.RanCleanupJob? && device in a.devices && a.devices[device].zap
  }

  predicate PhaseIs(o: Osd, phase: RemovePhase) {
    o.remove.Some? && o.remove.value.osd.phase == phase
  }

  ghost predicate OneJobPerHost(osds: map<Pair, Osd>) {
    forall p, q | p in osds && q in osds && JobIs(osds[p], RemoveInProgress) && JobIs(osds[q], RemoveInProgress) ::
      p.host == q.host ==> p == q
  }

  ghost predicate OneRebalance(osds: map<Pair, Osd>) {
    forall p, q | p in osds && q in osds && PhaseIs(osds[p], RemoveWaitingRebalance) ::
      PhaseIs(osds[q], RemoveWaitingRebalance) ==> p == q
  }

  ghost predicate NoRebalance(osds: map<Pair, Osd>) {
    forall p :: p in osds ==> !PhaseIs(osds[p], RemoveWaitingRebalance)
  }

  /** Once a disk is wiped on behalf of one OSD, the others on it are cleaned up, and none of them wipes it too. */
  ghost predicate ZapSafe(osds: map<Pair, Osd>, trace: Trace) {
    forall p, q, d :: p in osds && q in osds && Neighbour(osds, p, q) && ZapRan(Of(trace, p), d) ==>
      && !ZapRan(Of(trace, q), d)
      && (d in osds[q].devices ==> Yields(osds[q]))
  }

  ghost predicate Inv(osds: map<Pair, Osd>, trace: Trace) {
    && (forall p :: p in osds ==> Local(p, osds[p], Of(trace, p)))
    && (forall p :: p !in osds ==> Of(trace, p) == [])
    && OneJobPerHost(osds)
    && OneRebalance(osds)
    && ZapSafe(osds, trace)
  }

  // ------------------------------------------------------------ one change

  /** A disk is wiped only on behalf of an OSD that is not cleaned up yet, and only where that is allowed. */
  ghost predicate ZapJustified(osds: map<Pair, Osd>, p: Pair, a: Action)
    requires p in osds
  {
    forall d :: Zaps(a, d) ==> !JobDone(osds[p]) && d in osds[p].devices && ZapAllowed(osds, p, d)
  }

  /** The conditions under which a change of one OSD keeps the invariant. */
  ghost predicate SafeChange(osds: map<Pair, Osd>, p: Pair, o': Osd, actions: seq<Action>)
    requires p in osds
  {
    && Advances(osds[p], o')
    && (JobIs(o', RemoveInProgress) ==> JobIs(osds[p], RemoveInProgress) || !ParallelJob(osds, p))
    && (PhaseIs(o', RemoveWaitingRebalance) ==> PhaseIs(osds[p], RemoveWaitingRebalance) || NoRebalance(osds))
    && (forall i :: 0 <= i < |actions| ==> ZapJustified(osds, p, actions[i]))
  }

  lemma {:induction false} ZapRanAppend(log: seq<Logged>, pass: nat, actions: seq<Action>, d: string)
    ensures ZapRan(log + LoggedAll(pass, actions), d) <==>
            (ZapRan(log, d) || exists i :: 0 <= i < |actions| && Zaps(actions[i], d))
  {
    var more := LoggedAll(pass, actions);
    if ZapRan(log, d) {
      var i :| 0 <= i < |log| && Zaps(log[i].action, d);
      assert Zaps((log + more)[i].action, d);
    }
    if i :| 0 <= i < |actions| && Zaps(actions[i], d) {
      assert Zaps((log + more)[|log| + i].action, d);
    }
  }

  lemma {:induction false} ChangeKeepsZapSafe(osds: map<Pair, Osd>, trace: Trace, pass: nat, p: Pair, o': Osd, actions: seq<Action>)
    requires ZapSafe(osds, trace) && p in osds && SafeChange(osds, p, o', actions)
    ensures ZapSafe(osds[p := o'], trace + Tagged(pass, p, actions))
  {
    hide Of, Tagged, LoggedAll, ZapRan;
    var osds', trace' := osds[p := o'], trace + Tagged(pass, p, actions);
    OfStep(trace, pass, p, actions);
    forall x, q, d | x in osds' && q in osds' && Neighbour(osds', x, q) && ZapRan(Of(trace', x), d)
      ensures !ZapRan(Of(trace', q), d)
      ensures d in osds'[q].devices ==> Yields(osds'[q])
    {
      assert Neighbour(osds, x, q) && Neighbour(osds, q, x);
      ZapRanAppend(Of(trace, p), pass, actions, d);
      if x == p && !ZapRan(Of(trace, p), d) {
        assert ZapAllowed(osds, p, d);
      } else if q == p {
        assert ZapRan(Of(trace, x), d);
      }
    }
  }

  lemma {:induction false} ChangeKeepsInv(osds: map<Pair, Osd>, trace: Trace, pass: nat, p: Pair, o': Osd, actions: seq<Action>)
    requires Inv(osds, trace) && p in osds && SafeChange(osds, p, o', actions)
    requires Local(p, o', Of(trace, p) + LoggedAll(pass, actions))
    ensures Inv(osds[p := o'], trace + Tagged(pass, p, actions))
    ensures Of(trace + Tagged(pass, p, actions), p) == Of(trace, p) + LoggedAll(pass, actions)
    ensures forall q :: q != p ==> Of(trace + Tagged(pass, p, actions), q) == Of(trace, q)
  {
    hide Of, Tagged, LoggedAll, Local, ZapSafe, Advances, ZapJustified;
    OfStep(trace, pass, p, actions);
    ChangeKeepsZapSafe(osds, trace, pass, p, o', actions);
    var osds' := osds[p := o'];
    forall x, q | x in osds' && q in osds' && JobIs(osds'[x], RemoveInProgress) && JobIs(osds'[q], RemoveInProgress)
      && x.host == q.host
      ensures x == q
    {
    }
  }

  // --------------------------------------------------------- per-OSD operations

  /** Entries that say nothing about the OSD state leave the evidence standing. */
  lemma {:induction false} MovedOutAppend(log: seq<Logged>, more: seq<Logged>, j: nat)
    requires MovedOut(log, j) && forall k :: 0 <= k < |more| ==> !more[k].action.SawState?
    ensures MovedOut(log + more, j)
  {
    var log' := log + more;
    assert log'[j] == log[j];
    assert forall k :: 0 <= k < |log| ==> log'[k] == log[k];
    if log[j].action.state.isIn {
      var k :| j < k < |log| && log[k].action == Reweighted(true);
      assert log'[k].action == Reweighted(true);
    }
  }

  lemma {:induction false} RecordedAppend(p: Pair, r: RemoveResult, r': RemoveResult, log: seq<Logged>, more: seq<Logged>, i: nat)
    requires i < |log| && Recorded(p, r, log, i) && Forward(r, r')
    ensures Recorded(p, r', log + more, i)
  {
    var log' := log + more;
    assert log'[i] == log[i];
    if log[i].action.Purged? && !IsStray(p) {
      var m: nat :| DrainedBefore(log, m, i);
      assert log'[..m] == log[..m];
      assert DrainedBefore(log', m, i);
    } else if log[i].action.Reweighted? {
      var j: nat :| AskedFirst(log, j, i);
      assert log'[j] == log[j];
      if log[j].action.state.isUp {
        var k :| j < k < i && log[k] == Logged(log[i].pass, AskedOkToStop(true));
        assert log'[k] == log[k];
      }
      assert AskedFirst(log', j, i);
    }
  }

  /** The local invariant after a step, from what is new in it. */
  lemma {:induction false} LocalAppend(p: Pair, o: Osd, r': RemoveResult, log: seq<Logged>, pass: nat, actions: seq<Action>)
    requires o.remove.Some? && Local(p, o, log) && Forward(o.remove.value, r')
    requires Shape(r') && StrayShape(p, r') && Evidence(p, r', log + LoggedAll(pass, actions))
    requires Backed(p, o, r', log + LoggedAll(pass, actions))
    requires forall i :: |log| <= i < |log| + |actions| ==> Recorded(p, r', log + LoggedAll(pass, actions), i)
    requires forall i, j :: 0 <= i < j < |actions| ==> !SameOneShot(actions[i], actions[j])
    requires forall i, j :: 0 <= i < |log| && 0 <= j < |actions| ==> !SameOneShot(log[i].action, actions[j])
    ensures Local(p, o.(remove := Some(r')), log + LoggedAll(pass, actions))
  {
    hide Backed, Recorded, Evidence, Shape;
    var more := LoggedAll(pass, actions);
    var log' := log + more;
    BackedPlan(p, o, r', log');
    forall i | 0 <= i < |log'| ensures Recorded(p, r', log', i) {
      if i < |log| {
        RecordedAppend(p, o.remove.value, r', log, more, i);
      }
    }
    forall i, j | 0 <= i < j < |log'| ensures !SameOneShot(log'[i].action, log'[j].action) {
      if j >= |log| {
        assert log'[j].action == actions[j - |log|];
        if i >= |log| { assert log'[i].action == actions[i - |log|]; }
      }
    }
  }

  /** What a status rests on depends on the plan of the OSD only. */
  lemma {:induction false} BackedPlan(p: Pair, o: Osd, r: RemoveResult, log: seq<Logged>)
    requires Backed(p, o, r, log)
    ensures Backed(p, o.(remove := Some(r)), r, log)
  {
  }

  /** A recorded action rules out the statuses in which it would be issued again. */
  lemma {:induction false} NotAgain(p: Pair, o: Osd, log: seq<Logged>, a: Action)
    requires o.remove.Some? && Local(p, o, log)
    requires a.Purged? ==> !Gone(o.remove.value)
    requires a.RanCleanupJob? ==> o.remove.value.job.None? || o.remove.value.job.value.phase == RemovePending
    requires a.RemovedDeployment? ==> o.remove.value.deploy.None?
    ensures forall i :: 0 <= i < |log| ==> !SameOneShot(log[i].action, a)
  {
    forall i | 0 <= i < |log| ensures !SameOneShot(log[i].action, a) {
      assert Recorded(p, o.remove.value, log, i);
    }
  }

  /** An outcome keeps the local invariant, moves the status forward and starts no job. */
  ghost predicate OutcomeOk(p: Pair, o: Osd, log: seq<Logged>, pass: nat, out: Outcome)
    requires o.remove.Some?
  {
    && Local(p, o.(remove := Some(o.remove.value.(osd := out.status))), log + LoggedAll(pass, out.actions))
    && Forward(o.remove.value, o.remove.value.(osd := out.status))
    && (out.status.phase == RemoveWaitingRebalance ==> PhaseIs(o, RemoveWaitingRebalance) || PhaseIs(o, RemovePending))
    && (forall i :: 0 <= i < |out.actions| ==> !out.actions[i].RanCleanupJob?)
  }

  /** A changed OSD status is backed by what the step logged; the other statuses do not exist yet. */
  lemma {:induction false} OsdBackedNew(p: Pair, o: Osd, status: RemoveStatus, log: seq<Logged>)
    requires o.remove.Some? && o.remove.value.job.None? && o.remove.value.deploy.None? && OsdBacked(p, o, status.phase, log)
    ensures Backed(p, o, o.remove.value.(osd := status), log)
  {
  }

  lemma {:induction false} StrayBacked(p: Pair, o: Osd, log: seq<Logged>, pass: nat, cur: RemoveStatus, a: Answers)
    requires IsStray(p) && !o.inCrushMap
    ensures var out := RemoveStrayOsd(p, cur, a); OsdBacked(p, o, out.status.phase, log + LoggedAll(pass, out.actions))
  {
    var out := RemoveStrayOsd(p, cur, a);
    var log' := log + LoggedAll(pass, out.actions);
    assert forall i :: 0 <= i < |out.actions| ==> log'[|log| + i].action == out.actions[i];
    var last := |log'| - 1;
    assert log'[last].action == out.actions[|out.actions| - 1];
    if out.status.phase == RemoveFinished {
      assert log'[|log|].action == SawListed(false) && log'[|log| + 1].action == ScaledDown(BaseId(p.osd), true)
        && log'[|log| + 2].action == DeletedKeyring(BaseId(p.osd), true);
    } else if out.status.phase == RemoveFailed {
      assert Wrong(log'[last].action);
    }
  }

  lemma {:induction false} StrayLocal(p: Pair, o: Osd, log: seq<Logged>, pass: nat, a: Answers)
    requires Local(p, o, log) && PhaseIs(o, RemoveStray)
    ensures OutcomeOk(p, o, log, pass, RemoveStrayOsd(p, o.remove.value.osd, a))
  {
    var out := RemoveStrayOsd(p, o.remove.value.osd, a);
    StrayBacked(p, o, log, pass, o.remove.value.osd, a);
    hide OsdBacked, JobBacked, DeployBacked;
    OsdBackedNew(p, o, out.status, log + LoggedAll(pass, out.actions));
    LocalAppend(p, o, o.remove.value.(osd := out.status), log, pass, out.actions);
  }

  lemma {:induction false} CrushBacked(p: Pair, o: Osd, log: seq<Logged>, pass: nat, cur: RemoveStatus, a: Answers)
    requires IsStray(p) ==> o.inCrushMap
    ensures var out := RemoveFromCrush(p, cur, a); OsdBacked(p, o, out.status.phase, log + LoggedAll(pass, out.actions))
  {
    var out := RemoveFromCrush(p, cur, a);
    var log' := log + LoggedAll(pass, out.actions);
    assert forall i :: 0 <= i < |out.actions| ==> log'[|log| + i].action == out.actions[i];
    var last := |log'| - 1;
    assert log'[last].action == out.actions[|out.actions| - 1];
    if out.status.phase == RemoveFinished {
      var id := CommandId(p.osd);
      assert log'[|log|].action == ScaledDown(id, true) && log'[|log| + 1].action == Purged(id, true)
        && log'[|log| + 2].action == DeletedKeyring(id, true);
    } else {
      assert Wrong(log'[last].action);
    }
  }

  lemma {:induction false} CrushRecorded(p: Pair, o: Osd, r': RemoveResult, log: seq<Logged>, pass: nat, a: Answers, i: nat)
    requires o.remove.Some? && Evidence(p, o.remove.value, log) && PhaseIs(o, RemoveInProgress) && forall k :: 0 <= k < |log| ==> log[k].pass < pass
    requires r' == o.remove.value.(osd := RemoveFromCrush(p, o.remove.value.osd, a).status)
    requires |log| <= i < |log| + |RemoveFromCrush(p, o.remove.value.osd, a).actions|
    ensures Recorded(p, r', log + LoggedAll(pass, RemoveFromCrush(p, o.remove.value.osd, a).actions), i)
  {
    hide Drained;
    var out := RemoveFromCrush(p, o.remove.value.osd, a);
    var log' := log + LoggedAll(pass, out.actions);
    assert log'[i].action == out.actions[i - |log|];
    if log'[i].action.Purged? && !IsStray(p) {
      assert log'[..|log|] == log;
      assert DrainedBefore(log', |log|, i);
    }
  }

  lemma {:induction false} CrushLocal(p: Pair, o: Osd, log: seq<Logged>, pass: nat, a: Answers)
    requires Local(p, o, log) && PhaseIs(o, RemoveInProgress)
    requires forall k :: 0 <= k < |log| ==> log[k].pass < pass
    ensures OutcomeOk(p, o, log, pass, RemoveFromCrush(p, o.remove.value.osd, a))
  {
    var out := RemoveFromCrush(p, o.remove.value.osd, a);
    var r' := o.remove.value.(osd := out.status);
    var log' := log + LoggedAll(pass, out.actions);
    CrushBacked(p, o, log, pass, o.remove.value.osd, a);
    hide OsdBacked, JobBacked, DeployBacked, Recorded, LoggedAll, Drained, DrainedBefore, MovedOut;
    OsdBackedNew(p, o, out.status, log');
    forall i | |log| <= i < |log| + |out.actions| ensures Recorded(p, r', log', i) {
      CrushRecorded(p, o, r', log, pass, a, i);
    }
    forall i, j | 0 <= i < |log| && 0 <= j < |out.actions| ensures !SameOneShot(log[i].action, out.actions[j]) {
      NotAgain(p, o, log, out.actions[j]);
    }
    LocalAppend(p, o, r', log, pass, out.actions);
  }

  lemma {:induction false} RebalanceLocal(p: Pair, o: Osd, log: seq<Logged>, pass: nat, a: Answers, timeout: int)
    requires Local(p, o, log) && PhaseIs(o, RemoveWaitingRebalance)
    ensures OutcomeOk(p, o, log, pass, CheckRebalance(o.remove.value.osd, a, timeout))
  {
    var out := CheckRebalance(o.remove.value.osd, a, timeout);
    var more := LoggedAll(pass, out.actions);
    var log' := log + more;
    if !IsStray(p) {
      var j: nat :| MovedOut(log, j);
      MovedOutAppend(log, more, j);
      if a.hasPgs == Some(false) {
        assert log'[|log|].action == SawPgs(false);
        if log[j].action.state.isIn {
          var r :| j < r < |log| && log[r].action == Reweighted(true);
          assert log'[r] == log[r];
        }
        assert SeenEmpty(log', j);
        assert Drained(log');
      }
    }
    if out.status.phase == RemoveFailed { assert Wrong(log'[|log|].action); }
    OsdBackedNew(p, o, out.status, log');
    LocalAppend(p, o, o.remove.value.(osd := out.status), log, pass, out.actions);
  }

  /** Moving an OSD out leaves the evidence for it. */
  lemma {:induction false} MoveOutEvidence(log: seq<Logged>, pass: nat, cur: RemoveStatus, a: Answers, timeout: int)
    ensures var out := TryToMoveOsdOut(cur, a, timeout); var log' := log + LoggedAll(pass, out.actions);
      && (out.status.phase == RemoveWaitingRebalance ==> MovedOut(log', |log|))
      && (out.status.phase == RemoveInProgress ==> Drained(log'))
  {
    var out := TryToMoveOsdOut(cur, a, timeout);
    var log' := log + LoggedAll(pass, out.actions);
    if out.status.phase == RemoveWaitingRebalance || out.status.phase == RemoveInProgress {
      assert log'[|log|].action == SawState(a.state.value);
      if a.state.value.isIn {
        assert log'[|log'| - 1].action == Reweighted(true);
      }
      assert forall k :: |log| < k < |log'| ==> log'[k].action == out.actions[k - |log|] && !log'[k].action.SawState?;
      assert MovedOut(log', |log|);
    }
  }

  predicate OnlyLooks(a: Action) {
    a.NoAnswer? || a.SawState? || a.AskedOkToStop? || a.Reweighted?
  }

  lemma {:induction false} PendingBacked(p: Pair, o: Osd, log: seq<Logged>, pass: nat, cur: RemoveStatus, a: Answers, timeout: int)
    requires !IsStray(p)
    ensures var out := TryToMoveOsdOut(cur, a, timeout); OsdBacked(p, o, out.status.phase, log + LoggedAll(pass, out.actions))
  {
    var out := TryToMoveOsdOut(cur, a, timeout);
    var log' := log + LoggedAll(pass, out.actions);
    if out.status.phase == RemoveFailed {
      assert log'[|log'| - 1].action == out.actions[|out.actions| - 1];
      assert Wrong(log'[|log'| - 1].action);
    }
  }

  /** The reweight comes after the look and the question of the same pass. */
  lemma {:induction false} PendingAsks(log: seq<Logged>, pass: nat, cur: RemoveStatus, a: Answers, timeout: int, i: nat)
    requires var out := TryToMoveOsdOut(cur, a, timeout); |log| <= i < |log| + |out.actions| && out.actions[i - |log|].Reweighted?
    ensures AskedFirst(log + LoggedAll(pass, TryToMoveOsdOut(cur, a, timeout).actions), |log|, i)
  {
    var out := TryToMoveOsdOut(cur, a, timeout);
    var log' := log + LoggedAll(pass, out.actions);
    assert forall k :: 0 <= k < |out.actions| ==> log'[|log| + k] == Logged(pass, out.actions[k]);
    assert log'[|log|] == Logged(pass, SawState(a.state.value));
    if a.state.value.isUp { assert log'[|log| + 1] == Logged(pass, AskedOkToStop(true)); }
  }

  lemma {:induction false} PendingLocal(p: Pair, o: Osd, log: seq<Logged>, pass: nat, a: Answers, timeout: int)
    requires Local(p, o, log) && PhaseIs(o, RemovePending)
    ensures OutcomeOk(p, o, log, pass, TryToMoveOsdOut(o.remove.value.osd, a, timeout))
  {
    var out := TryToMoveOsdOut(o.remove.value.osd, a, timeout);
    var r' := o.remove.value.(osd := out.status);
    var log' := log + LoggedAll(pass, out.actions);
    PendingBacked(p, o, log, pass, o.remove.value.osd, a, timeout);
    hide OsdBacked, JobBacked, DeployBacked;
    OsdBackedNew(p, o, out.status, log');
    assert forall i :: 0 <= i < |out.actions| ==> OnlyLooks(out.actions[i]);
    MoveOutEvidence(log, pass, o.remove.value.osd, a, timeout);
    forall i | |log| <= i < |log'| ensures Recorded(p, r', log', i) {
      assert OnlyLooks(log'[i].action);
      if log'[i].action.Reweighted? { PendingAsks(log, pass, o.remove.value.osd, a, timeout, i); }
    }
    LocalAppend(p, o, r', log, pass, out.actions);
  }

  lemma {:induction false} DeployLocal(p: Pair, o: Osd, log: seq<Logged>, pass: nat, a: Answers)
    requires Local(p, o, log) && PhaseIs(o, RemoveFinished) && o.remove.value.deploy.None? && JobDone(o)
    ensures var out := RemoveDeployment(p, a);
      Local(p, o.(remove := Some(o.remove.value.(deploy := Some(out.status)))), log + LoggedAll(pass, out.actions))
  {
    var out := RemoveDeployment(p, a);
    var r', more := o.remove.value.(deploy := Some(out.status)), LoggedAll(pass, out.actions);
    NotAgain(p, o, log, out.actions[0]);
    OsdBackedAppend(p, o, r'.osd.phase, log, more);
    JobBackedAppend(r'.job, log, more);
    assert (log + more)[|log|].action == RemovedDeployment(CommandId(p.osd), a.deploymentRemoved);
    hide OsdBacked, JobBacked;
    LocalAppend(p, o, r', log, pass, out.actions);
  }

  lemma {:induction false} JobNowBacked(osds: map<Pair, Osd>, p: Pair, log: seq<Logged>, pass: nat, a: Answers)
    requires p in osds && osds[p].remove.Some? && JobOpen(osds[p].remove.value.job) && JobBacked(osds[p].remove.value.job, log)
    ensures var out := HandleJobRun(osds, p, a); JobBacked(Some(out.status), log + LoggedAll(pass, out.actions))
  {
    hide ParallelJob, JobDevices;
    var out := HandleJobRun(osds, p, a);
    var job, more := osds[p].remove.value.job, LoggedAll(pass, out.actions);
    var log' := log + more;
    if out.actions != [] { assert log'[|log|].action == out.actions[0]; }
    if job.Some? && job.value.phase == RemoveInProgress {
      JobBackedAppend(job, log, more);
      var i: nat :| JobCreated(log, i);
      assert JobCreated(log', i);
      if out.status.phase == RemoveFailed { assert JobWrong(log'[|log|].action); }
    } else if out.status.phase == RemoveInProgress {
      assert JobCreated(log', |log|);
    } else if out.status.phase == RemoveFailed {
      assert JobWrong(log'[|log|].action);
    }
  }

  lemma {:induction false} JobLocal(osds: map<Pair, Osd>, p: Pair, log: seq<Logged>, pass: nat, a: Answers)
    requires p in osds && Local(p, osds[p], log) && Removed(osds[p]) && JobOpen(osds[p].remove.value.job)
    ensures var out := HandleJobRun(osds, p, a);
      Local(p, osds[p].(remove := Some(osds[p].remove.value.(job := Some(out.status)))), log + LoggedAll(pass, out.actions))
  {
    var o, out := osds[p], HandleJobRun(osds, p, a);
    var r', more := o.remove.value.(job := Some(out.status)), LoggedAll(pass, out.actions);
    assert r'.deploy.None? by { hide OsdBacked, JobBacked, DeployBacked, Recorded, Evidence, Once; }
    JobOutcomeShape(osds, p, a);
    hide HandleJobRun, Recorded, Evidence, Once;
    if out.actions != [] {
      NotAgain(p, o, log, out.actions[0]);
    }
    OsdBackedAppend(p, o, r'.osd.phase, log, more);
    JobNowBacked(osds, p, log, pass, a);
    assert DeployBacked(p, o, r', log + more);
    hide OsdBacked, JobBacked, DeployBacked;
    EvidenceStays(p, o.remove.value, r', log, more);
    forall i | |log| <= i < |log| + |out.actions| ensures Recorded(p, r', log + more, i) { JobRecorded(p, r', log, pass, out, i); }
    LocalAppend(p, o, r', log, pass, out.actions);
  }

  /** A job outcome is forward, logs at most one entry about the job, and starts a job only once. */
  lemma {:induction false} JobOutcomeShape(osds: map<Pair, Osd>, p: Pair, a: Answers)
    requires p in osds && Removed(osds[p]) && JobOpen(osds[p].remove.value.job) && Shape(osds[p].remove.value) && osds[p].remove.value.deploy.None?
    ensures var out := HandleJobRun(osds, p, a); var r' := osds[p].remove.value.(job := Some(out.status));
      && Forward(osds[p].remove.value, r') && Shape(r') && |out.actions| <= 1
      && (out.actions != [] && !out.actions[0].SawJob? ==>
            && out.actions[0].RanCleanupJob? && out.status.phase != RemovePending
            && (osds[p].remove.value.job.None? || osds[p].remove.value.job.value.phase == RemovePending))
  {
    hide ParallelJob, JobDevices;
  }

  lemma {:induction false} EvidenceStays(p: Pair, r: RemoveResult, r': RemoveResult, log: seq<Logged>, more: seq<Logged>)
    requires r'.osd == r.osd && (r.osd.phase == RemoveFinished || r.osd.phase == RemoveSkipped)
    ensures Evidence(p, r', log + more)
  {
  }

  lemma {:induction false} JobRecorded(p: Pair, r': RemoveResult, log: seq<Logged>, pass: nat, out: Outcome, i: nat)
    requires |log| <= i < |log| + |out.actions| && |out.actions| <= 1 && r'.job == Some(out.status)
    requires out.actions != [] ==> out.actions[0].SawJob? || (out.actions[0].RanCleanupJob? && out.status.phase != RemovePending)
    ensures Recorded(p, r', log + LoggedAll(pass, out.actions), i)
  {
    assert (log + LoggedAll(pass, out.actions))[i].action == out.actions[i - |log|];
  }

  /** Only a job or a deployment that need not be touched is marked as skipped. */
  predicate Skips(o: Osd, r': RemoveResult) {
    o.remove.Some? && var r := o.remove.value;
      && r'.osd == r.osd
      && (r'.job == r.job || r'.job == Some(Just(RemoveSkipped)))
      && (r'.deploy == r.deploy || (r'.deploy == Some(Just(RemoveSkipped)) && (r.osd.phase == RemoveSkipped || o.skipCleanup)))
  }

  lemma {:induction false} SilentLocal(p: Pair, o: Osd, r': RemoveResult, log: seq<Logged>, pass: nat)
    requires Local(p, o, log) && Skips(o, r') && Forward(o.remove.value, r') && Shape(r')
    ensures Local(p, o.(remove := Some(r')), log + LoggedAll(pass, []))
  {
    assert log + LoggedAll(pass, []) == log;
    assert Backed(p, o, r', log);
    hide Backed, Shape;
    LocalAppend(p, o, r', log, pass, []);
  }
}
