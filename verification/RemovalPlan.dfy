/**
 * The persisted state of a CephOsdRemoveTask in processing: the approved cleanup map with the
 * remove statuses of every OSD and host, the answers of the cluster to the commands of one pass,
 * and the trace of those commands.
 */
module Wrappers {
  datatype Option<+T> = None | Some(value: T)

  function Look<K, V>(m: map<K, V>, k: K): Option<V> {
    if k in m then Some(m[k]) else None
  }

  predicate NoDuplicates<T(==)>(s: seq<T>) {
    forall i, j :: 0 <= i < j < |s| ==> s[i] != s[j]
  }
}

module RemovalPlan {
  import opened Wrappers

  // ---------------------------------------------------------------- statuses

  datatype RemovePhase =
    | RemovePending
    | RemoveWaitingRebalance
    | RemoveInProgress
    | RemoveStray
    | RemoveCompleted
    | RemoveFinished
    | RemoveFailed
    | RemoveSkipped

  /** One status line; `error` says that the error text is not empty, `startedAt` is a time or absent. */
  datatype RemoveStatus = RemoveStatus(phase: RemovePhase, startedAt: Option<int>, error: bool)

  /** The three statuses of one OSD: its removal from the cluster, its disk cleanup job, its deployment. */
  datatype RemoveResult = RemoveResult(osd: RemoveStatus, job: Option<RemoveStatus>, deploy: Option<RemoveStatus>)

  function Just(phase: RemovePhase): RemoveStatus {
    RemoveStatus(phase, None, false)
  }

  // -------------------------------------------------------------- cleanup map

  datatype Device = Device(zap: bool, raw: bool, alive: bool)

  datatype Osd = Osd(inCrushMap: bool, devices: map<string, Device>, skipCleanup: bool, remove: Option<RemoveResult>)

  datatype Host = Host(completeCleanup: bool, dropFromCrush: bool, nodeIsDown: bool, volumesInfoMissed: bool,
                       removed: Option<RemoveStatus>)

  /** A host name and an OSD key below it in the cleanup map. */
  datatype Pair = Pair(host: string, osd: string)

  datatype Issue =
    | OsdRemoveFailed(at: Pair)
    | CleanupJobFailed(at: Pair)
    | DeploymentKept(at: Pair)
    | DeploymentRemoveFailed(at: Pair)
    | ValidationIssue(text: string)
    | EmptyRemoveInfo

  datatype Warning = HostRemoveFailed(host: string) | UnexpectedJobStatus(at: Pair)

  /** The nested map host -> OSD -> mapping, flattened: `osds` is keyed by the path host/OSD. */
  datatype RemoveInfo = RemoveInfo(hosts: map<string, Host>, osds: map<Pair, Osd>,
                                   issues: set<Issue>, warnings: seq<Warning>)

  /** Every OSD hangs below a host of the map. */
  predicate WellFormed(info: RemoveInfo) {
    forall p :: p in info.osds ==> p.host in info.hosts
  }

  /** What validation hands over: nothing has a remove status yet. */
  predicate Fresh(info: RemoveInfo) {
    && WellFormed(info)
    && (forall p :: p in info.osds ==> info.osds[p].remove.None?)
    && (forall h :: h in info.hosts ==> info.hosts[h].removed.None?)
  }

  const STRAY_MARKER := "__stray"

  predicate HasSuffix(s: string, suffix: string) {
    |suffix| <= |s| && s[|s| - |suffix|..] == suffix
  }

  predicate IsStrayOsdId(osd: string) {
    HasSuffix(osd, STRAY_MARKER)
  }

  /** Strays are removed without draining: by their key, or because they belong to no known host. */
  predicate IsStray(p: Pair) {
    IsStrayOsdId(p.osd) || p.host == STRAY_MARKER
  }

  /** The part of an OSD key before the first dot. */
  function BaseId(osd: string): (id: string)
    ensures id <= osd && '.' !in id
    ensures '.' !in osd ==> id == osd
  {
    if osd == "" || osd[0] == '.' then "" else [osd[0]] + BaseId(osd[1..])
  }

  /** The id used in the commands about an OSD key. */
  function CommandId(osd: string): string {
    if IsStrayOsdId(osd) then BaseId(osd) else osd
  }

  lemma {:induction false} BaseIdOf(base: string, rest: string)
    requires '.' !in base
    ensures BaseId(base + "." + rest) == base
  {
    if base != "" {
      BaseIdOf(base[1..], rest);
      assert (base + "." + rest)[1..] == base[1..] + "." + rest;
    }
  }

  /** Commands about a stray use the part of its key before the dot, those about any other OSD its key. */
  lemma {:induction false} CommandIds(base: string, rest: string)
    requires '.' !in base
    ensures IsStrayOsdId(base + "." + rest + STRAY_MARKER) && CommandId(base + "." + rest + STRAY_MARKER) == base
    ensures |base| < |STRAY_MARKER| ==> CommandId(base) == base
  {
    var key := base + "." + rest + STRAY_MARKER;
    assert key[|key| - |STRAY_MARKER|..] == STRAY_MARKER;
    assert key == base + "." + (rest + STRAY_MARKER);
    BaseIdOf(base, rest + STRAY_MARKER);
  }

  // -------------------------------------------------- environment and trace

  datatype OsdState = OsdState(isIn: bool, isUp: bool)

  datatype JobState = JobActive | JobFailed | JobSucceeded | JobNotStarted

  /** What the cluster answers about one OSD during one pass; None is a command that kept failing. */
  datatype Answers = Answers(
    state: Option<OsdState>,
    okToStop: bool,
    reweighted: bool,
    hasPgs: Option<bool>,
    listed: Option<bool>,
    scaledDown: bool,
    purged: bool,
    keyringDeleted: bool,
    jobCreated: bool,
    job: Option<JobState>,
    deploymentRemoved: bool,
    now: int)

  datatype Env = Env(osd: Pair -> Answers, hostRemoved: string -> bool, rebalanceTimeout: int)

  /** Commands and observations; the flags are the answers. `NoAnswer` is a question that kept failing. */
  datatype Action =
    | NoAnswer
    | SawState(state: OsdState)
    | AskedOkToStop(ok: bool)
    | Reweighted(ok: bool)
    | SawPgs(present: bool)
    | SawListed(listed: bool)
    | ScaledDown(id: string, ok: bool)
    | Purged(id: string, ok: bool)
    | DeletedKeyring(id: string, ok: bool)
    | RanCleanupJob(devices: map<string, Device>, ok: bool)
    | SawJob(job: Option<JobState>)
    | RemovedDeployment(id: string, ok: bool)

  datatype Event = OsdEvent(pass: nat, at: Pair, action: Action) | HostEvent(pass: nat, host: string, ok: bool)

  type Trace = seq<Event>

  datatype Logged = Logged(pass: nat, action: Action)

  function Tagged(pass: nat, at: Pair, actions: seq<Action>): Trace {
    seq(|actions|, i requires 0 <= i < |actions| => OsdEvent(pass, at, actions[i]))
  }

  function LoggedAll(pass: nat, actions: seq<Action>): seq<Logged> {
    seq(|actions|, i requires 0 <= i < |actions| => Logged(pass, actions[i]))
  }

  /** The part of a trace that concerns one OSD. */
  function Of(trace: Trace, p: Pair): seq<Logged> {
    if trace == [] then []
    else
      var rest := Of(trace[..|trace| - 1], p);
      match trace[|trace| - 1]
      case OsdEvent(pass, at, action) => if at == p then rest + [Logged(pass, action)] else rest
      case HostEvent(_, _, _) => rest
  }

  lemma {:induction false} OfAppend(trace: Trace, more: Trace, p: Pair)
    ensures Of(trace + more, p) == Of(trace, p) + Of(more, p)
  {
    if more == [] {
      assert trace + more == trace;
    } else {
      var init := more[..|more| - 1];
      OfAppend(trace, init, p);
      assert (trace + more)[..|trace + more| - 1] == trace + init;
      assert Of(trace, p) + Of(init, p) + [] == Of(trace, p) + Of(init, p);
    }
  }

  lemma {:induction false} OfTagged(pass: nat, at: Pair, actions: seq<Action>, p: Pair)
    ensures Of(Tagged(pass, at, actions), p) == if p == at then LoggedAll(pass, actions) else []
  {
    if actions != [] {
      var init := actions[..|actions| - 1];
      OfTagged(pass, at, init, p);
      assert Tagged(pass, at, actions)[..|actions| - 1] == Tagged(pass, at, init);
      assert LoggedAll(pass, actions) == LoggedAll(pass, init) + [Logged(pass, actions[|actions| - 1])];
    }
  }

  /** Events about one OSD extend its log and no other. */
  lemma {:induction false} OfStep(trace: Trace, pass: nat, at: Pair, actions: seq<Action>)
    ensures Of(trace + Tagged(pass, at, actions), at) == Of(trace, at) + LoggedAll(pass, actions)
    ensures forall q :: q != at ==> Of(trace + Tagged(pass, at, actions), q) == Of(trace, q)
  {
    OfAppend(trace, Tagged(pass, at, actions), at);
    OfTagged(pass, at, actions, at);
    forall q | q != at ensures Of(trace + Tagged(pass, at, actions), q) == Of(trace, q) {
      OfAppend(trace, Tagged(pass, at, actions), q);
      OfTagged(pass, at, actions, q);
    }
  }
}
