/**
 * Whole runs of a removal: any number of passes from a fresh cleanup map, with any answers of the
 * cluster and any iteration order in every pass.
 */
module ExecutorRuns {
  import opened Wrappers
  import opened RemovalPlan
  import opened Executor
  import opened ExecutorInvariants
  import opened ExecutorPass

  /** The persisted map, the commands so far and the number of passes so far. */
  datatype World = World(info: RemoveInfo, trace: Trace, passes: nat)

  /** What is outside the control of a pass. */
  datatype Input = Input(env: Env, order: seq<Pair>, hostOrder: seq<string>)

  ghost function ResultOf(w: World, i: Input): PassResult
    requires ValidInput(w.info, i.order, i.hostOrder)
  {
    Pass(w.info, w.trace, w.passes, i.env, i.order, i.hostOrder)
  }

  ghost predicate Follows(w: World, i: Input, w': World) {
    && ValidInput(w.info, i.order, i.hostOrder)
    && w' == World(ResultOf(w, i).info, ResultOf(w, i).trace, w.passes + 1)
  }

  ghost predicate Starts(w: World) {
    Fresh(w.info) && w.trace == [] && w.passes == 0
  }

  ghost predicate IsRun(ws: seq<World>, ins: seq<Input>) {
    && |ws| == |ins| + 1 && Starts(ws[0])
    && forall k :: 0 <= k < |ins| ==> Follows(ws[k], ins[k], ws[k + 1])
  }

  ghost predicate Reachable(w: World) {
    WellFormed(w.info) && Inv(w.info.osds, w.trace) && Before(w.trace, w.passes)
  }

  lemma {:induction false} StartReachable(w: World)
    requires Starts(w)
    ensures Reachable(w)
  {
    assert forall q :: Of([], q) == [];
  }

  lemma {:induction false} NextReachable(w: World, i: Input, w': World)
    requires Reachable(w) && Follows(w, i, w')
    ensures Reachable(w')
    ensures AllAdvance(w.info.osds, w'.info.osds) && HostsAdvance(w.info.hosts, w'.info.hosts)
  {
    hide Inv, Before, Pass;
    PassKeeps(w.info, w.trace, w.passes, i.env, i.order, i.hostOrder);
  }

  lemma {:induction false} RunReachable(ws: seq<World>, ins: seq<Input>, k: nat)
    requires IsRun(ws, ins) && k < |ws|
    ensures Reachable(ws[k])
  {
    hide Reachable, Follows, Starts;
    if k == 0 {
      StartReachable(ws[0]);
    } else {
      RunReachable(ws, ins, k - 1);
      assert Follows(ws[k - 1], ins[k - 1], ws[k - 1 + 1]);
      NextReachable(ws[k - 1], ins[k - 1], ws[k]);
    }
  }

  // ------------------------------------------------------------ the trace grows

  lemma {:induction false} StepExtends(c: Context, b: RemovePhase, p: Pair, st: State)
    requires Covers(c, st) && p in st.info.osds
    ensures st.trace <= Step(c, b, p, st).trace
  {
    hide HandleJobRun, OsdOutcome, Tagged, Covers, WellFormed, AllHaveStatus, ResetWaiting, FinishedStep;
    if b == RemoveFinished { FinishedPlain(c, p, st); }
  }

  lemma {:induction false} LoopExtends(c: Context, b: RemovePhase, order: seq<Pair>, st: State)
    requires Covers(c, st) && forall p :: p in order ==> p in c.begin.osds
    ensures st.trace <= Loop(c, b, order, st).trace
  {
    hide Step;
    if order != [] {
      LoopExtends(c, b, order[..|order| - 1], st);
      StepExtends(c, b, order[|order| - 1], Loop(c, b, order[..|order| - 1], st));
    }
  }

  lemma {:induction false} HostsExtend(c: Context, hosts: seq<string>, st: State)
    requires WellFormed(st.info)
    ensures st.trace <= RemoveHosts(c, hosts, st).trace
  {
    hide HostDue;
    if hosts != [] {
      HostsExtend(c, hosts[..|hosts| - 1], st);
    }
  }

  lemma {:induction false} ContinuedExtends(c: Context, order: seq<Pair>, trace: Trace)
    requires WellFormed(c.begin) && AllHaveStatus(c.begin.osds) && forall p :: p in order ==> p in c.begin.osds
    ensures trace <= Continued(c, order, trace).trace
  {
    hide Loop, Covers, FailedIssues, HasBucket;
    var st := Initial(c.begin, trace);
    assert Covers(c, st) by { InitialCovers(c, trace); }
    LoopExtends(c, RemoveFinished, order, st);
    var st1 := Loop(c, RemoveFinished, order, st);
    LoopExtends(c, RemoveStray, order, st1);
    var st2 := Loop(c, RemoveStray, order, st1);
    LoopExtends(c, RemoveInProgress, order, st2);
    var st3 := Loop(c, RemoveInProgress, order, st2);
    LoopExtends(c, RemoveWaitingRebalance, order, st3);
    LoopExtends(c, RemovePending, order, Loop(c, RemoveWaitingRebalance, order, st3));
  }

  lemma {:induction false} InitialCovers(c: Context, trace: Trace)
    requires WellFormed(c.begin) && AllHaveStatus(c.begin.osds)
    ensures Covers(c, Initial(c.begin, trace))
  {
  }

  /** No command is ever dropped from the trace. */
  lemma {:induction false} TraceGrows(w: World, i: Input, w': World)
    requires Follows(w, i, w')
    ensures w.trace <= w'.trace
  {
    hide HostDue, RemoveHosts, Continued;
    var c := Context(i.env, w.passes, Collected(w.info));
    HostsExtend(c, i.hostOrder, State(c.begin, w.trace, 0, true, map[], false));
    ContinuedExtends(c, i.order, w.trace);
  }

  /** Two entries of the trace about one OSD are two entries of its log, in the same order. */
  lemma {:induction false} InLog(trace: Trace, p: Pair, j: nat) returns (j': nat)
    requires j < |trace| && trace[j].OsdEvent? && trace[j].at == p
    ensures j' < |Of(trace, p)| && Of(trace, p)[j'] == Logged(trace[j].pass, trace[j].action)
    ensures j' == |Of(trace[..j], p)|
  {
    var init := trace[..|trace| - 1];
    if j == |trace| - 1 {
      j' := |Of(init, p)|;
    } else {
      j' := InLog(init, p, j);
      assert init[..j] == trace[..j];
    }
  }

  lemma {:induction false} InLogOrdered(trace: Trace, p: Pair, i: nat, j: nat) returns (i': nat, j': nat)
    requires i < j < |trace| && trace[i].OsdEvent? && trace[i].at == p && trace[j].OsdEvent? && trace[j].at == p
    ensures i' < j' < |Of(trace, p)|
    ensures Of(trace, p)[i'].action == trace[i].action && Of(trace, p)[j'].action == trace[j].action
  {
    i' := InLog(trace, p, i);
    j' := InLog(trace, p, j);
    var before := trace[..j];
    var k := InLog(before, p, i);
    assert before[..i] == trace[..i];
  }

  // ----------------------------------------------------------- safety theorems

  /** A job that wipes `device` on the host was started by this entry of the trace. */
  predicate ZapsDisk(e: Event, host: string, device: string) {
    e.OsdEvent? && e.at.host == host && Zaps(e.action, device)
  }

  /** In a whole run at most one cleanup job carries the order to wipe a given disk. */
  lemma {:induction false} OneZapPerDisk(ws: seq<World>, ins: seq<Input>, k: nat, i: nat, j: nat, host: string, device: string)
    requires IsRun(ws, ins) && k < |ws| && i < j < |ws[k].trace|
    requires ZapsDisk(ws[k].trace[i], host, device)
    ensures !ZapsDisk(ws[k].trace[j], host, device)
  {
    hide Reachable, Follows;
    RunReachable(ws, ins, k);
    OneZapKept(ws[k], i, j, host, device);
  }

  lemma {:induction false} OneZapKept(w: World, i: nat, j: nat, host: string, device: string)
    requires Reachable(w) && i < j < |w.trace| && ZapsDisk(w.trace[i], host, device)
    ensures !ZapsDisk(w.trace[j], host, device)
  {
    hide Of, Local;
    var osds, t := w.info.osds, w.trace;
    if ZapsDisk(t[j], host, device) {
      var p, q := t[i].at, t[j].at;
      if p == q {
        var i', j' := InLogOrdered(t, p, i, j);
        assert SameOneShot(Of(t, p)[i'].action, Of(t, p)[j'].action);
        LocalOnce(p, osds[p], Of(t, p));
      } else {
        EventInMap(w, i);
        EventInMap(w, j);
        var i' := InLog(t, p, i);
        assert Neighbour(osds, p, q) && ZapRan(Of(t, p), device);
        var j' := InLog(t, q, j);
      }
    }
  }

  /** Every command concerns an OSD of the map. */
  lemma {:induction false} EventInMap(w: World, i: nat)
    requires Reachable(w) && i < |w.trace| && w.trace[i].OsdEvent?
    ensures w.trace[i].at in w.info.osds
  {
    hide Of, Local, OneJobPerHost, OneRebalance, ZapSafe;
    var i' := InLog(w.trace, w.trace[i].at, i);
  }

  lemma {:induction false} LocalOnce(p: Pair, o: Osd, log: seq<Logged>)
    requires Local(p, o, log)
    ensures Once(log)
  {
  }

  /** Once a disk was wiped, every other OSD on it has been cleaned up and none of them opted out. */
  lemma {:induction false} ZapLeavesNobody(ws: seq<World>, ins: seq<Input>, k: nat, i: nat, device: string, q: Pair)
    requires IsRun(ws, ins) && k < |ws| && i < |ws[k].trace| && ws[k].trace[i].OsdEvent?
    requires Zaps(ws[k].trace[i].action, device)
    requires Neighbour(ws[k].info.osds, ws[k].trace[i].at, q) && device in ws[k].info.osds[q].devices
    ensures !ws[k].info.osds[q].skipCleanup && JobDone(ws[k].info.osds[q])
  {
    hide Of, Follows, Local, JobDone;
    RunReachable(ws, ins, k);
    var i' := InLog(ws[k].trace, ws[k].trace[i].at, i);
    assert ZapRan(Of(ws[k].trace, ws[k].trace[i].at), device);
  }

  /** On every host at most one cleanup job is running; in the whole task at most one OSD rebalances. */
  lemma {:induction false} AtMostOneAtATime(ws: seq<World>, ins: seq<Input>, k: nat)
    requires IsRun(ws, ins) && k < |ws|
    ensures OneJobPerHost(ws[k].info.osds) && OneRebalance(ws[k].info.osds)
  {
    hide Of, Follows, Local;
    RunReachable(ws, ins, k);
  }

  /**
   * A purge of an OSD that is not a stray comes after a strictly earlier pass in which its state
   * was seen last, its weight was set to zero if it was in, and it was down or had no placement
   * groups any more.
   */
  lemma {:induction false} PurgeOnlyDrained(ws: seq<World>, ins: seq<Input>, k: nat, i: nat)
    requires IsRun(ws, ins) && k < |ws| && i < |ws[k].trace| && ws[k].trace[i].OsdEvent?
    requires ws[k].trace[i].action.Purged? && !IsStray(ws[k].trace[i].at)
    ensures ws[k].trace[i].action.id == ws[k].trace[i].at.osd
    ensures exists i': nat, m: nat ::
      && i' < |Of(ws[k].trace, ws[k].trace[i].at)|
      && Of(ws[k].trace, ws[k].trace[i].at)[i'] == Logged(ws[k].trace[i].pass, ws[k].trace[i].action)
      && DrainedBefore(Of(ws[k].trace, ws[k].trace[i].at), m, i')
  {
    hide Of, Follows, DrainedBefore, Reachable;
    RunReachable(ws, ins, k);
    var i', m := PurgeKept(ws[k], i);
  }

  lemma {:induction false} PurgeKept(w: World, i: nat) returns (i': nat, m: nat)
    requires Reachable(w) && i < |w.trace| && w.trace[i].OsdEvent? && w.trace[i].action.Purged? && !IsStray(w.trace[i].at)
    ensures w.trace[i].action.id == w.trace[i].at.osd
    ensures i' < |Of(w.trace, w.trace[i].at)| && Of(w.trace, w.trace[i].at)[i'] == Logged(w.trace[i].pass, w.trace[i].action)
    ensures DrainedBefore(Of(w.trace, w.trace[i].at), m, i')
  {
    hide Of, DrainedBefore;
    var p := w.trace[i].at;
    i' := InLog(w.trace, p, i);
    var log := Of(w.trace, p);
    assert Recorded(p, w.info.osds[p].remove.value, log, i');
    m :| DrainedBefore(log, m, i');
  }

  /**
   * Every status rests on the commands and observations of the run: a finished removal on scale-down,
   * purge and keyring deletion, all of them successful and with the id of the OSD (for a stray outside
   * the CRUSH map on a sight that its id is free, scale-down and keyring deletion), a completed job on
   * its creation and a sight of its success, a removed deployment on its removal, and every failure on
   * something that went wrong.
   */
  lemma {:induction false} StatusesBacked(ws: seq<World>, ins: seq<Input>, k: nat, p: Pair)
    requires IsRun(ws, ins) && k < |ws| && p in ws[k].info.osds && ws[k].info.osds[p].remove.Some?
    ensures var o, log := ws[k].info.osds[p], Of(ws[k].trace, p); var r := o.remove.value;
      OsdBacked(p, o, r.osd.phase, log) && JobBacked(r.job, log) && DeployBacked(p, o, r, log)
  {
    hide Of, Follows, OneJobPerHost, OneRebalance, ZapSafe, Before;
    RunReachable(ws, ins, k);
    assert Local(p, ws[k].info.osds[p], Of(ws[k].trace, p));
  }

  /** So an OSD that is finished, and not a stray, was scaled down, purged and deprived of its keyring, under its own id. */
  lemma {:induction false} FinishedWasPurged(ws: seq<World>, ins: seq<Input>, k: nat, p: Pair)
    requires IsRun(ws, ins) && k < |ws| && p in ws[k].info.osds && PhaseIs(ws[k].info.osds[p], RemoveFinished) && !IsStray(p)
    ensures HasAll(Of(ws[k].trace, p), ScaledDown(p.osd, true), Purged(p.osd, true), DeletedKeyring(p.osd, true))
  {
    hide Of, IsRun, HasAll;
    StatusesBacked(ws, ins, k, p);
  }

  /** The weight of an OSD is set only after it was seen in, and, if it is up, after the cluster agreed to stop it, in the same pass. */
  lemma {:induction false} ReweightAgreed(ws: seq<World>, ins: seq<Input>, k: nat, i: nat) returns (i': nat, j: nat)
    requires IsRun(ws, ins) && k < |ws| && i < |ws[k].trace| && ws[k].trace[i].OsdEvent? && ws[k].trace[i].action.Reweighted?
    ensures var log := Of(ws[k].trace, ws[k].trace[i].at);
      i' < |log| && log[i'] == Logged(ws[k].trace[i].pass, ws[k].trace[i].action) && AskedFirst(log, j, i')
  {
    hide Of, Follows, AskedFirst, OneJobPerHost, OneRebalance, ZapSafe, Before;
    RunReachable(ws, ins, k);
    var p := ws[k].trace[i].at;
    i' := InLog(ws[k].trace, p, i);
    assert Recorded(p, ws[k].info.osds[p].remove.value, Of(ws[k].trace, p), i');
    j :| AskedFirst(Of(ws[k].trace, p), j, i');
  }

  predicate Destroys(a: Action) {
    a.ScaledDown? || a.Purged? || a.DeletedKeyring? || a.RemovedDeployment?
  }

  /** A stray whose id was seen in the cluster never has its keyring or deployment touched, before or after. */
  lemma {:induction false} SeenStraySpared(ws: seq<World>, ins: seq<Input>, k: nat, i: nat, j: nat)
    requires IsRun(ws, ins) && k < |ws| && i < |ws[k].trace| && j < |ws[k].trace|
    requires ws[k].trace[i].OsdEvent? && ws[k].trace[i].action == SawListed(true)
    requires ws[k].trace[j].OsdEvent? && ws[k].trace[j].at == ws[k].trace[i].at
    ensures !Destroys(ws[k].trace[j].action)
  {
    hide Follows, Reachable, Destroys;
    RunReachable(ws, ins, k);
    StrayKept(ws[k], i, j);
  }

  lemma {:induction false} StrayKept(w: World, i: nat, j: nat)
    requires Reachable(w) && i < |w.trace| && j < |w.trace|
    requires w.trace[i].OsdEvent? && w.trace[i].action == SawListed(true)
    requires w.trace[j].OsdEvent? && w.trace[j].at == w.trace[i].at
    ensures !Destroys(w.trace[j].action)
  {
    hide Of, Once, Evidence, Drained, DrainedBefore;
    var p := w.trace[i].at;
    var i' := InLog(w.trace, p, i);
    var j' := InLog(w.trace, p, j);
    var log, r := Of(w.trace, p), w.info.osds[p].remove.value;
    assert Recorded(p, r, log, i') && Recorded(p, r, log, j');
  }

  /** Statuses only move forward and the approved plan never changes, over any part of a run. */
  lemma {:induction false} RunAdvances(ws: seq<World>, ins: seq<Input>, j: nat, k: nat)
    requires IsRun(ws, ins) && j <= k < |ws|
    ensures AllAdvance(ws[j].info.osds, ws[k].info.osds) && HostsAdvance(ws[j].info.hosts, ws[k].info.hosts)
  {
    hide Inv, Before, Advances, Follows;
    if j == k {
      forall q | q in ws[j].info.osds ensures Advances(ws[j].info.osds[q], ws[j].info.osds[q]) { AdvancesItself(ws[j].info.osds[q]); }
    } else {
      RunAdvances(ws, ins, j, k - 1);
      RunReachable(ws, ins, k - 1);
      assert Follows(ws[k - 1], ins[k - 1], ws[k - 1 + 1]);
      NextReachable(ws[k - 1], ins[k - 1], ws[k]);
      AdvanceTwice(ws[j].info.osds, ws[k - 1].info.osds, ws[k].info.osds);
      HostsAdvanceTwice(ws[j].info.hosts, ws[k - 1].info.hosts, ws[k].info.hosts);
    }
  }

  /** Finished, Skipped and Failed are final: status, error and times stay as they are. */
  lemma {:induction false} FinalStays(ws: seq<World>, ins: seq<Input>, j: nat, k: nat, p: Pair)
    requires IsRun(ws, ins) && j <= k < |ws| && p in ws[j].info.osds
    requires PhaseIs(ws[j].info.osds[p], RemoveFinished) || PhaseIs(ws[j].info.osds[p], RemoveSkipped)
          || PhaseIs(ws[j].info.osds[p], RemoveFailed)
    ensures p in ws[k].info.osds && ws[k].info.osds[p].remove.Some?
    ensures ws[k].info.osds[p].remove.value.osd == ws[j].info.osds[p].remove.value.osd
  {
    RunAdvances(ws, ins, j, k);
    assert Advances(ws[j].info.osds[p], ws[k].info.osds[p]);
  }

  /** A failed OSD stops the pending ones: they keep their status for the rest of the run. */
  lemma {:induction false} FailureFreezesPending(ws: seq<World>, ins: seq<Input>, j: nat, k: nat, failed: Pair, p: Pair)
    requires IsRun(ws, ins) && j <= k < |ws|
    requires failed in ws[j].info.osds && PhaseIs(ws[j].info.osds[failed], RemoveFailed)
    requires p in ws[j].info.osds && PhaseIs(ws[j].info.osds[p], RemovePending)
    ensures p in ws[k].info.osds && ws[k].info.osds[p] == ws[j].info.osds[p]
  {
    hide Inv, Before, Follows, Advances;
    if j < k {
      FailureFreezesPending(ws, ins, j, k - 1, failed, p);
      FinalStays(ws, ins, j, k - 1, failed);
      RunReachable(ws, ins, k - 1);
      assert Follows(ws[k - 1], ins[k - 1], ws[k - 1 + 1]);
      PassFreezes(ws[k - 1], ins[k - 1], ws[k], failed, p);
    }
  }

  lemma {:induction false} CollectedSame(info: RemoveInfo, p: Pair)
    requires p in info.osds && info.osds[p].remove.Some?
    ensures p in Collected(info).osds && Collected(info).osds[p] == info.osds[p]
  {
  }

  lemma {:induction false} ContinuedFreezes(c: Context, order: seq<Pair>, trace: Trace, failed: Pair, p: Pair)
    requires WellFormed(c.begin) && AllHaveStatus(c.begin.osds) && IsOrder(order, c.begin.osds.Keys)
    requires Inv(c.begin.osds, trace) && Before(trace, c.pass)
    requires failed in c.begin.osds && PhaseIs(c.begin.osds[failed], RemoveFailed)
    requires p in c.begin.osds && PhaseIs(c.begin.osds[p], RemovePending)
    ensures p in Continued(c, order, trace).info.osds && Continued(c, order, trace).info.osds[p] == c.begin.osds[p]
  {
    hide Inv, Before, Of, Continued, Advances, WellFormed;
    assert Bucket(c.begin.osds[failed]) == RemoveFailed && Unvisited(Bucket(c.begin.osds[p]));
    assert HasBucket(c.begin, RemoveFailed);
    ContinuedKeeps(c, order, trace);
  }

  lemma {:induction false} PassFreezes(w: World, i: Input, w': World, failed: Pair, p: Pair)
    requires Reachable(w) && Follows(w, i, w')
    requires failed in w.info.osds && PhaseIs(w.info.osds[failed], RemoveFailed)
    requires p in w.info.osds && PhaseIs(w.info.osds[p], RemovePending)
    ensures p in w'.info.osds && w'.info.osds[p] == w.info.osds[p]
  {
    hide Inv, Before, Of, HostDue, RemoveHosts, Continued, Advances, AllAdvance, Collected, PhaseIs;
    var begin := Collected(w.info);
    var c := Context(i.env, w.passes, begin);
    CollectedKeeps(w.info, w.trace);
    PhaseStatus(w.info.osds[p], RemovePending);
    PhaseStatus(w.info.osds[failed], RemoveFailed);
    CollectedSame(w.info, p);
    CollectedSame(w.info, failed);
    CollectedPlain(w.info);
    if exists h :: h in begin.hosts && HostDue(begin, h) {
      RemoveHostsKeeps(c, i.hostOrder, State(begin, w.trace, 0, true, map[], false));
    } else {
      ContinuedFreezes(c, i.order, w.trace, failed, p);
    }
  }

  lemma {:induction false} PhaseStatus(o: Osd, phase: RemovePhase)
    requires PhaseIs(o, phase)
    ensures o.remove.Some?
  {
  }
}
