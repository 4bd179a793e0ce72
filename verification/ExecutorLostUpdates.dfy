/**
 * Runs in which the status written after a pass may be lost: the commands of the pass have been
 * issued, and the next pass starts from the map before it.
 */
module ExecutorLostUpdates {
  import opened Wrappers
  import opened RemovalPlan
  import opened Executor
  import opened ExecutorInvariants
  import opened ExecutorPass
  import opened ExecutorRuns
  import opened SingleOsd

  /** A command that was issued, and whether the status of its pass was written. */
  datatype Sent = Sent(event: Event, written: bool)

  /** What is persisted, with the commands behind it, and all commands that were issued. */
  datatype Lossy = Lossy(kept: World, sent: seq<Sent>)

  ghost function Marked(events: Trace, written: bool): seq<Sent> {
    seq(|events|, i requires 0 <= i < |events| => Sent(events[i], written))
  }

  /** One pass from the persisted map; its status is written or lost. */
  ghost predicate Passes(l: Lossy, i: Input, written: bool, l': Lossy) {
    && ValidInput(l.kept.info, i.order, i.hostOrder)
    && var r := ResultOf(l.kept, i);
       && |l.kept.trace| <= |r.trace|
       && l'.sent == l.sent + Marked(r.trace[|l.kept.trace|..], written)
       && l'.kept == (if written then World(r.info, r.trace, l.kept.passes + 1) else l.kept.(passes := l.kept.passes + 1))
  }

  ghost predicate IsLossyRun(ls: seq<Lossy>, ins: seq<Input>, written: seq<bool>) {
    && |ls| == |ins| + 1 && |written| == |ins| && Starts(ls[0].kept) && ls[0].sent == []
    && forall k :: 0 <= k < |ins| ==> Passes(ls[k], ins[k], written[k], ls[k + 1])
  }

  /** The persisted part of a run satisfies the invariant, and the commands behind it are the written ones, in order. */
  ghost predicate Kept(l: Lossy) {
    Reachable(l.kept) && l.kept.trace == Written(l.sent)
  }

  ghost function Written(sent: seq<Sent>): Trace {
    if sent == [] then []
    else
      var last := sent[|sent| - 1];
      Written(sent[..|sent| - 1]) + if last.written then [last.event] else []
  }

  lemma {:induction false} WrittenMarked(sent: seq<Sent>, events: Trace, written: bool)
    ensures Written(sent + Marked(events, written)) == Written(sent) + if written then events else []
  {
    var all := sent + Marked(events, written);
    if events == [] {
      assert all == sent;
    } else {
      var init := events[..|events| - 1];
      WrittenMarked(sent, init, written);
      assert all[..|all| - 1] == sent + Marked(init, written);
      assert events == init + [events[|events| - 1]];
    }
  }

  /** A written command is among the commands behind the persisted map. */
  lemma {:induction false} WrittenAt(sent: seq<Sent>, i: nat) returns (i': nat)
    requires i < |sent| && sent[i].written
    ensures i' < |Written(sent)| && Written(sent)[i'] == sent[i].event
  {
    if i == |sent| - 1 {
      i' := |Written(sent)| - 1;
    } else {
      i' := WrittenAt(sent[..|sent| - 1], i);
    }
  }

  lemma {:induction false} LaterReachable(w: World)
    requires Reachable(w)
    ensures Reachable(w.(passes := w.passes + 1))
  {
    hide Inv, Of;
  }

  /** The persisted world after the pass, had its status been written. */
  ghost function Tried(l: Lossy, i: Input): World
    requires ValidInput(l.kept.info, i.order, i.hostOrder)
  {
    World(ResultOf(l.kept, i).info, ResultOf(l.kept, i).trace, l.kept.passes + 1)
  }

  lemma {:induction false} TriedReachable(l: Lossy, i: Input)
    requires Reachable(l.kept) && ValidInput(l.kept.info, i.order, i.hostOrder)
    ensures Reachable(Tried(l, i)) && l.kept.trace <= Tried(l, i).trace
  {
    hide Reachable, Pass, ValidInput;
    NextReachable(l.kept, i, Tried(l, i));
    TraceGrows(l.kept, i, Tried(l, i));
  }

  lemma {:induction false} PassKeepsKept(l: Lossy, i: Input, written: bool, l': Lossy)
    requires Kept(l) && Passes(l, i, written, l')
    ensures Kept(l')
  {
    hide Reachable, Pass, Written, Marked, ValidInput;
    TriedReachable(l, i);
    LaterReachable(l.kept);
    var t, r := l.kept.trace, ResultOf(l.kept, i).trace;
    WrittenMarked(l.sent, r[|t|..], written);
    assert r == t + r[|t|..];
  }

  lemma {:induction false} RunKept(ls: seq<Lossy>, ins: seq<Input>, written: seq<bool>, k: nat)
    requires IsLossyRun(ls, ins, written) && k < |ls|
    ensures Kept(ls[k])
  {
    hide Passes, Reachable;
    if k == 0 {
      StartReachable(ls[0].kept);
    } else {
      RunKept(ls, ins, written, k - 1);
      assert Passes(ls[k - 1], ins[k - 1], written[k - 1], ls[k - 1 + 1]);
      PassKeepsKept(ls[k - 1], ins[k - 1], written[k - 1], ls[k]);
    }
  }

  // ----------------------------------------------------------------- where a command is from

  /** The pass that issued a command, with the position the command has in its trace. */
  lemma {:induction false} IssuedBy(ls: seq<Lossy>, ins: seq<Input>, written: seq<bool>, n: nat, j: nat) returns (k: nat, j': nat)
    requires IsLossyRun(ls, ins, written) && n < |ls| && j < |ls[n].sent|
    ensures k < n && Passes(ls[k], ins[k], written[k], ls[k + 1]) && |ls[k].sent| <= j && ls[k].sent <= ls[n].sent
    ensures |ls[k].kept.trace| <= j' < |Tried(ls[k], ins[k]).trace| && Tried(ls[k], ins[k]).trace[j'] == ls[n].sent[j].event
    ensures j - |ls[k].sent| == j' - |ls[k].kept.trace| && ls[n].sent[j].written == written[k]
  {
    hide ResultOf, ValidInput;
    assert n > 0;
    assert Passes(ls[n - 1], ins[n - 1], written[n - 1], ls[n - 1 + 1]);
    if j < |ls[n - 1].sent| {
      k, j' := IssuedBy(ls, ins, written, n - 1, j);
    } else {
      k, j' := n - 1, |ls[n - 1].kept.trace| + (j - |ls[n - 1].sent|);
    }
  }

  // ------------------------------------------------------------------- what survives the loss

  /** Every purge of an OSD that is not a stray, its pass written or lost, has its evidence in persisted earlier passes. */
  lemma {:induction false} PurgeStillDrained(ls: seq<Lossy>, ins: seq<Input>, written: seq<bool>, n: nat, j: nat) returns (k: nat, j': nat, i': nat, m: nat)
    requires IsLossyRun(ls, ins, written) && n < |ls| && j < |ls[n].sent|
    requires ls[n].sent[j].event.OsdEvent? && ls[n].sent[j].event.action.Purged? && !IsStray(ls[n].sent[j].event.at)
    ensures k < n && Passes(ls[k], ins[k], written[k], ls[k + 1])
    ensures |ls[k].kept.trace| <= j' < |Tried(ls[k], ins[k]).trace| && Tried(ls[k], ins[k]).trace[j'] == ls[n].sent[j].event
    ensures ls[k].kept.trace == Written(ls[k].sent) && ls[k].sent <= ls[n].sent
    ensures var e := ls[n].sent[j].event; var log := Of(Tried(ls[k], ins[k]).trace, e.at);
      e.action.id == e.at.osd && i' < |log| && log[i'] == Logged(e.pass, e.action) && DrainedBefore(log, m, i')
  {
    hide Reachable, ResultOf, ValidInput, DrainedBefore, Of, Written, Marked;
    k, j' := IssuedBy(ls, ins, written, n, j);
    RunKept(ls, ins, written, k);
    PassesTried(ls[k], ins[k], written[k], ls[k + 1]);
    i', m := PurgeKept(Tried(ls[k], ins[k]), j');
  }

  lemma {:induction false} PassesTried(l: Lossy, i: Input, written: bool, l': Lossy)
    requires Kept(l) && Passes(l, i, written, l')
    ensures ValidInput(l.kept.info, i.order, i.hostOrder)
    ensures Reachable(Tried(l, i)) && l.kept.trace <= Tried(l, i).trace
  {
    hide Reachable, Pass;
    TriedReachable(l, i);
  }

  /** Of two orders to wipe a disk the earlier one was issued in a pass whose status was lost. */
  lemma {:induction false} OnlyLostZapsRepeat(ls: seq<Lossy>, ins: seq<Input>, written: seq<bool>, n: nat, i: nat, j: nat, host: string, device: string)
    requires IsLossyRun(ls, ins, written) && n < |ls| && i < j < |ls[n].sent|
    requires ZapsDisk(ls[n].sent[i].event, host, device) && ZapsDisk(ls[n].sent[j].event, host, device)
    ensures !ls[n].sent[i].written
  {
    hide Reachable, ResultOf, ValidInput, Written, ZapsDisk, Marked;
    if ls[n].sent[i].written {
      var k, i', j' := BothTried(ls, ins, written, n, i, j);
      OneZapKept(Tried(ls[k], ins[k]), i', j', host, device);
    }
  }

  /** A written command and a later one are both in the trace of the pass that issued the later one. */
  lemma {:induction false} BothTried(ls: seq<Lossy>, ins: seq<Input>, written: seq<bool>, n: nat, i: nat, j: nat) returns (k: nat, i': nat, j': nat)
    requires IsLossyRun(ls, ins, written) && n < |ls| && i < j < |ls[n].sent| && ls[n].sent[i].written
    ensures k < n && Passes(ls[k], ins[k], written[k], ls[k + 1]) && Reachable(Tried(ls[k], ins[k]))
    ensures i' < j' < |Tried(ls[k], ins[k]).trace|
    ensures Tried(ls[k], ins[k]).trace[i'] == ls[n].sent[i].event && Tried(ls[k], ins[k]).trace[j'] == ls[n].sent[j].event
  {
    hide Reachable, ResultOf, ValidInput, Written;
    k, j' := IssuedBy(ls, ins, written, n, j);
    RunKept(ls, ins, written, k);
    PassesTried(ls[k], ins[k], written[k], ls[k + 1]);
    if i < |ls[k].sent| {
      assert ls[k].sent[i] == ls[n].sent[i];
      i' := WrittenAt(ls[k].sent, i);
    } else {
      assert Passes(ls[k], ins[k], written[k], ls[k + 1]);
      i' := j' - (j - i);
      IssuedNext(ls, ins, written, n, i, j, k, j');
    }
  }

  /** Commands of the same pass keep their distance. */
  lemma {:induction false} IssuedNext(ls: seq<Lossy>, ins: seq<Input>, written: seq<bool>, n: nat, i: nat, j: nat, k: nat, j': nat)
    requires IsLossyRun(ls, ins, written) && n < |ls| && i < j < |ls[n].sent| && k < n
    requires |ls[k].sent| <= i && Passes(ls[k], ins[k], written[k], ls[k + 1])
    requires |ls[k].kept.trace| <= j' < |Tried(ls[k], ins[k]).trace| && j - |ls[k].sent| == j' - |ls[k].kept.trace|
    ensures Tried(ls[k], ins[k]).trace[j' - (j - i)] == ls[n].sent[i].event
  {
    hide ResultOf, ValidInput;
    SentGrows(ls, ins, written, k + 1, n);
    assert ls[k + 1].sent[i] == ls[n].sent[i];
  }

  lemma {:induction false} SentGrows(ls: seq<Lossy>, ins: seq<Input>, written: seq<bool>, k: nat, n: nat)
    requires IsLossyRun(ls, ins, written) && k <= n < |ls|
    ensures ls[k].sent <= ls[n].sent
  {
    hide ResultOf, ValidInput, Marked;
    if k < n {
      SentGrows(ls, ins, written, k, n - 1);
      assert Passes(ls[n - 1], ins[n - 1], written[n - 1], ls[n - 1 + 1]);
    }
  }

  /** Once it is on record that a stray was seen in the cluster, nothing of it is removed any more. */
  lemma {:induction false} RecordedStraySpared(ls: seq<Lossy>, ins: seq<Input>, written: seq<bool>, n: nat, i: nat, j: nat)
    requires IsLossyRun(ls, ins, written) && n < |ls| && i < j < |ls[n].sent| && ls[n].sent[i].written
    requires ls[n].sent[i].event.OsdEvent? && ls[n].sent[i].event.action == SawListed(true)
    requires ls[n].sent[j].event.OsdEvent? && ls[n].sent[j].event.at == ls[n].sent[i].event.at
    ensures !Destroys(ls[n].sent[j].event.action)
  {
    hide Reachable, ResultOf, ValidInput, Written, Destroys, Marked;
    var k, i', j' := BothTried(ls, ins, written, n, i, j);
    StrayKept(Tried(ls[k], ins[k]), i', j');
  }

  // ------------------------------------------------------------- the number of a pass

  /** An event without the number of its pass. */
  function Bare(e: Event): Event {
    e.(pass := 0)
  }

  /** The same events, up to the numbers of their passes. */
  ghost predicate SameEvents(a: Trace, b: Trace) {
    |a| == |b| && forall k :: 0 <= k < |a| ==> Bare(a[k]) == Bare(b[k])
  }

  ghost predicate SameState(a: State, b: State) {
    b == a.(trace := b.trace) && SameEvents(a.trace, b.trace)
  }

  ghost predicate SameContext(a: Context, b: Context) {
    a.env == b.env && a.begin == b.begin
  }

  lemma {:induction false} TaggedSame(a: Trace, b: Trace, n: nat, m: nat, p: Pair, actions: seq<Action>)
    requires SameEvents(a, b)
    ensures SameEvents(a + Tagged(n, p, actions), b + Tagged(m, p, actions))
  {
  }

  lemma {:induction false} WithSame(c: Context, d: Context, p: Pair, a: State, b: State, r: RemoveResult, actions: seq<Action>)
    requires SameContext(c, d) && SameState(a, b) && p in a.info.osds
    ensures SameState(WithEvents(WithResult(a, p, r), c.pass, p, actions), WithEvents(WithResult(b, p, r), d.pass, p, actions))
  {
    hide Tagged, SameEvents;
    TaggedSame(a.trace, b.trace, c.pass, d.pass, p, actions);
  }

  lemma {:induction false} DeploySame(c: Context, d: Context, p: Pair, a: State, b: State)
    requires Covers(c, a) && Covers(d, b) && SameContext(c, d) && SameState(a, b) && p in a.info.osds
    ensures SameState(DeployStep(c, p, a), DeployStep(d, p, b))
  {
    hide Tagged, SameEvents, Covers, RemoveDeployment;
    var out := RemoveDeployment(p, c.env.osd(p));
    TaggedSame(a.trace, b.trace, c.pass, d.pass, p, out.actions);
  }

  lemma {:induction false} JobSame(c: Context, d: Context, p: Pair, a: State, b: State)
    requires Covers(c, a) && Covers(d, b) && SameContext(c, d) && SameState(a, b) && p in a.info.osds
    ensures SameState(JobStep(c, p, a), JobStep(d, p, b))
  {
    hide Tagged, SameEvents, WellFormed, HandleJobRun, HasBucket, PendingListEmpty, DeployStep;
    var out := HandleJobRun(a.info.osds, p, c.env.osd(p));
    var r := a.info.osds[p].remove.value.(job := Some(out.status));
    WithSame(c, d, p, a, b, r, out.actions);
    WithCovers(c, p, a, r, out.actions);
    WithCovers(d, p, b, r, out.actions);
    hide Covers;
    DeploySame(c, d, p, WithEvents(WithResult(a, p, r), c.pass, p, out.actions), WithEvents(WithResult(b, p, r), d.pass, p, out.actions));
  }

  lemma {:induction false} SkippedSame(c: Context, d: Context, p: Pair, a: State, b: State, r: RemoveResult)
    requires Covers(c, a) && Covers(d, b) && SameContext(c, d) && SameState(a, b) && p in a.info.osds
    ensures Covers(c, WithResult(a, p, r)) && Covers(d, WithResult(b, p, r))
    ensures SameState(DeployStep(c, p, WithResult(a, p, r)), DeployStep(d, p, WithResult(b, p, r)))
  {
    hide SameEvents, DeployStep;
    WithCovers(c, p, a, r, []);
    WithCovers(d, p, b, r, []);
    hide Covers;
    DeploySame(c, d, p, WithResult(a, p, r), WithResult(b, p, r));
  }

  lemma {:induction false} FinishedSame(c: Context, d: Context, p: Pair, a: State, b: State)
    requires Covers(c, a) && Covers(d, b) && SameContext(c, d) && SameState(a, b) && p in a.info.osds
    ensures SameState(FinishedStep(c, p, a), FinishedStep(d, p, b))
  {
    hide SameEvents, JobStep, DeployStep, SkipsJob, FinishedStep;
    FinishedIs(c, p, a);
    FinishedIs(d, p, b);
    var res := a.info.osds[p].remove.value;
    if JobOpen(res.job) {
      if SkipsJob(a.info.hosts[p.host], a.info.osds[p]) {
        FinishedSkips(c, p, a);
        FinishedSkips(d, p, b);
        SkippedSame(c, d, p, a, b, res.(job := Some(Just(RemoveSkipped))));
      } else {
        JobSame(c, d, p, a, b);
      }
    } else {
      DeploySame(c, d, p, a, b);
    }
  }

  lemma {:induction false} WithOutcomeSame(c: Context, d: Context, b: RemovePhase, p: Pair, x: State, y: State)
    requires Covers(c, x) && Covers(d, y) && SameContext(c, d) && SameState(x, y) && p in x.info.osds
    ensures var cur := x.info.osds[p].remove.value.osd;
      OsdOutcome(c, b, p, cur) == OsdOutcome(d, b, p, cur) && SameState(WithOutcome(c, p, x, OsdOutcome(c, b, p, cur)), WithOutcome(d, p, y, OsdOutcome(d, b, p, cur)))
  {
    hide Tagged, SameEvents, OsdOutcome, WellFormed;
    OutcomeSame(c, d, b, p, x.info.osds[p].remove.value.osd);
    var out := OsdOutcome(c, b, p, x.info.osds[p].remove.value.osd);
    var r := x.info.osds[p].remove.value.(osd := out.status);
    WithSame(c, d, p, x.(notCompleted := x.notCompleted + 1), y.(notCompleted := y.notCompleted + 1), r, out.actions);
  }

  lemma {:induction false} PendingSame(c: Context, d: Context, p: Pair, x: State, y: State)
    requires Covers(c, x) && Covers(d, y) && SameContext(c, d) && SameState(x, y) && p in x.info.osds
    ensures SameState(PendingStep(c, p, x), PendingStep(d, p, y))
  {
    hide SameEvents, OsdOutcome, WithOutcome, ResetWaiting, PendingStep, WellFormed;
    WithOutcomeSame(c, d, RemovePending, p, x, y);
    PendingIs(c, p, x);
    PendingIs(d, p, y);
  }

  lemma {:induction false} StepSame(c: Context, d: Context, b: RemovePhase, p: Pair, x: State, y: State)
    requires Covers(c, x) && Covers(d, y) && SameContext(c, d) && SameState(x, y) && p in x.info.osds
    ensures SameState(Step(c, b, p, x), Step(d, b, p, y))
  {
    hide SameEvents, OsdOutcome, WithOutcome, FinishedStep, PendingStep, WellFormed;
    if b == RemoveFinished {
      FinishedSame(c, d, p, x, y);
    } else if b == RemovePending {
      PendingSame(c, d, p, x, y);
    } else {
      WithOutcomeSame(c, d, b, p, x, y);
      assert x.info.osds[p].remove.Some?;
      hide Covers;
    }
  }

  lemma {:induction false} OutcomeSame(c: Context, d: Context, b: RemovePhase, p: Pair, cur: RemoveStatus)
    requires SameContext(c, d)
    ensures OsdOutcome(c, b, p, cur) == OsdOutcome(d, b, p, cur)
  {
    hide RemoveStrayOsd, RemoveFromCrush, CheckRebalance, TryToMoveOsdOut;
  }

  lemma {:induction false} LoopSame(c: Context, d: Context, b: RemovePhase, order: seq<Pair>, x: State, y: State)
    requires Covers(c, x) && Covers(d, y) && SameContext(c, d) && SameState(x, y) && forall p :: p in order ==> p in c.begin.osds
    ensures SameState(Loop(c, b, order, x), Loop(d, b, order, y))
  {
    hide SameState, Step;
    if order != [] {
      var init := order[..|order| - 1];
      LoopSame(c, d, b, init, x, y);
      StepSame(c, d, b, order[|order| - 1], Loop(c, b, init, x), Loop(d, b, init, y));
    }
  }

  lemma {:induction false} HandledSame(c: Context, d: Context, order: seq<Pair>, x: State, y: State)
    requires Covers(c, x) && Covers(d, y) && SameContext(c, d) && SameState(x, y) && forall p :: p in order ==> p in c.begin.osds
    ensures SameState(Handled(c, order, x), Handled(d, order, y))
  {
    hide SameState, Loop, Covers;
    LoopSame(c, d, RemoveFinished, order, x, y);
    var x1, y1 := Loop(c, RemoveFinished, order, x), Loop(d, RemoveFinished, order, y);
    LoopSame(c, d, RemoveStray, order, x1, y1);
    var x2, y2 := Loop(c, RemoveStray, order, x1), Loop(d, RemoveStray, order, y1);
    LoopSame(c, d, RemoveInProgress, order, x2, y2);
    LoopSame(c, d, RemoveWaitingRebalance, order, Loop(c, RemoveInProgress, order, x2), Loop(d, RemoveInProgress, order, y2));
  }

  lemma {:induction false} ContinuedSame(c: Context, d: Context, order: seq<Pair>, trace: Trace)
    requires SameContext(c, d) && WellFormed(c.begin) && AllHaveStatus(c.begin.osds) && forall p :: p in order ==> p in c.begin.osds
    ensures SameEvents(Continued(c, order, trace).trace, Continued(d, order, trace).trace)
  {
    hide Loop, Handled, HasBucket, SameEvents;
    var st := Initial(c.begin, trace);
    InitialCovers(c, trace);
    InitialCovers(d, trace);
    SameItself(trace);
    HandledSame(c, d, order, st, st);
    LoopSame(c, d, RemovePending, order, Handled(c, order, st), Handled(d, order, st));
  }

  lemma {:induction false} SameItself(trace: Trace)
    ensures SameEvents(trace, trace)
  {
  }

  lemma {:induction false} HostsSame(c: Context, d: Context, hosts: seq<string>, x: State)
    requires SameContext(c, d) && WellFormed(x.info)
    ensures SameState(RemoveHosts(c, hosts, x), RemoveHosts(d, hosts, x))
  {
    hide HostDue;
    if hosts != [] {
      HostsSame(c, d, hosts[..|hosts| - 1], x);
    }
  }

  /** The commands of a pass do not depend on its number. */
  lemma {:induction false} PassSame(info: RemoveInfo, trace: Trace, n: nat, m: nat, i: Input)
    requires ValidInput(info, i.order, i.hostOrder)
    ensures SameEvents(Pass(info, trace, n, i.env, i.order, i.hostOrder).trace, Pass(info, trace, m, i.env, i.order, i.hostOrder).trace)
  {
    hide SameEvents, HostDue, RemoveHosts, Continued;
    var begin := Collected(info);
    CollectedBegins(info);
    var c, d := Context(i.env, n, begin), Context(i.env, m, begin);
    HostsSame(c, d, i.hostOrder, State(begin, trace, 0, true, map[], false));
    ContinuedSame(c, d, i.order, trace);
  }

  lemma {:induction false} CollectedBegins(info: RemoveInfo)
    requires WellFormed(info)
    ensures WellFormed(Collected(info)) && AllHaveStatus(Collected(info).osds) && Collected(info).osds.Keys == info.osds.Keys
  {
  }

  // --------------------------------------------------------------------- what does not

  /** The next pass orders the disk to be wiped. */
  ghost predicate WipesNext(l: Lossy, host: string, device: string) {
    exists i: Input, l': Lossy, j: nat :: Passes(l, i, true, l') && |l.sent| <= j < |l'.sent| && ZapsDisk(l'.sent[j].event, host, device)
  }

  /** After an order to wipe a disk the next pass can give it again exactly if the status was lost. */
  lemma {:induction false} ZapRepeatableExactly(l: Lossy, i: Input, written: bool, l': Lossy, j: nat, host: string, device: string)
    requires Kept(l) && Passes(l, i, written, l') && |l.sent| <= j < |l'.sent| && ZapsDisk(l'.sent[j].event, host, device)
    ensures WipesNext(l', host, device) <==> !written
  {
    if written {
      if WipesNext(l', host, device) {
        var i2: Input, l2: Lossy, j2: nat :| Passes(l', i2, true, l2) && |l'.sent| <= j2 < |l2.sent| && ZapsDisk(l2.sent[j2].event, host, device);
        WrittenWipesOnce(l, i, l', j, i2, l2, j2, host, device);
      }
    } else {
      LostWipesAgain(l, i, l', j, host, device);
    }
  }

  lemma {:induction false} WrittenWipesOnce(l: Lossy, i: Input, l': Lossy, j: nat, i2: Input, l2: Lossy, j2: nat, host: string, device: string)
    requires Kept(l) && Passes(l, i, true, l') && |l.sent| <= j < |l'.sent| && ZapsDisk(l'.sent[j].event, host, device)
    requires Passes(l', i2, true, l2) && |l'.sent| <= j2 < |l2.sent|
    ensures !ZapsDisk(l2.sent[j2].event, host, device)
  {
    hide ResultOf, ValidInput, Reachable, ZapsDisk, Written;
    PassKeepsKept(l, i, true, l');
    PassKeepsKept(l', i2, true, l2);
    assert l2.sent[j] == l'.sent[j] && l'.sent[j].written;
    var a := WrittenAt(l'.sent, j);
    var b := |l'.kept.trace| + (j2 - |l'.sent|);
    TriedReachable(l', i2);
    var w := Tried(l', i2);
    assert w.trace[a] == l'.kept.trace[a];
    OneZapKept(w, a, b, host, device);
  }

  lemma {:induction false} LostWipesAgain(l: Lossy, i: Input, l': Lossy, j: nat, host: string, device: string)
    requires Kept(l) && Passes(l, i, false, l') && |l.sent| <= j < |l'.sent| && ZapsDisk(l'.sent[j].event, host, device)
    ensures WipesNext(l', host, device)
  {
    hide Pass, ValidInput, Reachable, Written;
    LaterReachable(l.kept);
    TriedReachable(l', i);
    PassSame(l.kept.info, l.kept.trace, l.kept.passes, l.kept.passes + 1, i);
    var l2 := After(l', i, true);
    var k := |l.kept.trace| + (j - |l.sent|);
    var first, second := ResultOf(l.kept, i).trace, ResultOf(l'.kept, i).trace;
    assert first[k] == l'.sent[j].event && Bare(first[k]) == Bare(second[k]);
    var j2 := |l'.sent| + (j - |l.sent|);
    assert l2.sent[j2].event == second[k];
    assert ZapsDisk(l2.sent[j2].event, host, device);
  }

  /** A cluster that answers every command with success. */
  function Willing(): Env {
    Env((q: Pair) => Answers(None, true, true, Some(false), Some(false), true, true, true, true, None, true, 0), (h: string) => true, 0)
  }

  ghost function After(l: Lossy, i: Input, written: bool): (l': Lossy)
    requires ValidInput(l.kept.info, i.order, i.hostOrder) && l.kept.trace <= ResultOf(l.kept, i).trace
    ensures Passes(l, i, written, l')
  {
    var r := ResultOf(l.kept, i);
    Lossy(if written then World(r.info, r.trace, l.kept.passes + 1) else l.kept.(passes := l.kept.passes + 1),
          l.sent + Marked(r.trace[|l.kept.trace|..], written))
  }

  /** From a removed OSD the job is started; if that is lost, the next pass starts it again. */
  lemma {:induction false} StartedTwice(l: Lossy, p: Pair, o: Osd, i: Input, device: string) returns (l1: Lossy, l2: Lossy)
    requires OneOsd(l.kept.info, p, o) && o.remove == Some(FinishedResult()) && !o.skipCleanup
    requires device in o.devices && o.devices[device].zap && i == Input(Willing(), [p], [p.host])
    ensures Passes(l, i, false, l1) && Passes(l1, i, true, l2)
    ensures var n := |l.sent|; |l2.sent| == n + 2 && ZapsDisk(l2.sent[n].event, p.host, device) && ZapsDisk(l2.sent[n + 1].event, p.host, device)
  {
    hide Pass;
    OneOsdInput(l.kept.info, p, o);
    JobStarted(l.kept.info, p, o, l.kept.trace, l.kept.passes, Willing());
    JobStarted(l.kept.info, p, o, l.kept.trace, l.kept.passes + 1, Willing());
    l1 := After(l, i, false);
    assert |l1.sent| == |l.sent| + 1;
    l2 := After(l1, i, true);
    assert l2.sent[|l.sent|] == l1.sent[|l.sent|];
  }

  lemma {:induction false} WipedTwice(info: RemoveInfo, p: Pair, o: Osd, i: Input, device: string) returns (ls: seq<Lossy>)
    requires OneOsd(info, p, o) && Fresh(info) && o.remove.None? && IsStray(p) && o.inCrushMap && !o.skipCleanup
    requires device in o.devices && o.devices[device].zap && i == Input(Willing(), [p], [p.host])
    ensures |ls| == 4 && IsLossyRun(ls, [i, i, i], [true, false, true])
    ensures var n := |ls[1].sent|;
      |ls[3].sent| == n + 2 && ZapsDisk(ls[3].sent[n].event, p.host, device) && ZapsDisk(ls[3].sent[n + 1].event, p.host, device)
  {
    hide Pass, ZapsDisk, IsStray;
    var l0 := Lossy(World(info, [], 0), []);
    OneOsdInput(info, p, o);
    StrayRemoved(info, p, o, [], 0, Willing());
    var l1 := After(l0, i, true);
    hide OneOsd, After;
    var l2, l3 := StartedTwice(l1, p, o.(remove := Some(FinishedResult())), i, device);
    ls := [l0, l1, l2, l3];
    hide Passes, Fresh;
    var ins, written := [i, i, i], [true, false, true];
    assert Passes(ls[0], ins[0], written[0], ls[1]) && Passes(ls[1], ins[1], written[1], ls[2]) && Passes(ls[2], ins[2], written[2], ls[3]);
  }

  /** A run in which a disk is ordered to be wiped twice, because the status after the first order was lost. */
  lemma {:induction false} LostZapRepeats()
    ensures exists ls: seq<Lossy>, ins: seq<Input>, written: seq<bool>, i: nat, j: nat, host: string, device: string ::
      && IsLossyRun(ls, ins, written) && i < j < |ls[|ins|].sent|
      && ZapsDisk(ls[|ins|].sent[i].event, host, device) && ZapsDisk(ls[|ins|].sent[j].event, host, device)
  {
    hide IsLossyRun, ZapsDisk, Willing;
    var p, o := Pair(STRAY_MARKER, "1"), Osd(true, map["sda" := Device(true, false, true)], false, None);
    var info := RemoveInfo(map[p.host := Host(false, false, false, false, None)], map[p := o], {}, []);
    var i := Input(Willing(), [p], [p.host]);
    var ls := WipedTwice(info, p, o, i, "sda");
    var n, ins := |ls[1].sent|, [i, i, i];
    assert |ins| == 3 && ZapsDisk(ls[|ins|].sent[n].event, p.host, "sda") && ZapsDisk(ls[|ins|].sent[n + 1].event, p.host, "sda");
  }
}
