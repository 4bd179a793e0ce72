/**
 * The invariant carried through the loops of a pass and through a whole pass.
 */
module ExecutorPass {
  import opened Wrappers
  import opened RemovalPlan
  import opened Executor
  import opened ExecutorInvariants

  // ------------------------------------------------------------------ one step

  /** Only the OSD `p` and its log change. */
  ghost predicate OnlyAt(st: State, st': State, p: Pair) {
    && st'.info.osds.Keys == st.info.osds.Keys
    && (forall q :: q in st.info.osds && q != p ==> st'.info.osds[q] == st.info.osds[q])
    && (forall q :: q != p ==> Of(st'.trace, q) == Of(st.trace, q))
  }

  /** No entry of the trace is from pass `n` or later. */
  ghost predicate Before(trace: Trace, n: nat) {
    forall q, k :: 0 <= k < |Of(trace, q)| ==> Of(trace, q)[k].pass < n
  }

  /** The OSD is as it was when the pass began. */
  ghost predicate Untouched(c: Context, t0: Trace, st: State, q: Pair) {
    q in st.info.osds && q in c.begin.osds && st.info.osds[q] == c.begin.osds[q] && Of(st.trace, q) == Of(t0, q)
  }

  ghost predicate Sound(c: Context, st: State) {
    Covers(c, st) && Inv(st.info.osds, st.trace) && Before(st.trace, c.pass + 1)
  }

  /** One update of one OSD, with its events. */
  lemma {:induction false} UpdateKeeps(c: Context, p: Pair, st: State, r': RemoveResult, actions: seq<Action>, st': State)
    requires Sound(c, st) && p in st.info.osds
    requires st'.info.osds == st.info.osds[p := st.info.osds[p].(remove := Some(r'))] && st'.info.hosts == st.info.hosts
    requires st'.trace == st.trace + Tagged(c.pass, p, actions)
    requires SafeChange(st.info.osds, p, st.info.osds[p].(remove := Some(r')), actions)
    requires Local(p, st.info.osds[p].(remove := Some(r')), Of(st.trace, p) + LoggedAll(c.pass, actions))
    ensures Sound(c, st') && OnlyAt(st, st', p) && Advances(st.info.osds[p], st'.info.osds[p])
  {
    hide Of, Local, Inv, Before, Tagged, LoggedAll;
    ChangeKeepsInv(st.info.osds, st.trace, c.pass, p, st.info.osds[p].(remove := Some(r')), actions);
    NewEntriesBefore(st.trace, st'.trace, c.pass, p, actions);
  }

  lemma {:induction false} NewEntriesBefore(trace: Trace, trace': Trace, pass: nat, p: Pair, actions: seq<Action>)
    requires Before(trace, pass + 1) && Of(trace', p) == Of(trace, p) + LoggedAll(pass, actions)
    requires forall q :: q != p ==> Of(trace', q) == Of(trace, q)
    ensures Before(trace', pass + 1)
  {
    hide Of;
    forall q, k | 0 <= k < |Of(trace', q)| ensures Of(trace', q)[k].pass < pass + 1 {
      if k < |Of(trace, q)| { assert Of(trace', q)[k] == Of(trace, q)[k]; }
    }
  }

  /** A change that starts no job and no rebalance. */
  lemma {:induction false} SafeQuiet(osds: map<Pair, Osd>, p: Pair, r': RemoveResult, actions: seq<Action>)
    requires p in osds && osds[p].remove.Some? && Forward(osds[p].remove.value, r')
    requires r'.job.Some? && r'.job.value.phase == RemoveInProgress ==> r'.job == osds[p].remove.value.job
    requires r'.osd.phase == RemoveWaitingRebalance ==>
      osds[p].remove.value.osd.phase == RemoveWaitingRebalance || NoRebalance(osds)
    requires forall i :: 0 <= i < |actions| ==> !actions[i].RanCleanupJob?
    ensures SafeChange(osds, p, osds[p].(remove := Some(r')), actions)
  {
    assert forall i :: 0 <= i < |actions| ==> ZapJustified(osds, p, actions[i]);
  }

  /** Starting, delaying or checking a cleanup job. */
  lemma {:induction false} SafeJob(osds: map<Pair, Osd>, p: Pair, a: Answers)
    requires p in osds && Removed(osds[p]) && JobOpen(osds[p].remove.value.job)
    ensures var out := HandleJobRun(osds, p, a);
      SafeChange(osds, p, osds[p].(remove := Some(osds[p].remove.value.(job := Some(out.status)))), out.actions)
  {
    var out := HandleJobRun(osds, p, a);
    var o' := osds[p].(remove := Some(osds[p].remove.value.(job := Some(out.status))));
    assert Advances(osds[p], o');
    assert JobIs(o', RemoveInProgress) ==> JobIs(osds[p], RemoveInProgress) || !ParallelJob(osds, p);
    if out.actions != [] {
      assert out.actions[0].RanCleanupJob? ==> out.actions[0].devices == JobDevices(osds, p);
      assert ZapJustified(osds, p, out.actions[0]);
    }
  }

  /** The invariant at one OSD. */
  lemma {:induction false} LocalAt(c: Context, st: State, p: Pair)
    requires Sound(c, st) && p in st.info.osds
    ensures Local(p, st.info.osds[p], Of(st.trace, p)) && st.info.osds[p].remove.Some? && Shape(st.info.osds[p].remove.value)
  {
    hide Of, OneJobPerHost, OneRebalance, ZapSafe, Before;
  }

  ghost predicate StepsTo(c: Context, p: Pair, st: State, st': State) {
    Sound(c, st') && OnlyAt(st, st', p) && p in st.info.osds && Advances(st.info.osds[p], st'.info.osds[p])
  }

  lemma {:induction false} StepsTwice(c: Context, p: Pair, st: State, st': State, st'': State)
    requires StepsTo(c, p, st, st') && StepsTo(c, p, st', st'')
    ensures StepsTo(c, p, st, st'')
  {
    hide Sound, Of;
  }

  /** A deployment status is set, or nothing but an issue is recorded. */
  lemma {:induction false} DeployKeeps(c: Context, p: Pair, st: State)
    requires Sound(c, st) && p in st.info.osds && Removed(st.info.osds[p]) && JobDone(st.info.osds[p])
    ensures StepsTo(c, p, st, DeployStep(c, p, st))
  {
    hide Of, Inv, Before, SafeChange, Local, Tagged, LoggedAll, WellFormed;
    LocalAt(c, st, p);
    var o, a, log := st.info.osds[p], c.env.osd(p), Of(st.trace, p);
    var st' := DeployStep(c, p, st);
    var res := o.remove.value;
    if res.deploy.None? {
      if res.osd.phase == RemoveFinished && !o.skipCleanup {
        var out := RemoveDeployment(p, a);
        DeployLocal(p, o, log, c.pass, a);
        SafeQuiet(st.info.osds, p, res.(deploy := Some(out.status)), out.actions);
        UpdateKeeps(c, p, st, res.(deploy := Some(out.status)), out.actions, st');
      } else {
        SilentUpdate(c, p, st, res.(deploy := Some(Just(RemoveSkipped))), st');
      }
    }
  }

  /** An update that issues no command. */
  lemma {:induction false} SilentUpdate(c: Context, p: Pair, st: State, r': RemoveResult, st': State)
    requires Sound(c, st) && p in st.info.osds && Removed(st.info.osds[p])
    requires Forward(st.info.osds[p].remove.value, r') && Shape(r') && Skips(st.info.osds[p], r')
    requires r'.job.Some? && r'.job.value.phase != RemoveInProgress && r'.job.value.phase != RemovePending
    requires st' == WithResult(st, p, r')
    ensures StepsTo(c, p, st, st')
  {
    hide Of, Inv, Before, SafeChange, Local, Shape;
    LocalAt(c, st, p);
    SilentLocal(p, st.info.osds[p], r', Of(st.trace, p), c.pass);
    SafeQuiet(st.info.osds, p, r', []);
    assert st'.trace == st.trace + Tagged(c.pass, p, []);
    UpdateKeeps(c, p, st, r', [], st');
  }

  lemma {:induction false} FinishedKeeps(c: Context, p: Pair, st: State)
    requires Sound(c, st) && p in st.info.osds && Removed(st.info.osds[p])
    ensures StepsTo(c, p, st, FinishedStep(c, p, st))
  {
    hide Of, Inv, Before, SafeChange, Local, Tagged, LoggedAll;
    LocalAt(c, st, p);
    var o := st.info.osds[p];
    var res := o.remove.value;
    if JobOpen(res.job) {
      if SkipsJob(st.info.hosts[p.host], o) {
        var st1 := WithResult(st, p, res.(job := Some(Just(RemoveSkipped))));
        SilentUpdate(c, p, st, res.(job := Some(Just(RemoveSkipped))), st1);
        DeployKeeps(c, p, st1);
        StepsTwice(c, p, st, st1, DeployStep(c, p, st1));
      } else {
        JobKeeps(c, p, st);
      }
    } else if res.job.value.phase == RemoveCompleted || res.job.value.phase == RemoveSkipped {
      DeployKeeps(c, p, st);
    }
  }

  lemma {:induction false} JobKeeps(c: Context, p: Pair, st: State)
    requires Sound(c, st) && p in st.info.osds && Removed(st.info.osds[p]) && JobOpen(st.info.osds[p].remove.value.job)
    requires !SkipsJob(st.info.hosts[p.host], st.info.osds[p])
    ensures StepsTo(c, p, st, FinishedStep(c, p, st))
  {
    hide Of, Inv, Before, SafeChange, Local, Tagged, LoggedAll, ParallelJob, JobDevices;
    var o, a := st.info.osds[p], c.env.osd(p);
    var out := HandleJobRun(st.info.osds, p, a);
    var st1 := WithEvents(WithResult(st, p, o.remove.value.(job := Some(out.status))), c.pass, p, out.actions);
    LocalAt(c, st, p);
    JobLocal(st.info.osds, p, Of(st.trace, p), c.pass, a);
    SafeJob(st.info.osds, p, a);
    UpdateKeeps(c, p, st, o.remove.value.(job := Some(out.status)), out.actions, st1);
    if out.status.phase == RemoveCompleted {
      DeployKeeps(c, p, st1);
      StepsTwice(c, p, st, st1, DeployStep(c, p, st1));
    }
  }

  lemma {:induction false} OutcomeLocal(c: Context, b: RemovePhase, p: Pair, st: State)
    requires Sound(c, st) && p in st.info.osds && PhaseIs(st.info.osds[p], b)
    requires b in {RemoveStray, RemoveInProgress, RemoveWaitingRebalance, RemovePending}
    requires b == RemoveInProgress ==> forall k :: 0 <= k < |Of(st.trace, p)| ==> Of(st.trace, p)[k].pass < c.pass
    ensures OutcomeOk(p, st.info.osds[p], Of(st.trace, p), c.pass, OsdOutcome(c, b, p, st.info.osds[p].remove.value.osd))
  {
    hide Of, Inv, Before, Local, OutcomeOk;
    LocalAt(c, st, p);
    var o, a, t, log := st.info.osds[p], c.env.osd(p), c.env.rebalanceTimeout, Of(st.trace, p);
    match b
    case RemoveStray => StrayLocal(p, o, log, c.pass, a);
    case RemoveInProgress => CrushLocal(p, o, log, c.pass, a);
    case RemoveWaitingRebalance => RebalanceLocal(p, o, log, c.pass, a, t);
    case RemovePending => PendingLocal(p, o, log, c.pass, a, t);
  }

  lemma {:induction false} OutcomeKeeps(c: Context, b: RemovePhase, p: Pair, st: State)
    requires Sound(c, st) && p in st.info.osds && PhaseIs(st.info.osds[p], b)
    requires b in {RemoveStray, RemoveInProgress, RemoveWaitingRebalance, RemovePending}
    requires b == RemoveInProgress ==> forall k :: 0 <= k < |Of(st.trace, p)| ==> Of(st.trace, p)[k].pass < c.pass
    requires b == RemovePending ==> NoRebalance(st.info.osds)
    ensures StepsTo(c, p, st, WithOutcome(c, p, st, OsdOutcome(c, b, p, st.info.osds[p].remove.value.osd)))
  {
    hide Of, Inv, Before, SafeChange, Local, Tagged, LoggedAll, OsdOutcome, NoRebalance;
    LocalAt(c, st, p);
    var r := st.info.osds[p].remove.value;
    var out := OsdOutcome(c, b, p, r.osd);
    OutcomeLocal(c, b, p, st);
    SafeQuiet(st.info.osds, p, r.(osd := out.status), out.actions);
    UpdateKeeps(c, p, st, r.(osd := out.status), out.actions, WithOutcome(c, p, st, out));
  }

  lemma {:induction false} StepKeeps(c: Context, b: RemovePhase, p: Pair, st: State, t0: Trace)
    requires Sound(c, st) && Before(t0, c.pass) && Untouched(c, t0, st, p) && Bucket(c.begin.osds[p]) == b
    requires b in {RemoveFinished, RemoveStray, RemoveInProgress, RemoveWaitingRebalance}
    ensures StepsTo(c, p, st, Step(c, b, p, st))
  {
    hide Of, Inv, Local, WithOutcome, FinishedStep, OsdOutcome;
    if b == RemoveFinished {
      FinishedKeeps(c, p, st);
    } else {
      OutcomeKeeps(c, b, p, st);
    }
  }

  // -------------------------------------------------------------------- loops

  /** The OSDs that the loop over list `b` does not visit stay as they are. */
  ghost predicate Spares(c: Context, b: RemovePhase, order: seq<Pair>, st: State, st': State)
    requires AllHaveStatus(c.begin.osds)
  {
    forall q :: q in st.info.osds && q in c.begin.osds && !(q in order && Bucket(c.begin.osds[q]) == b) ==>
      q in st'.info.osds && st'.info.osds[q] == st.info.osds[q] && Of(st'.trace, q) == Of(st.trace, q)
  }

  ghost predicate AllAdvance(osds: map<Pair, Osd>, osds': map<Pair, Osd>) {
    osds'.Keys == osds.Keys && forall q :: q in osds ==> Advances(osds[q], osds'[q])
  }

  lemma {:induction false} AdvanceTwice(a: map<Pair, Osd>, b: map<Pair, Osd>, c: map<Pair, Osd>)
    requires AllAdvance(a, b) && AllAdvance(b, c)
    ensures AllAdvance(a, c)
  {
    forall q | q in a ensures Advances(a[q], c[q]) {
      assert Advances(a[q], b[q]) && Advances(b[q], c[q]);
    }
  }

  ghost predicate Reaches(c: Context, b: RemovePhase, order: seq<Pair>, st: State, st': State)
    requires AllHaveStatus(c.begin.osds)
  {
    Sound(c, st') && Spares(c, b, order, st, st') && AllAdvance(st.info.osds, st'.info.osds)
  }

  /** A step after a loop over the OSDs before it. */
  lemma {:induction false} ReachesStep(c: Context, b: RemovePhase, order: seq<Pair>, p: Pair, st: State, st': State, st'': State)
    requires Covers(c, st) && Reaches(c, b, order, st, st') && StepsTo(c, p, st', st'') && p in c.begin.osds
    requires Bucket(c.begin.osds[p]) == b
    ensures Reaches(c, b, order + [p], st, st'')
  {
    hide Of, Inv, Before, Forward;
    forall q | q in st'.info.osds ensures Advances(st'.info.osds[q], st''.info.osds[q]) {
      if q != p { assert st''.info.osds[q] == st'.info.osds[q]; AdvancesItself(st'.info.osds[q]); }
    }
    AdvanceTwice(st.info.osds, st'.info.osds, st''.info.osds);
  }

  lemma {:induction false} AdvancesItself(o: Osd)
    ensures Advances(o, o)
  {
  }

  lemma {:induction false} LoopKeeps(c: Context, b: RemovePhase, order: seq<Pair>, st: State, t0: Trace)
    requires Sound(c, st) && Before(t0, c.pass) && NoDuplicates(order)
    requires b in {RemoveFinished, RemoveStray, RemoveInProgress, RemoveWaitingRebalance}
    requires forall p :: p in order ==> p in c.begin.osds
    requires forall p :: p in order && Bucket(c.begin.osds[p]) == b ==> Untouched(c, t0, st, p)
    ensures Reaches(c, b, order, st, Loop(c, b, order, st))
  {
    hide Inv, Before, Advances, Of, Step;
    if order == [] {
      forall q | q in st.info.osds ensures Advances(st.info.osds[q], st.info.osds[q]) { AdvancesItself(st.info.osds[q]); }
    } else {
      var last := |order| - 1;
      var init, p := order[..last], order[last];
      assert order == init + [p];
      LoopKeeps(c, b, init, st, t0);
      var st' := Loop(c, b, init, st);
      if Bucket(c.begin.osds[p]) == b {
        assert p !in init;
        assert Untouched(c, t0, st, p);
        StepKeeps(c, b, p, st', t0);
        ReachesStep(c, b, init, p, st, st', Step(c, b, p, st'));
      }
    }
  }

  // ------------------------------------------------------------ the pending list

  /** Equal up to the wait start time of a pending OSD. */
  predicate SameButStart(o: Osd, o': Osd) {
    o' == o || (PhaseIs(o, RemovePending) && o' == ClearStart(o))
  }

  lemma {:induction false} SameButStartLocal(p: Pair, o: Osd, o': Osd, log: seq<Logged>)
    requires SameButStart(o, o') && Local(p, o, log)
    ensures Local(p, o', log) && Advances(o, o')
  {
    if o' != o {
      var r, r' := o.remove.value, o'.remove.value;
      forall i | 0 <= i < |log| ensures Recorded(p, r', log, i) { assert Recorded(p, r, log, i); }
    }
  }

  lemma {:induction false} SameButStartViews(o: Osd, o': Osd)
    requires SameButStart(o, o')
    ensures forall phase :: JobIs(o', phase) == JobIs(o, phase) && PhaseIs(o', phase) == PhaseIs(o, phase)
    ensures o'.devices == o.devices && Yields(o') == Yields(o)
  {
  }

  lemma {:induction false} ResetKeeps(osds: map<Pair, Osd>, osds': map<Pair, Osd>, trace: Trace)
    requires Inv(osds, trace) && osds'.Keys == osds.Keys
    requires forall q :: q in osds ==> SameButStart(osds[q], osds'[q])
    ensures Inv(osds', trace) && AllAdvance(osds, osds')
  {
    hide Of, Local, Advances, ClearStart, JobIs, PhaseIs, Yields, ZapRan;
    forall q | q in osds
      ensures Local(q, osds'[q], Of(trace, q)) && Advances(osds[q], osds'[q])
    {
      SameButStartLocal(q, osds[q], osds'[q], Of(trace, q));
    }
    forall q | q in osds
      ensures forall phase :: JobIs(osds'[q], phase) == JobIs(osds[q], phase) && PhaseIs(osds'[q], phase) == PhaseIs(osds[q], phase)
      ensures osds'[q].devices == osds[q].devices && Yields(osds'[q]) == Yields(osds[q])
    {
      SameButStartViews(osds[q], osds'[q]);
    }
    assert forall p, q :: Neighbour(osds', p, q) == Neighbour(osds, p, q);
  }

  /** Between two pending OSDs: nothing rebalances unless one was moved, and the waiting ones are still pending. */
  ghost predicate PendingReady(c: Context, order: seq<Pair>, st: State)
    requires AllHaveStatus(c.begin.osds)
  {
    && (st.moved || NoRebalance(st.info.osds))
    && forall o :: o in st.waiting ==>
         var q := Pair(st.waiting[o], o);
         q in order && q in c.begin.osds && Bucket(c.begin.osds[q]) == RemovePending
         && q in st.info.osds && PhaseIs(st.info.osds[q], RemovePending)
  }

  /** An OSD was moved out: the ones that waited before it start waiting anew. */
  lemma {:induction false} MovedKeeps(c: Context, order: seq<Pair>, st: State, st': State)
    requires Sound(c, st) && PendingReady(c, order, st)
    requires st' == st.(info := st.info.(osds := ResetWaiting(st.info.osds, st.waiting)), waiting := map[], moved := true)
    ensures Reaches(c, RemovePending, order, st, st') && PendingReady(c, order, st')
  {
    hide Of, Inv, Advances, Before;
    forall q | q in st.info.osds ensures SameButStart(st.info.osds[q], st'.info.osds[q]) {
      if q.osd in st.waiting && st.waiting[q.osd] == q.host {
        assert q == Pair(st.waiting[q.osd], q.osd);
      }
    }
    ResetKeeps(st.info.osds, st'.info.osds, st.trace);
  }

  lemma {:induction false} ReachesTwice(c: Context, b: RemovePhase, order: seq<Pair>, st: State, st': State, st'': State)
    requires Covers(c, st) && Reaches(c, b, order, st, st') && Reaches(c, b, order, st', st'')
    ensures Reaches(c, b, order, st, st'')
  {
    hide Of, Inv, Before, Advances;
    AdvanceTwice(st.info.osds, st'.info.osds, st''.info.osds);
  }

  /** The OSDs that waited before `p` still wait after it was tried. */
  lemma {:induction false} ReadyAfter(c: Context, order: seq<Pair>, p: Pair, st: State, st': State)
    requires Covers(c, st) && PendingReady(c, order, st) && p !in order && StepsTo(c, p, st, st') && st'.waiting == st.waiting
    requires st'.moved || (!st.moved && !PhaseIs(st'.info.osds[p], RemoveWaitingRebalance))
    ensures PendingReady(c, order + [p], st')
  {
    hide Of, Inv, Before, Advances;
  }

  lemma {:induction false} ReadyMeans(c: Context, order: seq<Pair>, st: State)
    requires AllHaveStatus(c.begin.osds) && PendingReady(c, order, st)
    ensures st.moved || NoRebalance(st.info.osds)
  {
  }

  /** More OSDs may have been visited, and `p` may be waiting. */
  lemma {:induction false} ReadyGrows(c: Context, order: seq<Pair>, p: Pair, st: State, st': State)
    requires AllHaveStatus(c.begin.osds) && PendingReady(c, order, st)
    requires st'.info == st.info && st'.moved == st.moved
    requires st'.waiting == st.waiting ||
      (&& st'.waiting == st.waiting[p.osd := p.host] && p in c.begin.osds && p in order && p in st.info.osds
       && Bucket(c.begin.osds[p]) == RemovePending && PhaseIs(st.info.osds[p], RemovePending))
    ensures PendingReady(c, order + [p], st') && (p in order ==> PendingReady(c, order, st'))
  {
  }

  lemma {:induction false} FlagsDoNotMatter(c: Context, p: Pair, st: State, st': State, st'': State)
    requires StepsTo(c, p, st, st') && st''.info == st'.info && st''.trace == st'.trace
    ensures StepsTo(c, p, st, st'')
  {
  }

  /** One change of a listed OSD is a way to reach the new state. */
  lemma {:induction false} StepReaches(c: Context, b: RemovePhase, order: seq<Pair>, p: Pair, st: State, st': State)
    requires Covers(c, st) && StepsTo(c, p, st, st') && p in order && p in c.begin.osds && Bucket(c.begin.osds[p]) == b
    ensures Reaches(c, b, order, st, st')
  {
    hide Of, Inv, Before, Forward;
    forall q | q in st.info.osds ensures Advances(st.info.osds[q], st'.info.osds[q]) {
      if q != p { AdvancesItself(st.info.osds[q]); }
    }
  }

  lemma {:induction false} StaysReached(c: Context, b: RemovePhase, order: seq<Pair>, st: State, st': State)
    requires Sound(c, st) && st'.info == st.info && st'.trace == st.trace
    ensures Reaches(c, b, order, st, st')
  {
    hide Of, Inv, Before, Forward;
    forall q | q in st.info.osds ensures Advances(st.info.osds[q], st'.info.osds[q]) { AdvancesItself(st.info.osds[q]); }
  }

  /** The first pending OSD that leaves its phase ends the loop. */
  lemma {:induction false} MoveOutKeeps(c: Context, order: seq<Pair>, p: Pair, st: State, st1: State)
    requires Sound(c, st) && PendingReady(c, order, st) && p !in order && p in c.begin.osds && !st.moved
    requires Bucket(c.begin.osds[p]) == RemovePending && StepsTo(c, p, st, st1) && st1.waiting == st.waiting
    ensures var st' := st1.(info := st1.info.(osds := ResetWaiting(st1.info.osds, st.waiting)), waiting := map[], moved := true);
      Reaches(c, RemovePending, order + [p], st, st') && PendingReady(c, order + [p], st')
  {
    hide Sound, StepsTo, PendingReady, Reaches, ResetWaiting;
    var st2 := st1.(moved := true);
    var st' := st1.(info := st1.info.(osds := ResetWaiting(st1.info.osds, st.waiting)), waiting := map[], moved := true);
    SoundCovers(c, st);
    FlagsDoNotMatter(c, p, st, st1, st2);
    StepReaches(c, RemovePending, order + [p], p, st, st2);
    ReadyAfter(c, order, p, st, st2);
    ReachesSound(c, RemovePending, order + [p], st, st2);
    MovedKeeps(c, order + [p], st2, st');
    ReachesTwice(c, RemovePending, order + [p], st, st2, st');
  }

  lemma {:induction false} SoundCovers(c: Context, st: State)
    requires Sound(c, st)
    ensures Covers(c, st)
  {
  }

  lemma {:induction false} ReachesSound(c: Context, b: RemovePhase, order: seq<Pair>, st: State, st': State)
    requires AllHaveStatus(c.begin.osds) && Reaches(c, b, order, st, st')
    ensures Sound(c, st')
  {
  }

  lemma {:induction false} PendingKeeps(c: Context, order: seq<Pair>, p: Pair, st: State, t0: Trace)
    requires Sound(c, st) && PendingReady(c, order, st) && p !in order
    requires Before(t0, c.pass) && Untouched(c, t0, st, p) && Bucket(c.begin.osds[p]) == RemovePending
    ensures var st' := PendingStep(c, p, st);
      Reaches(c, RemovePending, order + [p], st, st') && PendingReady(c, order + [p], st')
  {
    hide Of, Inv, Before, OsdOutcome, ResetWaiting, Tagged, StepsTo, PendingReady, Reaches;
    ReadyMeans(c, order, st);
    if st.moved {
      ReadyGrows(c, order, p, st, st);
      StaysReached(c, RemovePending, order + [p], st, st);
    } else {
      OutcomeKeeps(c, RemovePending, p, st);
      var out := OsdOutcome(c, RemovePending, p, st.info.osds[p].remove.value.osd);
      var st1 := WithOutcome(c, p, st, out);
      if out.status.phase == RemovePending {
        var st' := PendingStep(c, p, st);
        FlagsDoNotMatter(c, p, st, st1, st');
        StepReaches(c, RemovePending, order + [p], p, st, st');
        ReadyAfter(c, order, p, st, st1);
        ReadyGrows(c, order + [p], p, st1, st');
      } else {
        MoveOutKeeps(c, order, p, st, st1);
      }
    }
  }

  lemma {:induction false} PendingLoopKeeps(c: Context, order: seq<Pair>, st: State, t0: Trace)
    requires Sound(c, st) && Before(t0, c.pass) && NoDuplicates(order) && PendingReady(c, [], st)
    requires forall p :: p in order ==> p in c.begin.osds
    requires forall p :: p in order && Bucket(c.begin.osds[p]) == RemovePending ==> Untouched(c, t0, st, p)
    ensures Reaches(c, RemovePending, order, st, Loop(c, RemovePending, order, st))
    ensures PendingReady(c, order, Loop(c, RemovePending, order, st))
  {
    hide Inv, Before, Advances, Of, PendingStep, Reaches, PendingReady, WellFormed;
    if order == [] {
      StaysReached(c, RemovePending, order, st, st);
    } else {
      var last := |order| - 1;
      var init, p := order[..last], order[last];
      assert order == init + [p] && p !in init;
      PendingLoopKeeps(c, init, st, t0);
      var st' := Loop(c, RemovePending, init, st);
      ReachesMore(c, RemovePending, init, p, st, st');
      if Bucket(c.begin.osds[p]) == RemovePending {
        assert Untouched(c, t0, st, p);
        SparedStaysUntouched(c, RemovePending, init, p, st, st', t0);
        PendingKeeps(c, init, p, st', t0);
        ReachesTwice(c, RemovePending, order, st, st', PendingStep(c, p, st'));
      } else {
        ReadyGrows(c, init, p, st', st');
      }
    }
  }

  lemma {:induction false} ReachesMore(c: Context, b: RemovePhase, order: seq<Pair>, p: Pair, st: State, st': State)
    requires AllHaveStatus(c.begin.osds) && Reaches(c, b, order, st, st')
    ensures Sound(c, st') && Reaches(c, b, order + [p], st, st')
  {
    hide Of, Inv, Before, Advances, Bucket;
  }

  lemma {:induction false} SparedStaysUntouched(c: Context, b: RemovePhase, order: seq<Pair>, p: Pair, st: State, st': State, t0: Trace)
    requires AllHaveStatus(c.begin.osds) && Reaches(c, b, order, st, st') && Untouched(c, t0, st, p) && p !in order
    ensures Untouched(c, t0, st', p)
  {
    hide Of, Inv, Before, Advances, Bucket;
  }

  // ------------------------------------------------------------- a whole pass

  lemma {:induction false} CollectedKeeps(info: RemoveInfo, trace: Trace)
    requires Inv(info.osds, trace)
    ensures Inv(Collected(info).osds, trace) && AllAdvance(info.osds, Collected(info).osds)
    ensures AllHaveStatus(Collected(info).osds)
  {
    hide Of, Local, IsStray, ZapRan, Advances, ZapSafe, OneJobPerHost, OneRebalance, Begun;
    var osds' := Collected(info).osds;
    forall p | p in info.osds
      ensures Local(p, osds'[p], Of(trace, p)) && Advances(info.osds[p], osds'[p])
    {
      BegunLocal(p, info.osds[p], Of(trace, p));
    }
    forall p | p in info.osds ensures osds'[p] == Begun(p, info.osds[p]) { }
    CollectedSafe(info.osds, osds', trace);
    BegunHasStatus(osds', info.osds);
  }

  lemma {:induction false} BegunHasStatus(osds': map<Pair, Osd>, osds: map<Pair, Osd>)
    requires osds'.Keys == osds.Keys && forall p :: p in osds ==> osds'[p] == Begun(p, osds[p])
    ensures AllHaveStatus(osds')
  {
  }

  /** Giving a first status to OSDs without one changes no job, no rebalance and no device. */
  lemma {:induction false} CollectedSafe(osds: map<Pair, Osd>, osds': map<Pair, Osd>, trace: Trace)
    requires OneJobPerHost(osds) && OneRebalance(osds) && ZapSafe(osds, trace)
    requires osds'.Keys == osds.Keys && forall p :: p in osds ==> osds'[p] == Begun(p, osds[p])
    ensures OneJobPerHost(osds') && OneRebalance(osds') && ZapSafe(osds', trace)
  {
    hide Of, ZapRan, IsStray;
    assert forall p, q :: Neighbour(osds', p, q) == Neighbour(osds, p, q);
  }

  lemma {:induction false} BegunLocal(p: Pair, o: Osd, log: seq<Logged>)
    requires Local(p, o, log)
    ensures Local(p, Begun(p, o), log) && Advances(o, Begun(p, o))
    ensures !PhaseIs(o, RemoveWaitingRebalance) ==> !PhaseIs(Begun(p, o), RemoveWaitingRebalance)
  {
    AdvancesItself(o);
  }

  const VISITED := {RemoveFinished, RemoveStray, RemoveInProgress, RemoveWaitingRebalance}

  predicate Unvisited(b: RemovePhase) {
    b !in VISITED
  }

  /** After the loops over the lists `done`. */
  ghost predicate Midway(c: Context, order: seq<Pair>, t0: Trace, done: set<RemovePhase>, st: State) {
    && Sound(c, st) && AllAdvance(c.begin.osds, st.info.osds)
    && forall q :: q in order && q in c.begin.osds && Bucket(c.begin.osds[q]) !in done ==> Untouched(c, t0, st, q)
  }

  lemma {:induction false} ListKeeps(c: Context, order: seq<Pair>, t0: Trace, done: set<RemovePhase>, b: RemovePhase, st: State)
    requires Midway(c, order, t0, done, st) && b !in done && b in VISITED
    requires Before(t0, c.pass) && NoDuplicates(order) && forall p :: p in order <==> p in c.begin.osds
    ensures Midway(c, order, t0, done + {b}, Loop(c, b, order, st))
  {
    hide Of, Inv, Before, Advances, Loop;
    LoopKeeps(c, b, order, st, t0);
    AdvanceTwice(c.begin.osds, st.info.osds, Loop(c, b, order, st).info.osds);
  }

  /** The lists of a pass other than the pending one are handled one after the other. */
  lemma {:induction false} HandledKeeps(c: Context, order: seq<Pair>, st: State, t0: Trace)
    requires Midway(c, order, t0, {}, st) && Covers(c, st)
    requires Before(t0, c.pass) && NoDuplicates(order) && forall p :: p in order <==> p in c.begin.osds
    ensures Midway(c, order, t0, VISITED, Handled(c, order, st))
  {
    hide Midway, Loop, Before, Covers;
    ListKeeps(c, order, t0, {}, RemoveFinished, st);
    var st1 := Loop(c, RemoveFinished, order, st);
    assert {} + {RemoveFinished} == {RemoveFinished};
    ListKeeps(c, order, t0, {RemoveFinished}, RemoveStray, st1);
    var st2 := Loop(c, RemoveStray, order, st1);
    assert {RemoveFinished} + {RemoveStray} == {RemoveFinished, RemoveStray};
    ListKeeps(c, order, t0, {RemoveFinished, RemoveStray}, RemoveInProgress, st2);
    var st3 := Loop(c, RemoveInProgress, order, st2);
    var done := {RemoveFinished, RemoveStray} + {RemoveInProgress};
    ListKeeps(c, order, t0, done, RemoveWaitingRebalance, st3);
    assert done + {RemoveWaitingRebalance} == VISITED;
  }

  lemma {:induction false} NeverDrainedAgain(o: Osd, o': Osd)
    requires o.remove.Some? && Advances(o, o') && !Unvisited(Bucket(o)) && Bucket(o) != RemoveWaitingRebalance
    ensures !PhaseIs(o', RemoveWaitingRebalance)
  {
  }

  lemma {:induction false} StillNoRebalance(c: Context, order: seq<Pair>, st': State, t0: Trace)
    requires AllHaveStatus(c.begin.osds) && !HasBucket(c.begin, RemoveWaitingRebalance)
    requires forall p :: p in order <==> p in c.begin.osds
    requires AllAdvance(c.begin.osds, st'.info.osds)
    requires forall q :: q in order && Unvisited(Bucket(c.begin.osds[q])) ==> Untouched(c, t0, st', q)
    ensures NoRebalance(st'.info.osds)
  {
    hide Of, Advances;
    forall p | p in st'.info.osds ensures !PhaseIs(st'.info.osds[p], RemoveWaitingRebalance) {
      assert Bucket(c.begin.osds[p]) != RemoveWaitingRebalance;
      if Unvisited(Bucket(c.begin.osds[p])) {
        assert Untouched(c, t0, st', p);
      } else {
        NeverDrainedAgain(c.begin.osds[p], st'.info.osds[p]);
      }
    }
  }

  ghost predicate HostsAdvance(hosts: map<string, Host>, hosts': map<string, Host>) {
    && hosts'.Keys == hosts.Keys
    && forall h :: h in hosts ==>
         && hosts'[h] == hosts[h].(removed := hosts'[h].removed)
         && (hosts[h].removed.Some? ==> hosts'[h] == hosts[h])
  }

  lemma {:induction false} HostsAdvanceTwice(a: map<string, Host>, b: map<string, Host>, c: map<string, Host>)
    requires HostsAdvance(a, b) && HostsAdvance(b, c)
    ensures HostsAdvance(a, c)
  {
  }

  lemma {:induction false} RemoveHostsKeeps(c: Context, hosts: seq<string>, st: State)
    requires WellFormed(st.info) && st.info.hosts == c.begin.hosts
    ensures var st' := RemoveHosts(c, hosts, st);
      && st'.info.osds == st.info.osds && (forall q :: Of(st'.trace, q) == Of(st.trace, q))
      && HostsAdvance(st.info.hosts, st'.info.hosts)
      && (forall h :: h in st.info.hosts ==> (st'.info.hosts[h].removed.Some? <==>
            st.info.hosts[h].removed.Some? || (h in hosts && HostDue(c.begin, h))))
  {
    hide HostDue;
    if hosts != [] {
      var h, init := hosts[|hosts| - 1], hosts[..|hosts| - 1];
      RemoveHostsKeeps(c, init, st);
      assert forall x :: x in hosts <==> x in init || x == h;
      if h in c.begin.hosts && HostDue(c.begin, h) {
        assert c.begin.hosts[h].removed.None? by { DueMeans(c.begin, h); }
        var t, more := RemoveHosts(c, init, st).trace, [HostEvent(c.pass, h, c.env.hostRemoved(h))];
        forall q ensures Of(t + more, q) == Of(t, q) { OfAppend(t, more, q); }
      }
    }
  }

  lemma {:induction false} DueMeans(info: RemoveInfo, h: string)
    requires h in info.hosts && HostDue(info, h)
    ensures info.hosts[h].removed.None?
  {
  }

  /** What one pass keeps and how it changes the map. */
  ghost predicate PassKept(info: RemoveInfo, n: nat, r: PassResult) {
    && Inv(r.info.osds, r.trace) && Before(r.trace, n + 1) && WellFormed(r.info)
    && AllAdvance(info.osds, r.info.osds) && HostsAdvance(info.hosts, r.info.hosts)
  }

  lemma {:induction false} PassKeeps(info: RemoveInfo, trace: Trace, n: nat, env: Env, order: seq<Pair>, hostOrder: seq<string>)
    requires ValidInput(info, order, hostOrder) && Inv(info.osds, trace) && Before(trace, n)
    ensures PassKept(info, n, Pass(info, trace, n, env, order, hostOrder))
  {
    hide Of, Inv, Advances, HostDue, Handled, Loop, Collected;
    var begin := Collected(info);
    var c := Context(env, n, begin);
    CollectedKeeps(info, trace);
    CollectedPlain(info);
    if exists h :: h in begin.hosts && HostDue(begin, h) {
      var st := State(begin, trace, 0, true, map[], false);
      RemoveHostsKeeps(c, hostOrder, st);
      OfDecides(begin.osds, trace, RemoveHosts(c, hostOrder, st).trace, n);
    } else {
      ContinuedKeeps(c, order, trace);
      AdvanceTwice(info.osds, begin.osds, Continued(c, order, trace).info.osds);
    }
  }

  lemma {:induction false} CollectedPlain(info: RemoveInfo)
    ensures Collected(info).hosts == info.hosts && Collected(info).osds.Keys == info.osds.Keys
  {
  }

  /** The invariant depends on the trace through the logs of the OSDs only. */
  lemma {:induction false} OfDecides(osds: map<Pair, Osd>, trace: Trace, trace': Trace, n: nat)
    requires Inv(osds, trace) && Before(trace, n) && forall q :: Of(trace', q) == Of(trace, q)
    ensures Inv(osds, trace') && Before(trace', n + 1)
  {
    hide Of, Local, OneJobPerHost, OneRebalance, Yields, ZapRan;
  }

  lemma {:induction false} BeginsMidway(c: Context, order: seq<Pair>, trace: Trace)
    requires WellFormed(c.begin) && AllHaveStatus(c.begin.osds) && Inv(c.begin.osds, trace) && Before(trace, c.pass)
    ensures Midway(c, order, trace, {}, Initial(c.begin, trace))
  {
    hide Of, Inv, Forward, FailedIssues;
    assert Before(trace, c.pass + 1);
    forall q | q in c.begin.osds ensures Advances(c.begin.osds[q], c.begin.osds[q]) { AdvancesItself(c.begin.osds[q]); }
  }

  lemma {:induction false} ContinuedKeeps(c: Context, order: seq<Pair>, trace: Trace)
    requires WellFormed(c.begin) && AllHaveStatus(c.begin.osds) && IsOrder(order, c.begin.osds.Keys)
    requires Inv(c.begin.osds, trace) && Before(trace, c.pass)
    ensures PassKept(c.begin, c.pass, Continued(c, order, trace))
    ensures HasBucket(c.begin, RemoveFailed) ==>
      forall q :: q in c.begin.osds && Unvisited(Bucket(c.begin.osds[q])) ==>
        Continued(c, order, trace).info.osds[q] == c.begin.osds[q]
  {
    hide Of, Inv, Advances, Handled, Loop, FailedIssues, Before, HasBucket, Bucket, WellFormed;
    var st := Initial(c.begin, trace);
    BeginsMidway(c, order, trace);
    HandledKeeps(c, order, st, trace);
    var st4 := Handled(c, order, st);
    if !HasBucket(c.begin, RemoveWaitingRebalance) && !HasBucket(c.begin, RemoveFailed) {
      StillNoRebalance(c, order, st4, trace);
      HandledWaiting(c, order, st);
      PendingLoopKeeps(c, order, st4, trace);
      AdvanceTwice(c.begin.osds, st4.info.osds, Loop(c, RemovePending, order, st4).info.osds);
    }
  }
}
