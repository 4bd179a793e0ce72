/**
 * Progress of a removal: a measure that no pass raises and that every pass that does not finish
 * lowers, unless the cluster makes it wait.
 */
module ExecutorProgress {
  import opened Wrappers
  import opened RemovalPlan
  import opened Executor
  import opened ExecutorInvariants
  import opened ExecutorPass
  import opened ExecutorRuns

  // ------------------------------------------------------------------- measure

  function OsdRank(o: Osd): nat {
    if o.remove.None? then 8
    else
      var r := o.remove.value;
      PhaseRank(r.osd.phase) + JobRank(r.job) + (if r.deploy.None? then 1 else 0)
  }

  function HostRank(h: Host): nat {
    if h.removed.None? then 1 else 0
  }

  function SumOsds(keys: seq<Pair>, osds: map<Pair, Osd>): nat
    requires forall p :: p in keys ==> p in osds
  {
    if keys == [] then 0
    else SumOsds(keys[..|keys| - 1], osds) + OsdRank(osds[keys[|keys| - 1]])
  }

  function SumHosts(keys: seq<string>, hosts: map<string, Host>): nat
    requires forall h :: h in keys ==> h in hosts
  {
    if keys == [] then 0
    else SumHosts(keys[..|keys| - 1], hosts) + HostRank(hosts[keys[|keys| - 1]])
  }

  /** The work left, summed over any enumeration of the OSDs and the hosts. */
  ghost function Measure(info: RemoveInfo, osdKeys: seq<Pair>, hostKeys: seq<string>): nat
    requires IsOrder(osdKeys, info.osds.Keys) && IsOrder(hostKeys, info.hosts.Keys)
  {
    SumOsds(osdKeys, info.osds) + SumHosts(hostKeys, info.hosts)
  }

  lemma {:induction false} RankFalls(o: Osd, o': Osd)
    requires Advances(o, o')
    ensures OsdRank(o') <= OsdRank(o)
    ensures o.remove.Some? && JobRank(o'.remove.value.job) < JobRank(o.remove.value.job) ==> OsdRank(o') < OsdRank(o)
  {
  }

  lemma {:induction false} SumOsdsFalls(keys: seq<Pair>, osds: map<Pair, Osd>, osds': map<Pair, Osd>)
    requires (forall p :: p in keys ==> p in osds) && AllAdvance(osds, osds')
    ensures SumOsds(keys, osds') <= SumOsds(keys, osds)
    ensures (exists p :: p in keys && OsdRank(osds'[p]) < OsdRank(osds[p])) ==> SumOsds(keys, osds') < SumOsds(keys, osds)
  {
    hide OsdRank, Advances;
    if keys != [] {
      var p, init := keys[|keys| - 1], keys[..|keys| - 1];
      SumOsdsFalls(init, osds, osds');
      RankFalls(osds[p], osds'[p]);
      assert forall q :: q in keys <==> q in init || q == p;
    }
  }

  lemma {:induction false} SumHostsFalls(keys: seq<string>, hosts: map<string, Host>, hosts': map<string, Host>)
    requires (forall h :: h in keys ==> h in hosts) && HostsAdvance(hosts, hosts')
    ensures SumHosts(keys, hosts') <= SumHosts(keys, hosts)
    ensures (exists h :: h in keys && HostRank(hosts'[h]) < HostRank(hosts[h])) ==> SumHosts(keys, hosts') < SumHosts(keys, hosts)
  {
    if keys != [] {
      var h, init := keys[|keys| - 1], keys[..|keys| - 1];
      SumHostsFalls(init, hosts, hosts');
      assert forall q :: q in keys <==> q in init || q == h;
    }
  }

  // ------------------------------------------------------------ what one step does

  /** The pending OSDs are looked at: none has failed and none rebalances. */
  ghost predicate TriesPending(osds: map<Pair, Osd>) {
    forall q :: q in osds ==> !PhaseIs(osds[q], RemoveFailed) && !PhaseIs(osds[q], RemoveWaitingRebalance)
  }

  /** The cluster, asked about this OSD, makes its removal wait. */
  ghost predicate Waits(osds: map<Pair, Osd>, p: Pair, a: Answers)
    requires p in osds
  {
    || (PhaseIs(osds[p], RemoveWaitingRebalance) && a.hasPgs == Some(true))
    || (PhaseIs(osds[p], RemovePending) && TriesPending(osds) && a.state == Some(OsdState(true, true)) && !a.okToStop)
    || (JobIs(osds[p], RemoveInProgress) && (a.job == Some(JobActive) || a.job == Some(JobNotStarted)))
  }

  ghost predicate Moves(c: Context, osds: map<Pair, Osd>, p: Pair) {
    p in c.begin.osds && p in osds &&
      (OsdRank(osds[p]) < OsdRank(c.begin.osds[p]) || Waits(c.begin.osds, p, c.env.osd(p)))
  }

  ghost predicate SomeMoves(c: Context, osds: map<Pair, Osd>) {
    exists p :: Moves(c, osds, p)
  }

  lemma {:induction false} MovesLater(c: Context, osds: map<Pair, Osd>, osds': map<Pair, Osd>)
    requires AllAdvance(osds, osds')
    ensures forall p :: Moves(c, osds, p) ==> Moves(c, osds', p)
    ensures SomeMoves(c, osds) ==> SomeMoves(c, osds')
  {
    hide OsdRank, Advances, Waits;
    forall p | Moves(c, osds, p) ensures Moves(c, osds', p) {
      RankFalls(osds[p], osds'[p]);
    }
    if SomeMoves(c, osds) {
      var p :| Moves(c, osds, p);
      assert Moves(c, osds', p);
    }
  }

  /** Every command sequence lowers the rank of its OSD, unless the cluster makes it wait. */
  lemma {:induction false} OutcomeMoves(c: Context, b: RemovePhase, p: Pair, r: RemoveResult)
    requires r.osd.phase == b
    requires b in {RemoveStray, RemoveInProgress, RemoveWaitingRebalance, RemovePending}
    ensures var out := OsdOutcome(c, b, p, r.osd);
      || PhaseRank(out.status.phase) < PhaseRank(b)
      || (b == RemoveWaitingRebalance && c.env.osd(p).hasPgs == Some(true))
      || (b == RemovePending && c.env.osd(p).state == Some(OsdState(true, true)) && !c.env.osd(p).okToStop)
  {
  }

  lemma {:induction false} StepMoves(c: Context, b: RemovePhase, p: Pair, st: State)
    requires Covers(c, st) && p in st.info.osds && st.info.osds[p] == c.begin.osds[p] && Bucket(c.begin.osds[p]) == b
    requires b in {RemoveStray, RemoveInProgress, RemoveWaitingRebalance} || (b == RemovePending && !st.moved && TriesPending(c.begin.osds))
    ensures Moves(c, Step(c, b, p, st).info.osds, p)
  {
    hide OsdOutcome, Tagged, FinishedStep, WellFormed, OsdRank, Waits, ResetWaiting;
    var o := st.info.osds[p];
    var o' := o.(remove := Some(o.remove.value.(osd := OsdOutcome(c, b, p, o.remove.value.osd).status)));
    OutcomeRanks(c, b, p);
    ResetRank(WithOutcome(c, p, st, OsdOutcome(c, b, p, o.remove.value.osd)).info.osds, st.waiting, p);
    assert WithOutcome(c, p, st, OsdOutcome(c, b, p, o.remove.value.osd)).info.osds[p] == o';
  }

  /** Clearing the wait start times lowers and raises no rank. */
  lemma {:induction false} ResetRank(osds: map<Pair, Osd>, waiting: map<string, string>, p: Pair)
    requires p in osds
    ensures p in ResetWaiting(osds, waiting) && OsdRank(ResetWaiting(osds, waiting)[p]) == OsdRank(osds[p])
  {
  }

  lemma {:induction false} OutcomeRanks(c: Context, b: RemovePhase, p: Pair)
    requires p in c.begin.osds && c.begin.osds[p].remove.Some? && Bucket(c.begin.osds[p]) == b
    requires b in {RemoveStray, RemoveInProgress, RemoveWaitingRebalance} || (b == RemovePending && TriesPending(c.begin.osds))
    ensures var o := c.begin.osds[p];
      var o' := o.(remove := Some(o.remove.value.(osd := OsdOutcome(c, b, p, o.remove.value.osd).status)));
      OsdRank(o') < OsdRank(o) || Waits(c.begin.osds, p, c.env.osd(p))
  {
    hide OsdOutcome, TriesPending;
    OutcomeMoves(c, b, p, c.begin.osds[p].remove.value);
  }

  lemma {:induction false} DeployMoves(c: Context, p: Pair, st: State)
    requires Covers(c, st) && p in st.info.osds
    ensures var st' := DeployStep(c, p, st);
      && OsdRank(st'.info.osds[p]) <= OsdRank(st.info.osds[p])
      && (st'.notCompleted > st.notCompleted ==> OsdRank(st'.info.osds[p]) < OsdRank(st.info.osds[p]))
  {
    hide Tagged, PhaseRank, JobRank;
  }

  /** Handling a job lowers the rank, unless it runs on or is delayed by another job on the host. */
  lemma {:induction false} JobMoves(osds: map<Pair, Osd>, p: Pair, a: Answers)
    requires p in osds && osds[p].remove.Some? && JobOpen(osds[p].remove.value.job)
    ensures var r := osds[p].remove.value; var out := HandleJobRun(osds, p, a);
      || JobRank(Some(out.status)) < JobRank(r.job)
      || (JobIs(osds[p], RemoveInProgress) && (a.job == Some(JobActive) || a.job == Some(JobNotStarted)))
      || (!JobIs(osds[p], RemoveInProgress) && ParallelJob(osds, p))
  {
    hide ParallelJob, JobDevices;
  }

  lemma {:induction false} SkippedMoves(c: Context, p: Pair, st: State)
    requires Covers(c, st) && p in st.info.osds && st.info.osds[p] == c.begin.osds[p]
    requires JobOpen(st.info.osds[p].remove.value.job) && SkipsJob(st.info.hosts[p.host], st.info.osds[p])
    ensures Moves(c, FinishedStep(c, p, st).info.osds, p)
  {
    hide DeployStep, PhaseRank, Waits;
    var res := st.info.osds[p].remove.value;
    var r' := res.(job := Some(Just(RemoveSkipped)));
    WithCovers(c, p, st, r', []);
    var st1 := WithResult(st, p, r');
    DeployMoves(c, p, st1);
    assert JobRank(r'.job) < JobRank(res.job);
    assert OsdRank(st1.info.osds[p]) < OsdRank(st.info.osds[p]);
  }

  lemma {:induction false} JobRunMoves(c: Context, p: Pair, st: State)
    requires Covers(c, st) && p in st.info.osds && st.info.osds[p] == c.begin.osds[p]
    requires JobOpen(st.info.osds[p].remove.value.job) && !SkipsJob(st.info.hosts[p.host], st.info.osds[p])
    ensures var st' := FinishedStep(c, p, st);
      Moves(c, st'.info.osds, p) || (!JobIs(c.begin.osds[p], RemoveInProgress) && ParallelJob(st.info.osds, p))
  {
    hide Tagged, HandleJobRun, ParallelJob, HasBucket, PendingListEmpty, DeployStep, PhaseRank, SkipsJob, JobRank;
    var res := st.info.osds[p].remove.value;
    var out := HandleJobRun(st.info.osds, p, c.env.osd(p));
    var r' := res.(job := Some(out.status));
    JobMoves(st.info.osds, p, c.env.osd(p));
    WithCovers(c, p, st, r', out.actions);
    var st1 := WithEvents(WithResult(st, p, r'), c.pass, p, out.actions);
    DeployMoves(c, p, st1);
    if JobRank(r'.job) < JobRank(res.job) {
      assert OsdRank(st1.info.osds[p]) < OsdRank(st.info.osds[p]);
    }
  }

  /** A removed OSD that is counted as not completed moves, or is delayed by another job on its host. */
  lemma {:induction false} FinishedMoves(c: Context, p: Pair, st: State)
    requires Covers(c, st) && p in st.info.osds && st.info.osds[p] == c.begin.osds[p]
    ensures var st' := FinishedStep(c, p, st);
      && (st'.notCompleted > st.notCompleted ==> Moves(c, st'.info.osds, p) || ParallelJob(st.info.osds, p))
      && (JobIs(c.begin.osds[p], RemoveInProgress) ==> Moves(c, st'.info.osds, p))
  {
    hide HandleJobRun, ParallelJob, HasBucket, PendingListEmpty, DeployStep, OsdRank, SkipsJob, Waits;
    var o := st.info.osds[p];
    if JobOpen(o.remove.value.job) {
      if SkipsJob(st.info.hosts[p.host], o) {
        SkippedMoves(c, p, st);
      } else {
        JobRunMoves(c, p, st);
      }
    } else {
      DeployMoves(c, p, st);
    }
  }

  // ------------------------------------------------------------------- loops

  lemma {:induction false} LoopNone(c: Context, b: RemovePhase, order: seq<Pair>, st: State)
    requires Covers(c, st) && forall p :: p in order ==> p in c.begin.osds && Bucket(c.begin.osds[p]) != b
    ensures Loop(c, b, order, st) == st
  {
    if order != [] {
      LoopNone(c, b, order[..|order| - 1], st);
    }
  }

  /** Every OSD on one of these lists moves. */
  lemma {:induction false} LoopMoves(c: Context, b: RemovePhase, order: seq<Pair>, st: State, t0: Trace)
    requires Sound(c, st) && Before(t0, c.pass) && NoDuplicates(order)
    requires b in {RemoveStray, RemoveInProgress, RemoveWaitingRebalance}
    requires forall p :: p in order ==> p in c.begin.osds
    requires forall p :: p in order && Bucket(c.begin.osds[p]) == b ==> Untouched(c, t0, st, p)
    ensures forall p :: p in order && Bucket(c.begin.osds[p]) == b ==> Moves(c, Loop(c, b, order, st).info.osds, p)
  {
    hide Inv, Before, Advances, Of, Step, Moves;
    if order != [] {
      var last := |order| - 1;
      var init, p := order[..last], order[last];
      assert order == init + [p] && p !in init;
      LoopMoves(c, b, init, st, t0);
      LoopKeeps(c, b, init, st, t0);
      LoopKeeps(c, b, order, st, t0);
      var st' := Loop(c, b, init, st);
      if Bucket(c.begin.osds[p]) == b {
        assert Untouched(c, t0, st, p);
        StepMoves(c, b, p, st');
        StepKeeps(c, b, p, st', t0);
        StepReaches(c, b, order, p, st', Step(c, b, p, st'));
        MovesLater(c, st'.info.osds, Step(c, b, p, st').info.osds);
      }
    }
  }

  /** Running jobs when the pass began. */
  ghost predicate SomeRuns(c: Context) {
    exists p :: p in c.begin.osds && JobIs(c.begin.osds[p], RemoveInProgress)
  }

  /** Another job on the host was running at the start of the pass or was started in it. */
  lemma {:induction false} ParallelMeans(c: Context, osds: map<Pair, Osd>, p: Pair)
    requires AllHaveStatus(c.begin.osds) && AllAdvance(c.begin.osds, osds) && ParallelJob(osds, p)
    ensures SomeMoves(c, osds) || SomeRuns(c)
  {
    var q :| q in osds && Neighbour(osds, p, q) && JobIs(osds[q], RemoveInProgress);
    assert Advances(c.begin.osds[q], osds[q]);
    RankFalls(c.begin.osds[q], osds[q]);
    if !JobIs(c.begin.osds[q], RemoveInProgress) {
      assert Moves(c, osds, q);
    }
  }

  lemma {:induction false} FinishedLoopStep(c: Context, order: seq<Pair>, p: Pair, st': State, t0: Trace)
    requires Midway(c, order, t0, {RemoveFinished}, st') && Untouched(c, t0, st', p) && Before(t0, c.pass)
    requires Bucket(c.begin.osds[p]) == RemoveFinished
    ensures var st'' := FinishedStep(c, p, st');
      && (st''.notCompleted > st'.notCompleted ==> SomeMoves(c, st''.info.osds) || SomeRuns(c))
      && (JobIs(c.begin.osds[p], RemoveInProgress) ==> Moves(c, st''.info.osds, p))
      && (forall q :: Moves(c, st'.info.osds, q) ==> Moves(c, st''.info.osds, q))
      && (SomeMoves(c, st'.info.osds) ==> SomeMoves(c, st''.info.osds))
  {
    hide Inv, Before, Advances, Of, FinishedStep, Moves, ParallelJob, SomeRuns;
    var st'' := FinishedStep(c, p, st');
    FinishedMoves(c, p, st');
    FinishedKeeps(c, p, st');
    StepReaches(c, RemoveFinished, [p], p, st', st'');
    MovesLater(c, st'.info.osds, st''.info.osds);
    if ParallelJob(st'.info.osds, p) {
      ParallelMeans(c, st'.info.osds, p);
    }
  }

  lemma {:induction false} FinishedLoopMoves(c: Context, order: seq<Pair>, st: State, t0: Trace)
    requires Midway(c, order, t0, {}, st) && Before(t0, c.pass) && NoDuplicates(order)
    requires forall p :: p in order ==> p in c.begin.osds
    ensures var st' := Loop(c, RemoveFinished, order, st);
      && (st'.notCompleted > st.notCompleted ==> SomeMoves(c, st'.info.osds) || SomeRuns(c))
      && (forall p :: p in order && Bucket(c.begin.osds[p]) == RemoveFinished && JobIs(c.begin.osds[p], RemoveInProgress) ==>
            Moves(c, st'.info.osds, p))
  {
    hide Inv, Before, Advances, Of, Step, Moves, JobIs, SomeMoves, SomeRuns, Midway, Untouched;
    if order != [] {
      var last := |order| - 1;
      var init, p := order[..last], order[last];
      assert order == init + [p] && p !in init;
      MidwayPart(c, init, p, t0, st);
      FinishedLoopMoves(c, init, st, t0);
      FinishedLoopMidway(c, init, p, st, t0);
      var st' := Loop(c, RemoveFinished, init, st);
      if Bucket(c.begin.osds[p]) == RemoveFinished {
        FinishedLoopStep(c, init, p, st', t0);
        StepFinishes(c, p, st');
      }
    }
  }

  lemma {:induction false} MidwayPart(c: Context, init: seq<Pair>, p: Pair, t0: Trace, st: State)
    requires Midway(c, init + [p], t0, {}, st) && p in c.begin.osds
    ensures Midway(c, init, t0, {}, st) && Untouched(c, t0, st, p) && Covers(c, st)
  {
    hide Inv, Before, Advances, Of, Untouched;
    assert p in init + [p];
  }

  lemma {:induction false} FinishedLoopMidway(c: Context, init: seq<Pair>, p: Pair, st: State, t0: Trace)
    requires Midway(c, init, t0, {}, st) && Before(t0, c.pass) && NoDuplicates(init) && p !in init && p in c.begin.osds
    requires Untouched(c, t0, st, p) && forall q :: q in init ==> q in c.begin.osds
    ensures var st' := Loop(c, RemoveFinished, init, st);
      Midway(c, init, t0, {RemoveFinished}, st') && Untouched(c, t0, st', p) && Covers(c, st')
  {
    hide Inv, Before, Advances, Of, Loop;
    LoopKeeps(c, RemoveFinished, init, st, t0);
    AdvanceTwice(c.begin.osds, st.info.osds, Loop(c, RemoveFinished, init, st).info.osds);
  }

  /** If there is a pending OSD, the first one tried moves. */
  lemma {:induction false} PendingLoopMoves(c: Context, order: seq<Pair>, st: State, t0: Trace)
    requires Sound(c, st) && Before(t0, c.pass) && NoDuplicates(order) && PendingReady(c, [], st) && !st.moved
    requires forall p :: p in order ==> p in c.begin.osds
    requires forall p :: p in order && Bucket(c.begin.osds[p]) == RemovePending ==> Untouched(c, t0, st, p)
    requires TriesPending(c.begin.osds) && exists p :: p in order && Bucket(c.begin.osds[p]) == RemovePending
    ensures SomeMoves(c, Loop(c, RemovePending, order, st).info.osds)
  {
    hide Inv, Before, Advances, Of, PendingStep, Moves, PendingReady, TriesPending;
    var last := |order| - 1;
    var init, p := order[..last], order[last];
    assert order == init + [p] && p !in init;
    var st' := Loop(c, RemovePending, init, st);
    if q :| q in init && Bucket(c.begin.osds[q]) == RemovePending {
      PendingLoopMoves(c, init, st, t0);
      PendingLoopKeeps(c, init, st, t0);
      if Bucket(c.begin.osds[p]) == RemovePending {
        assert Untouched(c, t0, st, p);
        PendingKeeps(c, init, p, st', t0);
        MovesLater(c, st'.info.osds, PendingStep(c, p, st').info.osds);
      }
    } else {
      LoopNone(c, RemovePending, init, st);
      assert Bucket(c.begin.osds[p]) == RemovePending;
      assert Untouched(c, t0, st, p);
      StepMoves(c, RemovePending, p, st);
    }
  }

  // ------------------------------------------------------------- a whole pass

  /** A list that is not empty makes something move, and what moved stays moved. */
  lemma {:induction false} ListMoves(c: Context, order: seq<Pair>, t0: Trace, done: set<RemovePhase>, b: RemovePhase, st: State)
    requires Midway(c, order, t0, done, st) && b !in done && b in {RemoveStray, RemoveInProgress, RemoveWaitingRebalance}
    requires Before(t0, c.pass) && NoDuplicates(order) && forall p :: p in order <==> p in c.begin.osds
    ensures var st' := Loop(c, b, order, st);
      && (SomeMoves(c, st.info.osds) || HasBucket(c.begin, b) ==> SomeMoves(c, st'.info.osds))
      && (!HasBucket(c.begin, b) ==> st' == st)
  {
    hide Inv, Before, Advances, Of, Loop, Moves;
    if HasBucket(c.begin, b) {
      var p :| p in c.begin.osds && Bucket(c.begin.osds[p]) == b;
      LoopMoves(c, b, order, st, t0);
      assert Moves(c, Loop(c, b, order, st).info.osds, p);
    } else {
      LoopNone(c, b, order, st);
    }
  }

  lemma {:induction false} FinishedListMoves(c: Context, order: seq<Pair>, t0: Trace, st: State)
    requires Midway(c, order, t0, {}, st) && Inv(c.begin.osds, t0)
    requires Before(t0, c.pass) && NoDuplicates(order) && forall p :: p in order <==> p in c.begin.osds
    ensures var st' := Loop(c, RemoveFinished, order, st);
      st'.notCompleted > st.notCompleted ==> SomeMoves(c, st'.info.osds)
  {
    hide Before, Advances, Of, Loop, Moves, JobIs, OneJobPerHost, OneRebalance, ZapSafe, Evidence, Once, Recorded;
    FinishedLoopMoves(c, order, st, t0);
    var osds := Loop(c, RemoveFinished, order, st).info.osds;
    if SomeRuns(c) {
      var p :| p in c.begin.osds && JobIs(c.begin.osds[p], RemoveInProgress);
      RunningIsListed(p, c.begin.osds[p], Of(t0, p));
      assert Moves(c, osds, p);
    }
  }

  lemma {:induction false} RunningIsListed(p: Pair, o: Osd, log: seq<Logged>)
    requires Local(p, o, log) && JobIs(o, RemoveInProgress)
    ensures Bucket(o) == RemoveFinished
  {
  }

  lemma {:induction false} HandledMoves(c: Context, order: seq<Pair>, t0: Trace, st: State)
    requires Midway(c, order, t0, {}, st) && Covers(c, st) && Inv(c.begin.osds, t0)
    requires Before(t0, c.pass) && NoDuplicates(order) && forall p :: p in order <==> p in c.begin.osds
    ensures var st' := Handled(c, order, st);
      st'.notCompleted > st.notCompleted || HasBucket(c.begin, RemoveWaitingRebalance) ==> SomeMoves(c, st'.info.osds)
  {
    hide Inv, Midway, Loop, Before, Covers, SomeMoves, HasBucket;
    FinishedListMoves(c, order, t0, st);
    ListKeeps(c, order, t0, {}, RemoveFinished, st);
    assert {} + {RemoveFinished} == {RemoveFinished};
    var st1 := Loop(c, RemoveFinished, order, st);
    ListMoves(c, order, t0, {RemoveFinished}, RemoveStray, st1);
    ListKeeps(c, order, t0, {RemoveFinished}, RemoveStray, st1);
    assert {RemoveFinished} + {RemoveStray} == {RemoveFinished, RemoveStray};
    var st2 := Loop(c, RemoveStray, order, st1);
    var two := {RemoveFinished, RemoveStray};
    ListMoves(c, order, t0, two, RemoveInProgress, st2);
    ListKeeps(c, order, t0, two, RemoveInProgress, st2);
    var st3 := Loop(c, RemoveInProgress, order, st2);
    ListMoves(c, order, t0, two + {RemoveInProgress}, RemoveWaitingRebalance, st3);
  }

  lemma {:induction false} PendingMoves(c: Context, order: seq<Pair>, t0: Trace, st: State)
    requires Midway(c, order, t0, VISITED, st) && Before(t0, c.pass) && NoDuplicates(order)
    requires st.waiting == map[] && !st.moved && (forall p :: p in order <==> p in c.begin.osds)
    requires AllHaveStatus(c.begin.osds) && !HasBucket(c.begin, RemoveWaitingRebalance) && !HasBucket(c.begin, RemoveFailed)
    ensures var st' := Loop(c, RemovePending, order, st);
      && (SomeMoves(c, st.info.osds) || HasBucket(c.begin, RemovePending) ==> SomeMoves(c, st'.info.osds))
      && (!HasBucket(c.begin, RemovePending) ==> st' == st)
  {
    hide Inv, Before, Advances, Of, Loop, Moves;
    StillNoRebalance(c, order, st, t0);
    BucketsTry(c.begin);
    if HasBucket(c.begin, RemovePending) {
      PendingLoopMoves(c, order, st, t0);
    } else {
      LoopNone(c, RemovePending, order, st);
    }
  }

  lemma {:induction false} BucketsTry(info: RemoveInfo)
    requires AllHaveStatus(info.osds) && !HasBucket(info, RemoveWaitingRebalance) && !HasBucket(info, RemoveFailed)
    ensures TriesPending(info.osds)
  {
    forall q | q in info.osds ensures !PhaseIs(info.osds[q], RemoveFailed) && !PhaseIs(info.osds[q], RemoveWaitingRebalance) {
      assert Bucket(info.osds[q]) != RemoveFailed && Bucket(info.osds[q]) != RemoveWaitingRebalance;
    }
  }

  lemma {:induction false} ContinuedMoves(c: Context, order: seq<Pair>, trace: Trace)
    requires WellFormed(c.begin) && AllHaveStatus(c.begin.osds) && IsOrder(order, c.begin.osds.Keys)
    requires Inv(c.begin.osds, trace) && Before(trace, c.pass) && !Continued(c, order, trace).finished
    ensures SomeMoves(c, Continued(c, order, trace).info.osds)
  {
    hide Inv, Before, Handled, Loop, FailedIssues, Midway, SomeMoves, HasBucket;
    var st := Initial(c.begin, trace);
    InitialCovers(c, trace);
    BeginsMidway(c, order, trace);
    HandledMoves(c, order, trace, st);
    var st4 := Handled(c, order, st);
    HandledKeeps(c, order, st, trace);
    HandledWaiting(c, order, st);
    if !HasBucket(c.begin, RemoveWaitingRebalance) && !HasBucket(c.begin, RemoveFailed) {
      PendingMoves(c, order, trace, st4);
    }
  }

  // ------------------------------------------------------------ the main results

  /** The environment waits of a pass, named for the map it began with. An OSD the pass does not look at never counts. */
  ghost predicate Blocked(info: RemoveInfo, env: Env) {
    exists p :: p in info.osds && Waits(info.osds, p, env.osd(p))
  }

  /**
   * No internal deadlock: a pass never raises the measure, and a pass that does not finish lowers
   * it unless the cluster reported placement groups still present, refused to stop an OSD, or a
   * cleanup job still active or pending.
   */
  lemma {:induction false} PassProgress(w: World, i: Input, w': World, osdKeys: seq<Pair>, hostKeys: seq<string>)
    requires Reachable(w) && Follows(w, i, w')
    requires IsOrder(osdKeys, w.info.osds.Keys) && IsOrder(hostKeys, w.info.hosts.Keys)
    ensures IsOrder(osdKeys, w'.info.osds.Keys) && IsOrder(hostKeys, w'.info.hosts.Keys)
    ensures Measure(w'.info, osdKeys, hostKeys) <= Measure(w.info, osdKeys, hostKeys)
    ensures ResultOf(w, i).finished || Blocked(w.info, i.env)
         || Measure(w'.info, osdKeys, hostKeys) < Measure(w.info, osdKeys, hostKeys)
  {
    hide Inv, Before, Of, Pass, Advances, OsdRank, HostRank, Waits;
    NextReachable(w, i, w');
    SumOsdsFalls(osdKeys, w.info.osds, w'.info.osds);
    SumHostsFalls(hostKeys, w.info.hosts, w'.info.hosts);
    if !ResultOf(w, i).finished && !Blocked(w.info, i.env) {
      SomethingFalls(w, i, w');
    }
  }

  lemma {:induction false} SomethingFalls(w: World, i: Input, w': World)
    requires Reachable(w) && Follows(w, i, w') && !ResultOf(w, i).finished && !Blocked(w.info, i.env)
    ensures || (exists p :: p in w.info.osds && p in w'.info.osds && OsdRank(w'.info.osds[p]) < OsdRank(w.info.osds[p]))
            || (exists h :: h in w.info.hosts && h in w'.info.hosts && HostRank(w'.info.hosts[h]) < HostRank(w.info.hosts[h]))
  {
    hide Inv, Before, Of, HostDue, RemoveHosts, Continued, Advances, OsdRank, Waits, Collected;
    var begin := Collected(w.info);
    var c := Context(i.env, w.passes, begin);
    CollectedKeeps(w.info, w.trace);
    CollectedPlain(w.info);
    if h :| h in begin.hosts && HostDue(begin, h) {
      RemoveHostsKeeps(c, i.hostOrder, State(begin, w.trace, 0, true, map[], false));
      DueMeans(begin, h);
      assert HostRank(w'.info.hosts[h]) < HostRank(w.info.hosts[h]);
    } else {
      ContinuedMoves(c, i.order, w.trace);
      var p :| Moves(c, w'.info.osds, p);
      ContinuedKeeps(c, i.order, w.trace);
      FreshFalls(w.info, p, w'.info.osds[p], i.env.osd(p));
    }
  }

  lemma {:induction false} FreshFalls(info: RemoveInfo, p: Pair, o': Osd, a: Answers)
    requires p in info.osds && p in Collected(info).osds && Advances(Collected(info).osds[p], o')
    requires OsdRank(o') < OsdRank(Collected(info).osds[p]) || Waits(Collected(info).osds, p, a)
    ensures OsdRank(o') < OsdRank(info.osds[p]) || Waits(info.osds, p, a)
  {
    RankFalls(Collected(info).osds[p], o');
    if TriesPending(Collected(info).osds) { TriedBefore(info); }
    hide TriesPending;
  }

  lemma {:induction false} TriedBefore(info: RemoveInfo)
    requires TriesPending(Collected(info).osds)
    ensures TriesPending(info.osds)
  {
    forall q | q in info.osds ensures !PhaseIs(info.osds[q], RemoveFailed) && !PhaseIs(info.osds[q], RemoveWaitingRebalance) {
      assert q in Collected(info).osds;
    }
  }

  /** How many passes of a run neither finished nor were blocked by the cluster. */
  ghost function BusyPasses(ws: seq<World>, ins: seq<Input>, k: nat): nat
    requires IsRun(ws, ins) && k <= |ins|
  {
    if k == 0 then 0
    else
      assert Follows(ws[k - 1], ins[k - 1], ws[k - 1 + 1]);
      BusyPasses(ws, ins, k - 1) +
        if ResultOf(ws[k - 1], ins[k - 1]).finished || Blocked(ws[k - 1].info, ins[k - 1].env) then 0 else 1
  }

  /** The measure of the approved map bounds the passes that only the removal itself is responsible for. */
  lemma {:induction false} BusyPassesBounded(ws: seq<World>, ins: seq<Input>, k: nat, osdKeys: seq<Pair>, hostKeys: seq<string>)
    requires IsRun(ws, ins) && k <= |ins|
    requires IsOrder(osdKeys, ws[0].info.osds.Keys) && IsOrder(hostKeys, ws[0].info.hosts.Keys)
    ensures IsOrder(osdKeys, ws[k].info.osds.Keys) && IsOrder(hostKeys, ws[k].info.hosts.Keys)
    ensures BusyPasses(ws, ins, k) + Measure(ws[k].info, osdKeys, hostKeys) <= Measure(ws[0].info, osdKeys, hostKeys)
  {
    hide Follows, Reachable, Starts, Measure, IsOrder, Blocked, BusyPasses, ResultOf;
    if k > 0 {
      BusyPassesBounded(ws, ins, k - 1, osdKeys, hostKeys);
      RunReachable(ws, ins, k - 1);
      BusyStep(ws, ins, k - 1);
      hide IsRun;
      PassProgress(ws[k - 1], ins[k - 1], ws[k], osdKeys, hostKeys);
    } else {
      assert BusyPasses(ws, ins, 0) == 0 by { NoPasses(ws, ins); }
    }
  }

  lemma {:induction false} NoPasses(ws: seq<World>, ins: seq<Input>)
    requires IsRun(ws, ins)
    ensures BusyPasses(ws, ins, 0) == 0
  {
    hide Follows, Starts;
  }

  lemma {:induction false} BusyStep(ws: seq<World>, ins: seq<Input>, k: nat)
    requires IsRun(ws, ins) && k < |ins|
    ensures Follows(ws[k], ins[k], ws[k + 1]) && ValidInput(ws[k].info, ins[k].order, ins[k].hostOrder)
    ensures BusyPasses(ws, ins, k + 1) == BusyPasses(ws, ins, k) +
      if ResultOf(ws[k], ins[k]).finished || Blocked(ws[k].info, ins[k].env) then 0 else 1
  {
    hide Starts, Blocked, ResultOf;
  }
}
