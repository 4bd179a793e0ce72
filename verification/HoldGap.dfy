/**
 * A history in which an unresolved failure does not hold the deployment
 * (pkg/controller/deployment/controller.go): the removal of one OSD fails, and a newer task that is
 * listed before it goes into validation.
 */
module HoldGap {
  import opened Wrappers
  import opened RemovalPlan
  import opened Executor
  import opened ExecutorRuns
  import opened ExecutorProgress
  import opened SingleOsd
  import opened TaskMachine
  import opened TaskSet

  // --------------------------------------------------------- the removal of one OSD fails

  function FailedResult(): RemoveResult {
    RemoveResult(RemoveStatus(RemoveFailed, None, true), None, None)
  }

  /** The first pass cannot read the state of the OSD and marks it as failed. */
  lemma {:induction false} FirstPass(info: RemoveInfo, p: Pair, o: Osd, trace: Trace, n: nat, env: Env)
    requires OneOsd(info, p, o) && o.remove.None? && !IsStray(p) && env.osd(p).state.None?
    requires ValidInput(info, [p], [p.host])
    ensures var r := Pass(info, trace, n, env, [p], [p.host]);
      !r.finished && OneOsd(r.info, p, o.(remove := Some(FailedResult())))
  {
    hide Continued, HostDue, IsStray;
    var begun := o.(remove := Some(RemoveResult(Just(RemovePending), None, None)));
    var begin := Collected(info);
    assert begin.osds == map[p := begun];
    NoHostDue(begin, p, begun);
    FirstContinued(Context(env, n, begin), p, begun, trace);
  }

  lemma {:induction false} FirstContinued(c: Context, p: Pair, o: Osd, trace: Trace)
    requires OneOsd(c.begin, p, o) && o.remove == Some(RemoveResult(Just(RemovePending), None, None)) && c.env.osd(p).state.None?
    requires WellFormed(c.begin) && AllHaveStatus(c.begin.osds)
    ensures var r := Continued(c, [p], trace);
      !r.finished && OneOsd(r.info, p, o.(remove := Some(FailedResult())))
  {
    hide Loop, Handled, HasBucket;
    var st := Initial(c.begin, trace);
    InitialCovers(c, trace);
    AllOthersIdle(c, p, st);
    PendingAlone(c, p, st);
    assert FailedIssues(c.begin) == {};
  }

  lemma {:induction false} AllOthersIdle(c: Context, p: Pair, st: State)
    requires Covers(c, st) && c.begin.osds.Keys == {p} && Bucket(c.begin.osds[p]) in {RemovePending, RemoveFailed}
    ensures Handled(c, [p], st) == st
    ensures !HasBucket(c.begin, RemoveWaitingRebalance)
    ensures HasBucket(c.begin, RemoveFailed) <==> Bucket(c.begin.osds[p]) == RemoveFailed
  {
    LoopNone(c, RemoveFinished, [p], st);
    LoopNone(c, RemoveStray, [p], st);
    LoopNone(c, RemoveInProgress, [p], st);
    LoopNone(c, RemoveWaitingRebalance, [p], st);
  }

  lemma {:induction false} PendingAlone(c: Context, p: Pair, st: State)
    requires Covers(c, st) && st.info.osds == c.begin.osds && c.begin.osds.Keys == {p} && !st.moved && st.waiting == map[]
    requires Bucket(c.begin.osds[p]) == RemovePending && c.env.osd(p).state.None?
    ensures var st' := Loop(c, RemovePending, [p], st);
      var o := c.begin.osds[p];
      && st'.notCompleted == st.notCompleted + 1 && st'.info.hosts == st.info.hosts
      && st'.info.issues == st.info.issues && st'.info.warnings == st.info.warnings
      && st'.info.osds == map[p := o.(remove := Some(o.remove.value.(osd := RemoveStatus(RemoveFailed, None, true))))]
  {
    LoopAlone(c, RemovePending, p, st);
  }

  /** The second pass finds the failure and reports the removal as finished, with an issue. */
  lemma {:induction false} SecondPass(info: RemoveInfo, p: Pair, o: Osd, trace: Trace, n: nat, env: Env)
    requires OneOsd(info, p, o) && o.remove == Some(FailedResult())
    requires ValidInput(info, [p], [p.host])
    ensures var r := Pass(info, trace, n, env, [p], [p.host]);
      r.finished && r.info.issues != {}
  {
    hide Loop, HasBucket, HostDue, IsStray;
    var begin := Collected(info);
    assert begin.osds == info.osds;
    NoHostDue(begin, p, o);
    var c := Context(env, n, begin);
    InitialCovers(c, trace);
    AllOthersIdle(c, p, Initial(begin, trace));
    assert OsdRemoveFailed(p) in FailedIssues(begin);
  }

  // ------------------------------------------------------------------------ the history

  /** One reconcile of the only task of the list. */
  lemma {:induction false} SoloStep(t: Task, s: Situation)
    requires t.status.Some? && Active(t) && InputFits(t, s) && Fresh(s.validation)
    ensures MoveFits([t], Reconciled(0, Found(s), true)) && After([t], Reconciled(0, Found(s), true)) == [Advance(t, s)]
  {
    hide Advance;
    assert IsOldest([t], 0);
  }

  /** An approved task for the OSD at each stage, worked on in an unchanged situation. */
  lemma {:induction false} TaskFails(b: Task, s: Situation, p: Pair, o: Osd) returns (stages: seq<Task>)
    requires b.status.None? && b.spec == Some(Spec(None, true, false))
    requires OneOsd(s.validation, p, o) && o.remove.None? && !IsStray(p) && s.input.env.osd(p).state.None?
    requires s.input.order == [p] && s.input.hostOrder == [p.host]
    requires s.deploymentOnHold.None? && s.healthGeneration == s.generation && s.operatorStopped
    ensures |stages| == 6 && stages[0] == b.(status := Some(InitStatus(b)))
    ensures forall k :: 0 <= k < 5 ==> stages[k].status.Some? && Active(stages[k]) && InputFits(stages[k], s) && stages[k + 1] == Advance(stages[k], s)
    ensures Unresolved(stages[5])
  {
    hide Pass, IsStray;
    assert p.host in s.validation.hosts;
    var t0 := b.(status := Some(InitStatus(b)));
    var t1 := Advance(t0, s);
    var t2 := Advance(t1, s);
    assert t2.status.value.phase == WaitingOperator && t2.status.value.removeInfo == Some(s.validation);
    var t3 := Advance(t2, s);
    assert t3.status.value.phase == Processing && t3.status.value.removeInfo == Some(s.validation);
    OneOsdInput(s.validation, p, o);
    FirstPass(s.validation, p, o, t3.history.trace, t3.history.passes, s.input.env);
    var t4 := Advance(t3, s);
    var o' := o.(remove := Some(FailedResult()));
    assert t4.status.value.phase == Processing && OneOsd(t4.status.value.removeInfo.value, p, o');
    OneOsdInput(t4.status.value.removeInfo.value, p, o');
    SecondPass(t4.status.value.removeInfo.value, p, o', t4.history.trace, t4.history.passes, s.input.env);
    var t5 := Advance(t4, s);
    stages := [t0, t1, t2, t3, t4, t5];
  }

  /** The situation in which the removal fails: every answer is the one of a cluster that does not respond. */
  ghost function Silent(p: Pair, o: Osd): (s: Situation)
    requires o.remove.None?
    ensures OneOsd(s.validation, p, o) && Fresh(s.validation) && s.input.env.osd(p).state.None?
    ensures s.input.order == [p] && s.input.hostOrder == [p.host]
    ensures s.deploymentOnHold.None? && s.healthGeneration == s.generation && s.operatorStopped
  {
    var silence := Answers(None, false, false, None, None, false, false, false, false, None, false, 0);
    var info := RemoveInfo(map[p.host := Host(false, false, false, false, None)], map[p := o], {}, []);
    Situation(1, None, 1, info, true, Input(Env((q: Pair) => silence, (h: string) => false, 0), [p], [p.host]))
  }

  /** The newer task, listed first, goes into validation. */
  lemma {:induction false} NewerValidates(a: Task, failed: Task, s: Situation)
    requires a.status.None? && a.history == NO_HISTORY && failed.created < a.created && Fresh(s.validation)
    requires failed.status.Some? && failed.status.value.phase == Failed
    ensures var a1 := a.(status := Some(InitStatus(a)));
      && MoveFits([failed], Created(0, a)) && After([failed], Created(0, a)) == [a, failed]
      && MoveFits([a, failed], Reconciled(0, Found(s), true)) && After([a, failed], Reconciled(0, Found(s), true)) == [a1, failed]
      && MoveFits([a1, failed], Reconciled(0, Found(s), true)) && After([a1, failed], Reconciled(0, Found(s), true)) == [Advance(a1, s), failed]
      && InPhase(Advance(a1, s), Validating)
  {
    var a1 := a.(status := Some(InitStatus(a)));
    assert [failed][..0] + [a] + [failed][0..] == [a, failed];
    assert IsOldest([a1, failed], 0);
    assert [a, failed][0 := a1] == [a1, failed];
    assert [a1, failed][0 := Advance(a1, s)] == [Advance(a1, s), failed];
  }

  /** The moves: the older task is created and worked on until it fails, then the newer one is created and worked on. */
  function Script(a: Task, b: Task, s: Situation): seq<Move> {
    var work := Reconciled(0, Found(s), true);
    [Created(0, b), work, work, work, work, work, work, Created(0, a), work, work]
  }

  lemma {:induction false} BothTasks(a: Task, b: Task, s: Situation, stages: seq<Task>) returns (states: seq<Tasks>)
    requires a.status.None? && a.history == NO_HISTORY && b.status.None? && b.history == NO_HISTORY && b.created < a.created
    requires Fresh(s.validation) && |stages| == 6 && stages[0] == b.(status := Some(InitStatus(b)))
    requires forall k :: 0 <= k < 5 ==> stages[k].status.Some? && Active(stages[k]) && InputFits(stages[k], s) && stages[k + 1] == Advance(stages[k], s)
    requires Unresolved(stages[5]) && stages[5].created == b.created
    ensures IsHistory(states, Script(a, b, s))
    ensures |states[10]| == 2 && InPhase(states[10][0], Validating) && Unresolved(states[10][1])
  {
    hide Advance, After, MoveFits, Unresolved;
    var last := stages[5];
    assert last.status.Some? && last.status.value.phase == Failed by { UnresolvedFailed(last); }
    var a1 := a.(status := Some(InitStatus(a)));
    NewerValidates(a, last, s);
    states := [[], [b], [stages[0]], [stages[1]], [stages[2]], [stages[3]], [stages[4]], [last], [a, last], [a1, last], [Advance(a1, s), last]];
    FirstMoves(b, s);
    forall k | 0 <= k < 5 ensures MoveFits([stages[k]], Reconciled(0, Found(s), true)) && After([stages[k]], Reconciled(0, Found(s), true)) == [stages[k + 1]] {
      SoloStep(stages[k], s);
    }
    var moves := Script(a, b, s);
    forall k | 0 <= k < |moves| ensures MoveFits(states[k], moves[k]) && states[k + 1] == After(states[k], moves[k]) {
      if 2 <= k < 7 { assert states[k] == [stages[k - 2]] && states[k + 1] == [stages[k - 2 + 1]]; }
    }
  }

  lemma {:induction false} UnresolvedFailed(t: Task)
    requires Unresolved(t)
    ensures t.status.Some? && t.status.value.phase == Failed
  {
  }

  lemma {:induction false} FirstMoves(b: Task, s: Situation)
    requires b.status.None? && b.history == NO_HISTORY && Fresh(s.validation)
    ensures MoveFits([], Created(0, b)) && After([], Created(0, b)) == [b]
    ensures MoveFits([b], Reconciled(0, Found(s), true)) && After([b], Reconciled(0, Found(s), true)) == [b.(status := Some(InitStatus(b)))]
  {
    assert [][..0] + [b] + [][0..] == [b];
  }

  /** A history that ends in a list whose unresolved failure does not hold the deployment. */
  lemma {:induction false} UnresolvedNotHeld()
    ensures exists states: seq<Tasks>, moves: seq<Move>, f: LcmFindings ::
      && IsHistory(states, moves) && !HoldFound(states[|moves|], f)
      && exists i :: 0 <= i < |states[|moves|]| && Unresolved(states[|moves|][i])
  {
    var p, o := Pair("h", "1"), Osd(true, map[], false, None);
    var s := Silent(p, o);
    var b := Task("b", 0, Some(Spec(None, true, false)), None, NO_HISTORY);
    var a := Task("a", 1, None, None, NO_HISTORY);
    assert !IsStray(p) by { assert |p.osd| == 1 && |STRAY_MARKER| == 7 && |p.host| == 1; }
    var stages := TaskFails(b, s, p, o);
    StagesCreated(b, s, stages);
    var states := BothTasks(a, b, s, stages);
    var f := LcmFindings(false, true, false, Some(false), Some(false));
    var tasks := states[10];
    hide IsHistory, Unresolved;
    NotHeld(tasks, f);
    assert Unresolved(tasks[1]);
    assert |Script(a, b, s)| == 10;
  }

  lemma {:induction false} StagesCreated(b: Task, s: Situation, stages: seq<Task>)
    requires |stages| == 6 && stages[0] == b.(status := Some(InitStatus(b)))
    requires forall k :: 0 <= k < 5 ==> stages[k].status.Some? && InputFits(stages[k], s) && stages[k + 1] == Advance(stages[k], s)
    ensures stages[5].created == b.created
  {
    hide HandleTask, InputFits;
    forall k | 0 <= k < 5 ensures stages[k + 1].created == stages[k].created { assert stages[k + 1] == Advance(stages[k], s); }
    assert stages[0 + 1].created == stages[1 + 1].created == stages[2 + 1].created == stages[3 + 1].created == stages[4 + 1].created;
    assert stages[0 + 1].created == b.created;
  }

  lemma {:induction false} NotHeld(tasks: Tasks, f: LcmFindings)
    requires |tasks| == 2 && InPhase(tasks[0], Validating) && Unresolved(tasks[1]) && !f.onHoldNow && f.aligned != Some(true)
    ensures !HoldFound(tasks, f)
  {
    assert ValidatingFirst(tasks);
    UnresolvedHeldExactly(tasks, 1, f);
  }
}
