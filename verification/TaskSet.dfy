/**
 * All removal tasks of a namespace: which one is worked on
 * (pkg/controller/osdremove-task/controller.go), and what the two other controllers that read the
 * list make of it (pkg/controller/deployment/controller.go, pkg/controller/infra/operator.go).
 */
module TaskSet {
  import opened Wrappers
  import opened RemovalPlan
  import opened Executor
  import opened ExecutorInvariants
  import opened ExecutorCompletion
  import opened TaskMachine

  type Tasks = seq<Task>

  /** The first of the oldest active tasks, in list order. */
  predicate IsOldest(tasks: Tasks, i: nat) {
    && i < |tasks| && Active(tasks[i])
    && (forall j :: 0 <= j < |tasks| && Active(tasks[j]) ==> tasks[i].created <= tasks[j].created)
    && (forall j :: 0 <= j < i && Active(tasks[j]) ==> tasks[i].created < tasks[j].created)
  }

  method GetOldestTask(tasks: Tasks) returns (oldest: Option<nat>)
    ensures oldest.Some? ==> IsOldest(tasks, oldest.value)
    ensures oldest.None? ==> forall j :: 0 <= j < |tasks| ==> !Active(tasks[j])
  {
    oldest := None;
    for k := 0 to |tasks|
      invariant oldest.None? ==> forall j :: 0 <= j < k ==> !Active(tasks[j])
      invariant oldest.Some? ==> oldest.value < k && IsOldest(tasks[..k], oldest.value)
    {
      if !Active(tasks[k]) { continue; }
      if oldest.None? || tasks[k].created < tasks[oldest.value].created {
        oldest := Some(k);
      }
    }
    assert tasks[..|tasks|] == tasks;
  }

  /** At most one task is the oldest, so the method computes it. */
  lemma {:induction false} OldestUnique(tasks: Tasks, i: nat, j: nat)
    requires IsOldest(tasks, i) && IsOldest(tasks, j)
    ensures i == j
  {
    assert Active(tasks[i]) && Active(tasks[j]);
  }

  predicate InPhase(t: Task, phase: Phase) {
    t.status.Some? && t.status.value.phase == phase
  }

  // ------------------------------------------------------------------ reconcile

  /** What a reconcile of one task finds before the task itself is handled. */
  datatype Findings =
    | ApiFailed
    | NoHealthObject
    | ManyHealthObjects
    | ExternalCluster
    | NotReady
    | Found(situation: Situation)

  ghost predicate FindingsFit(t: Task, f: Findings) {
    f.Found? ==> InputFits(t, f.situation) && Fresh(f.situation.validation)
  }

  /** One reconcile of task `i`; `written` says whether the status update reached the API server. */
  ghost function Reconcile(tasks: Tasks, i: nat, f: Findings, written: bool): Tasks
    requires i < |tasks| && FindingsFit(tasks[i], f)
  {
    var t := tasks[i];
    if f.ApiFailed? || !written then tasks
    else if t.status.None? then tasks[i := t.(status := Some(InitStatus(t)))]
    else match f
      case NoHealthObject => tasks[..i] + tasks[i + 1..]
      case ManyHealthObjects => if Active(t) then tasks[i := t.(status := Some(AbortStatus(t.status.value)))] else tasks
      case ExternalCluster => tasks[i := t.(status := Some(AbortStatus(t.status.value)))]
      case Found(s) => if IsOldest(tasks, i) then tasks[i := Advance(t, s)] else tasks
      case _ => tasks
  }

  /** Everything that can happen to the list, one thing at a time. */
  datatype Move =
    | Reconciled(i: nat, findings: Findings, written: bool)
    | Created(at: nat, task: Task)
    | Deleted(i: nat)
    | SpecEdited(i: nat, spec: Option<Spec>)

  ghost predicate MoveFits(tasks: Tasks, m: Move) {
    match m
    case Reconciled(i, f, _) => i < |tasks| && FindingsFit(tasks[i], f)
    case Created(at, t) =>
      && at <= |tasks| && t.status.None? && t.history == NO_HISTORY
      && forall j :: 0 <= j < |tasks| ==> tasks[j].created < t.created
    case Deleted(i) => i < |tasks|
    case SpecEdited(i, _) => i < |tasks|
  }

  ghost function After(tasks: Tasks, m: Move): Tasks
    requires MoveFits(tasks, m)
  {
    match m
    case Reconciled(i, f, written) => Reconcile(tasks, i, f, written)
    case Created(at, t) => tasks[..at] + [t] + tasks[at..]
    case Deleted(i) => tasks[..i] + tasks[i + 1..]
    case SpecEdited(i, spec) => tasks[i := tasks[i].(spec := spec)]
  }

  ghost predicate IsHistory(states: seq<Tasks>, moves: seq<Move>) {
    && |states| == |moves| + 1 && states[0] == []
    && forall k :: 0 <= k < |moves| ==> MoveFits(states[k], moves[k]) && states[k + 1] == After(states[k], moves[k])
  }

  // ------------------------------------------------------------------ exclusion

  /** Being worked on: active and past the pending phase. */
  predicate Begun(t: Task) {
    Active(t) && t.status.Some? && t.status.value.phase != Pending
  }

  /** A task that has begun is strictly older than every other active task. */
  ghost predicate Exclusive(tasks: Tasks) {
    forall i, j :: 0 <= i < |tasks| && 0 <= j < |tasks| && i != j && Begun(tasks[i]) && Active(tasks[j]) ==>
      tasks[i].created < tasks[j].created
  }

  /** Two tasks are never created in the same instant. */
  ghost predicate Distinct(tasks: Tasks) {
    forall i, j :: 0 <= i < j < |tasks| ==> tasks[i].created != tasks[j].created
  }

  ghost predicate SetInv(tasks: Tasks) {
    && Exclusive(tasks) && Distinct(tasks)
    && forall i :: 0 <= i < |tasks| ==> TaskInv(tasks[i])
  }

  lemma {:induction false} ReplaceKeeps(tasks: Tasks, i: nat, t': Task)
    requires SetInv(tasks) && i < |tasks| && TaskInv(t') && t'.created == tasks[i].created
    requires Active(t') ==> Active(tasks[i])
    requires Begun(t') ==> Begun(tasks[i]) || IsOldest(tasks, i)
    ensures SetInv(tasks[i := t'])
  {
    hide TaskInv;
    var tasks' := tasks[i := t'];
    forall a, b | 0 <= a < |tasks'| && 0 <= b < |tasks'| && a != b && Begun(tasks'[a]) && Active(tasks'[b])
      ensures tasks'[a].created < tasks'[b].created
    {
      assert Active(tasks[b]);
      if a == i && !Begun(tasks[a]) {
        assert tasks[a].created <= tasks[b].created;
      }
    }
  }

  lemma {:induction false} RemoveKeeps(tasks: Tasks, i: nat)
    requires SetInv(tasks) && i < |tasks|
    ensures SetInv(tasks[..i] + tasks[i + 1..])
  {
    hide TaskInv;
    var tasks' := tasks[..i] + tasks[i + 1..];
    assert forall k :: 0 <= k < |tasks'| ==> tasks'[k] == tasks[if k < i then k else k + 1];
  }

  lemma {:induction false} InsertKeeps(tasks: Tasks, at: nat, t: Task)
    requires SetInv(tasks) && MoveFits(tasks, Created(at, t))
    ensures SetInv(tasks[..at] + [t] + tasks[at..])
  {
    assert TaskInv(t) && !Begun(t);
    hide TaskInv, Begun, Active;
    var tasks' := tasks[..at] + [t] + tasks[at..];
    assert forall k :: 0 <= k < |tasks'| ==> tasks'[k] == if k < at then tasks[k] else if k == at then t else tasks[k - 1];
  }

  /**
   * A reconcile touches one task. It deletes the task exactly without a health object; it aborts it with many of
   * them if it is active, and for an external cluster; it works on it exactly if no active task is older or, as old, listed before.
   */
  lemma {:induction false} ReconcileOutcome(tasks: Tasks, i: nat, f: Findings)
    requires i < |tasks| && FindingsFit(tasks[i], f)
    ensures Reconcile(tasks, i, f, false) == tasks
    ensures var t, tasks' := tasks[i], Reconcile(tasks, i, f, true);
      && (f.NoHealthObject? && t.status.Some? ==> tasks' == tasks[..i] + tasks[i + 1..])
      && (!(f.NoHealthObject? && t.status.Some?) ==> |tasks'| == |tasks| && forall j :: 0 <= j < |tasks| && j != i ==> tasks'[j] == tasks[j])
      && (f.ApiFailed? ==> tasks' == tasks)
      && (!f.ApiFailed? && t.status.None? ==> InPhase(tasks'[i], Pending))
      && (t.status.Some? ==>
            && (f.NotReady? ==> tasks' == tasks)
            && (f.ExternalCluster? ==> InPhase(tasks'[i], Aborted))
            && (f.ManyHealthObjects? ==> if Terminal(t.status.value.phase) then tasks' == tasks else InPhase(tasks'[i], Aborted))
            && (f.Found? ==>
                  if exists j :: 0 <= j < |tasks| && j != i && Active(tasks[j]) && (tasks[j].created < t.created || (tasks[j].created == t.created && j < i))
                  then tasks' == tasks
                  else if Active(t) then tasks'[i] == Advance(t, f.situation) else tasks' == tasks))
  {
    hide HandleTask, Advance;
    if f.Found? && tasks[i].status.Some? && Active(tasks[i]) {
      assert IsOldest(tasks, i) <==>
        !exists j :: 0 <= j < |tasks| && j != i && Active(tasks[j]) && (tasks[j].created < tasks[i].created || (tasks[j].created == tasks[i].created && j < i));
    }
  }

  lemma {:induction false} ActiveBefore(t: Task, s: Situation)
    requires t.status.Some? && InputFits(t, s) && Active(Advance(t, s))
    ensures Active(t)
  {
    hide Pass;
  }

  lemma {:induction false} ReconcileKeeps(tasks: Tasks, i: nat, f: Findings, written: bool)
    requires SetInv(tasks) && i < |tasks| && FindingsFit(tasks[i], f)
    ensures SetInv(Reconcile(tasks, i, f, written))
  {
    hide TaskInv, HandleTask, IsOldest;
    var t := tasks[i];
    if f.ApiFailed? || !written {
    } else if t.status.None? {
      InitInv(t);
      ReplaceKeeps(tasks, i, t.(status := Some(InitStatus(t))));
    } else {
      AbortInv(t);
      match f
      case NoHealthObject => RemoveKeeps(tasks, i);
      case ManyHealthObjects => if Active(t) { ReplaceKeeps(tasks, i, t.(status := Some(AbortStatus(t.status.value)))); }
      case ExternalCluster => ReplaceKeeps(tasks, i, t.(status := Some(AbortStatus(t.status.value))));
      case Found(s) =>
        if IsOldest(tasks, i) {
          AdvanceInv(t, s);
          if Active(Advance(t, s)) { ActiveBefore(t, s); }
          ReplaceKeeps(tasks, i, Advance(t, s));
        }
      case _ =>
    }
  }

  lemma {:induction false} SpecEditKeeps(t: Task, spec: Option<Spec>)
    requires TaskInv(t)
    ensures TaskInv(t.(spec := spec))
  {
  }

  lemma {:induction false} MoveKeeps(tasks: Tasks, m: Move)
    requires SetInv(tasks) && MoveFits(tasks, m)
    ensures SetInv(After(tasks, m))
  {
    hide TaskInv, Reconcile;
    match m
    case Reconciled(i, f, written) => ReconcileKeeps(tasks, i, f, written);
    case Created(at, t) => InsertKeeps(tasks, at, t);
    case Deleted(i) => RemoveKeeps(tasks, i);
    case SpecEdited(i, spec) =>
      SpecEditKeeps(tasks[i], spec);
      ReplaceKeeps(tasks, i, tasks[i].(spec := spec));
  }

  lemma {:induction false} HistoryKeeps(states: seq<Tasks>, moves: seq<Move>, k: nat)
    requires IsHistory(states, moves) && k < |states|
    ensures SetInv(states[k])
  {
    hide TaskInv, After, MoveFits;
    if k > 0 {
      HistoryKeeps(states, moves, k - 1);
      assert states[k - 1 + 1] == After(states[k - 1], moves[k - 1]);
      MoveKeeps(states[k - 1], moves[k - 1]);
    }
  }

  /** At every moment at most one task has begun, and it is the one that is worked on next. */
  lemma {:induction false} OneTaskAtATime(states: seq<Tasks>, moves: seq<Move>, k: nat, i: nat)
    requires IsHistory(states, moves) && k < |states| && i < |states[k]| && Begun(states[k][i])
    ensures IsOldest(states[k], i)
    ensures forall j :: 0 <= j < |states[k]| && Begun(states[k][j]) ==> j == i
  {
    hide TaskInv, After, MoveFits;
    HistoryKeeps(states, moves, k);
  }

  /** Histories are append-only: no reconcile rewrites or drops a condition of a task that stays. */
  lemma {:induction false} ConditionsAppendOnly(tasks: Tasks, i: nat, f: Findings, written: bool, j: nat)
    requires SetInv(tasks) && i < |tasks| && FindingsFit(tasks[i], f) && !f.NoHealthObject?
    requires j < |tasks| && tasks[j].status.Some?
    ensures var tasks' := Reconcile(tasks, i, f, written);
      && |tasks'| == |tasks| && tasks'[j].name == tasks[j].name && tasks'[j].status.Some?
      && tasks[j].status.value.conditions <= tasks'[j].status.value.conditions
  {
    hide TaskInv, HandleTask, IsOldest, Exclusive, Distinct;
    if f.Found? && tasks[i].status.Some? {
      AdvanceInv(tasks[i], f.situation);
    }
  }

  /** A task that completed after processing has everything it was approved for done. */
  lemma {:induction false} CompletedMeansComplete(states: seq<Tasks>, moves: seq<Move>, k: nat, i: nat)
    requires IsHistory(states, moves) && k < |states| && i < |states[k]| && states[k][i].status.Some?
    requires states[k][i].status.value.phase in {Completed, CompletedWithWarnings}
    requires EndsAfter(states[k][i].status.value.conditions, Processing)
    ensures states[k][i].status.value.removeInfo.Some? && Complete(states[k][i].status.value.removeInfo.value)
  {
    hide After, MoveFits, Exclusive, Distinct, Complete, InProcess, Approvable, LegalHistory;
    HistoryKeeps(states, moves, k);
    assert TaskInv(states[k][i]);
  }

  predicate Rebalances(t: Task, p: Pair) {
    && t.status.Some? && t.status.value.removeInfo.Some? && p in t.status.value.removeInfo.value.osds
    && PhaseIs(t.status.value.removeInfo.value.osds[p], RemoveWaitingRebalance)
  }

  lemma {:induction false} RebalanceMeansProcessing(t: Task, p: Pair)
    requires TaskInv(t) && Active(t) && Rebalances(t, p)
    ensures t.status.Some? && t.status.value.phase == Processing
  {
  }

  lemma {:induction false} OneRebalanceInTask(t: Task, p: Pair, q: Pair)
    requires TaskInv(t) && t.status.Some? && t.status.value.phase == Processing && Rebalances(t, p) && Rebalances(t, q)
    ensures p == q
  {
    hide Of, Local, ZapSafe, OneJobPerHost;
  }

  /** Over all active tasks at most one OSD is being drained. */
  lemma {:induction false} OneOsdDrains(states: seq<Tasks>, moves: seq<Move>, k: nat, i: nat, j: nat, p: Pair, q: Pair)
    requires IsHistory(states, moves) && k < |states| && i < |states[k]| && j < |states[k]|
    requires Active(states[k][i]) && Rebalances(states[k][i], p) && Active(states[k][j]) && Rebalances(states[k][j], q)
    ensures i == j && p == q
  {
    hide TaskInv, After, MoveFits, Rebalances, Exclusive, Distinct;
    HistoryKeeps(states, moves, k);
    RebalanceMeansProcessing(states[k][i], p);
    RebalanceMeansProcessing(states[k][j], q);
    OneTaskAtATime(states, moves, k, i);
    OneRebalanceInTask(states[k][i], p, q);
  }

  // ---------------------------------------------------- why creation times matter

  /** The task worked on stays the same when one is created, exactly if the new one does not sort before it. */
  lemma {:induction false} CreationKeepsChoice(tasks: Tasks, i: nat, at: nat, t: Task)
    requires IsOldest(tasks, i) && at <= |tasks| && Active(t)
    ensures IsOldest(tasks[..at] + [t] + tasks[at..], if i < at then i else i + 1) <==>
            (tasks[i].created < t.created || (tasks[i].created == t.created && i < at))
  {
    var tasks' := tasks[..at] + [t] + tasks[at..];
    var i' := if i < at then i else i + 1;
    assert forall k :: 0 <= k < |tasks'| ==> tasks'[k] == if k < at then tasks[k] else if k == at then t else tasks[k - 1];
    assert tasks'[at] == t && tasks'[i'] == tasks[i];
  }

  // ------------------------------------------------ the deployment controller

  datatype LcmState = LcmError | LcmOnHold | LcmMaintenance | LcmReady

  /** What the check finds besides the task list; None is a call that failed. */
  datatype LcmFindings = LcmFindings(external: bool, listed: bool, onHoldNow: bool, aligned: Option<bool>, maintenance: Option<bool>)

  /** A processing failure that nobody has resolved yet. */
  predicate Unresolved(t: Task) {
    InPhase(t, Failed) && EndsAfter(t.status.value.conditions, Processing) && !(t.spec.Some? && t.spec.value.resolved)
  }

  predicate Holds(t: Task) {
    InPhase(t, WaitingOperator) || InPhase(t, ApproveWaiting) || InPhase(t, Processing) || Unresolved(t)
  }

  /** The first task that ends the scan of the list. */
  predicate Decides(tasks: Tasks, i: nat) {
    && i < |tasks| && (Holds(tasks[i]) || InPhase(tasks[i], Validating))
    && forall j :: 0 <= j < i ==> !Holds(tasks[j]) && !InPhase(tasks[j], Validating)
  }

  predicate HoldFound(tasks: Tasks, f: LcmFindings) {
    exists i :: 0 <= i < |tasks| && Decides(tasks, i) && (Holds(tasks[i]) || f.onHoldNow || f.aligned == Some(true))
  }

  predicate AlignmentFails(tasks: Tasks, f: LcmFindings) {
    exists i :: 0 <= i < |tasks| && Decides(tasks, i) && InPhase(tasks[i], Validating) && !f.onHoldNow && f.aligned.None?
  }

  method CheckLcmState(tasks: Tasks, f: LcmFindings) returns (r: LcmState)
    ensures r == LcmOnHold <==> !f.external && f.listed && HoldFound(tasks, f)
    ensures r == LcmError <==>
      || (!f.external && (!f.listed || AlignmentFails(tasks, f)))
      || (f.maintenance.None? && r != LcmOnHold)
    ensures r == LcmMaintenance ==> f.maintenance == Some(true)
    ensures r == LcmReady ==> f.maintenance == Some(false)
  {
    if !f.external {
      if !f.listed { return LcmError; }
      var k := 0;
      while k < |tasks|
        invariant 0 <= k <= |tasks|
        invariant forall j :: 0 <= j < k ==> !Holds(tasks[j]) && !InPhase(tasks[j], Validating)
      {
        var t := tasks[k];
        if t.status.Some? {
          var s := t.status.value;
          if s.phase == Validating {
            assert Decides(tasks, k);
            if !f.onHoldNow {
              if f.aligned.None? { return LcmError; }
              if !f.aligned.value { break; }
            }
            return LcmOnHold;
          } else if s.phase == WaitingOperator || s.phase == ApproveWaiting || s.phase == Processing {
            assert Decides(tasks, k);
            return LcmOnHold;
          } else if s.phase == Failed && |s.conditions| > 1 && s.conditions[|s.conditions| - 2].phase == Processing {
            if !(t.spec.Some? && t.spec.value.resolved) {
              assert Decides(tasks, k);
              return LcmOnHold;
            }
          }
        }
        k := k + 1;
      }
    }
    if f.maintenance.None? { return LcmError; }
    return if f.maintenance.value then LcmMaintenance else LcmReady;
  }

  /**
   * In every reachable list, while a task waits for approval or the operator or is in processing,
   * the deployment controller is on hold: no task can be in validation at the same time, so the
   * scan is not left early.
   */
  lemma {:induction false} DeploymentHeld(states: seq<Tasks>, moves: seq<Move>, k: nat, i: nat, f: LcmFindings)
    requires IsHistory(states, moves) && k < |states| && i < |states[k]|
    requires InPhase(states[k][i], ApproveWaiting) || InPhase(states[k][i], WaitingOperator) || InPhase(states[k][i], Processing)
    ensures HoldFound(states[k], f)
  {
    hide TaskInv, After, MoveFits, IsOldest, IsHistory;
    var tasks := states[k];
    OneTaskAtATime(states, moves, k, i);
    var j := FirstDecision(tasks, i);
    assert Holds(tasks[j]);
  }

  lemma {:induction false} FirstDecision(tasks: Tasks, i: nat) returns (j: nat)
    requires i < |tasks| && (Holds(tasks[i]) || InPhase(tasks[i], Validating))
    ensures j <= i && Decides(tasks, j)
  {
    if k :| 0 <= k < i && (Holds(tasks[k]) || InPhase(tasks[k], Validating)) {
      j := FirstDecision(tasks, k);
    } else {
      j := i;
    }
  }

  /** A task in validation is listed before every task that holds. */
  predicate ValidatingFirst(tasks: Tasks) {
    exists v :: 0 <= v < |tasks| && InPhase(tasks[v], Validating) && forall j :: 0 <= j < |tasks| && Holds(tasks[j]) ==> v < j
  }

  /** The scan by list positions: a task in validation that comes first decides alone, or else any task that holds. */
  lemma {:induction false} HeldExactly(tasks: Tasks, f: LcmFindings)
    ensures HoldFound(tasks, f) <==>
      if ValidatingFirst(tasks) then f.onHoldNow || f.aligned == Some(true) else exists j :: 0 <= j < |tasks| && Holds(tasks[j])
  {
    if i :| 0 <= i < |tasks| && (Holds(tasks[i]) || InPhase(tasks[i], Validating)) {
      var j := FirstDecision(tasks, i);
      assert forall x :: 0 <= x < |tasks| && Decides(tasks, x) ==> x == j;
      assert !Holds(tasks[j]) <==> ValidatingFirst(tasks);
    }
  }

  /**
   * A failed, unresolved task holds the deployment unless a task in validation is listed before
   * every holding one while the deployment is neither on hold nor aligned.
   */
  lemma {:induction false} UnresolvedHeldExactly(tasks: Tasks, i: nat, f: LcmFindings)
    requires i < |tasks| && Unresolved(tasks[i])
    ensures HoldFound(tasks, f) <==> !(ValidatingFirst(tasks) && !f.onHoldNow && f.aligned != Some(true))
  {
    HeldExactly(tasks, f);
    assert Holds(tasks[i]);
  }

  // ------------------------------------------------------- the infra controller

  /** The operator has to stay down: a removal is about to run, runs, or failed and is not resolved. */
  predicate NeedsOperatorDown(t: Task) {
    || InPhase(t, WaitingOperator) || InPhase(t, Processing)
    || (InPhase(t, Failed) && !(t.spec.Some? && t.spec.value.resolved))
  }

  method DesiredReplicas(tasks: Tasks, maintenance: bool, external: bool) returns (replicas: int)
    ensures replicas == 0 || replicas == 1
    ensures replicas == 0 <==> maintenance || (!external && exists i :: 0 <= i < |tasks| && NeedsOperatorDown(tasks[i]))
  {
    replicas := 1;
    if maintenance {
      replicas := 0;
    } else if !external {
      var downScale := false;
      for k := 0 to |tasks|
        invariant downScale <==> exists i :: 0 <= i < k && NeedsOperatorDown(tasks[i])
      {
        if tasks[k].status.Some? {
          var phase := tasks[k].status.value.phase;
          if phase == WaitingOperator || phase == Processing {
            downScale := true;
            break;
          }
          if phase == Failed && (tasks[k].spec.None? || !tasks[k].spec.value.resolved) {
            downScale := true;
            break;
          }
        }
      }
      if downScale {
        replicas := 0;
      }
    }
  }
}
