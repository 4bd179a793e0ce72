/**
 * The phase machine of one CephOsdRemoveTask (pkg/controller/osdremove-task/processer.go and
 * phase.go), with the pass of the executor as its processing step.
 */
module TaskMachine {
  import opened Wrappers
  import opened RemovalPlan
  import opened Executor
  import opened ExecutorInvariants
  import opened ExecutorPass
  import opened ExecutorRuns
  import opened ExecutorCompletion

  datatype Phase =
    | Pending
    | Validating
    | ApproveWaiting
    | WaitingOperator
    | Processing
    | Completed
    | CompletedWithWarnings
    | Failed
    | ValidationFailed
    | Aborted

  /** The nodes section of a task; None is an absent map, which differs from an empty one. */
  type Nodes = Option<map<string, string>>

  datatype Spec = Spec(nodes: Nodes, approve: bool, resolved: bool)

  datatype Condition = Condition(phase: Phase, nodes: Nodes, generation: Option<int>)

  datatype Status = Status(phase: Phase, removeInfo: Option<RemoveInfo>, conditions: seq<Condition>)

  /** `history` is not stored by the controller: it names what happened for the properties below. */
  datatype Task = Task(name: string, created: int, spec: Option<Spec>, status: Option<Status>, history: History)

  /** The last validation result and the commands of the processing passes. */
  datatype History = History(validated: Option<RemoveInfo>, trace: Trace, passes: nat)

  const NO_HISTORY := History(None, [], 0)

  /** What a reconcile of the task finds: the cluster, validation, the operator, and the pass inputs. */
  datatype Situation = Situation(
    generation: int,
    deploymentOnHold: Option<bool>,
    healthGeneration: int,
    validation: RemoveInfo,
    operatorStopped: bool,
    input: Input)

  predicate Terminal(phase: Phase) {
    phase in {Completed, CompletedWithWarnings, Failed, ValidationFailed, Aborted}
  }

  predicate Active(t: Task) {
    t.status.None? || !Terminal(t.status.value.phase)
  }

  predicate Approved(t: Task) {
    t.spec.Some? && t.spec.value.approve
  }

  function CurrentNodes(t: Task): Nodes {
    if t.spec.Some? then t.spec.value.nodes else None
  }

  function InitStatus(t: Task): Status {
    var nodes := CurrentNodes(t);
    Status(Pending, None, [Condition(Pending, if nodes.Some? && nodes.value != map[] then nodes else None, None)])
  }

  function AbortStatus(s: Status): Status {
    s.(phase := Aborted, conditions := s.conditions + [Condition(Aborted, None, None)])
  }

  function MoveTaskPhase(t: Task, s: Situation, phase: Phase, info: Option<RemoveInfo>): Status
    requires t.status.Some?
  {
    Status(phase, info, t.status.value.conditions + [Condition(phase, CurrentNodes(t), Some(s.generation))])
  }

  /** The cluster generation or the nodes differ from the ones of the last condition. */
  predicate SpecChanged(t: Task, s: Situation)
    requires t.status.Some? && t.status.value.conditions != []
  {
    var last := t.status.value.conditions[|t.status.value.conditions| - 1];
    last.generation != Some(s.generation) || last.nodes != CurrentNodes(t)
  }

  /** Validation runs only while the deployment is on hold and the health report is up to date. */
  predicate ValidationReady(s: Situation) {
    (s.deploymentOnHold.Some? ==> s.deploymentOnHold.value) && s.healthGeneration == s.generation
  }

  ghost predicate InputFits(t: Task, s: Situation) {
    t.status.Some? && t.status.value.phase == Processing && t.status.value.removeInfo.Some? ==>
      ValidInput(t.status.value.removeInfo.value, s.input.order, s.input.hostOrder)
  }

  function ValidationOutcome(t: Task, s: Situation): Status
    requires t.status.Some?
  {
    var v := s.validation;
    if v.issues != {} then MoveTaskPhase(t, s, ValidationFailed, Some(v))
    else if v.hosts == map[] then MoveTaskPhase(t, s, Completed, Some(v))
    else MoveTaskPhase(t, s, if Approved(t) then WaitingOperator else ApproveWaiting, Some(v))
  }

  function PassOf(t: Task, s: Situation): PassResult
    requires t.status.Some? && t.status.value.removeInfo.Some?
    requires ValidInput(t.status.value.removeInfo.value, s.input.order, s.input.hostOrder)
  {
    Pass(t.status.value.removeInfo.value, t.history.trace, t.history.passes, s.input.env, s.input.order, s.input.hostOrder)
  }

  function ProcessingOutcome(t: Task, s: Situation): Status
    requires t.status.Some? && t.status.value.phase == Processing && InputFits(t, s)
  {
    if t.status.value.removeInfo.None?
    then MoveTaskPhase(t, s, Failed, Some(RemoveInfo(map[], map[], {EmptyRemoveInfo}, [])))
    else
      var r := PassOf(t, s);
      if !r.finished then t.status.value.(removeInfo := Some(r.info))
      else if r.info.issues != {} then MoveTaskPhase(t, s, Failed, Some(r.info))
      else MoveTaskPhase(t, s, if r.info.warnings != [] then CompletedWithWarnings else Completed, Some(r.info))
  }

  /** The new status of the task that is being worked on. */
  function HandleTask(t: Task, s: Situation): Status
    requires t.status.Some? && InputFits(t, s)
  {
    var cur := t.status.value;
    if cur.conditions == [] then AbortStatus(cur)
    else match cur.phase
      case Pending => MoveTaskPhase(t, s, Validating, None)
      case Validating => if ValidationReady(s) then ValidationOutcome(t, s) else cur
      case ApproveWaiting =>
        if Approved(t) then MoveTaskPhase(t, s, WaitingOperator, cur.removeInfo)
        else if SpecChanged(t, s) then MoveTaskPhase(t, s, Validating, None)
        else cur
      case WaitingOperator =>
        if SpecChanged(t, s) then MoveTaskPhase(t, s, Aborted, None)
        else if s.operatorStopped then MoveTaskPhase(t, s, Processing, cur.removeInfo)
        else cur
      case Processing => ProcessingOutcome(t, s)
      case _ => cur
  }

  /** The task after its status was written, with the history brought forward. */
  function Advance(t: Task, s: Situation): Task
    requires t.status.Some? && InputFits(t, s)
  {
    var cur := t.status.value;
    var h := t.history;
    var h' :=
      if cur.conditions == [] then h
      else if cur.phase == Validating && ValidationReady(s) then History(Some(s.validation), [], 0)
      else if cur.phase == Processing && cur.removeInfo.Some? then h.(trace := PassOf(t, s).trace, passes := h.passes + 1)
      else h;
    t.(status := Some(HandleTask(t, s)), history := h')
  }

  // ------------------------------------------------------------------- history

  /** The transitions a history may show; processing keeps the nodes and generation it waited with. */
  predicate Legal(a: Condition, b: Condition) {
    || b.phase == Aborted
    || match a.phase
       case Pending => b.phase == Validating
       case Validating => b.phase in {Completed, ValidationFailed, ApproveWaiting, WaitingOperator}
       case ApproveWaiting => b.phase in {WaitingOperator, Validating}
       case WaitingOperator => b.phase == Processing && b.nodes == a.nodes && b.generation == a.generation
       case Processing => b.phase in {Completed, CompletedWithWarnings, Failed}
       case _ => false
  }

  ghost predicate LegalHistory(conditions: seq<Condition>) {
    forall i :: 0 <= i < |conditions| - 1 ==> Legal(conditions[i], conditions[i + 1])
  }

  /** The map that waits for approval or for the operator is the last validation result. */
  predicate Approvable(t: Task)
    requires t.status.Some?
  {
    && t.status.value.removeInfo.Some? && t.history.validated == t.status.value.removeInfo
    && t.status.value.removeInfo.value.issues == {} && t.status.value.removeInfo.value.hosts != map[]
    && Fresh(t.status.value.removeInfo.value)
    && t.history.trace == [] && t.history.passes == 0
  }

  /** The map in processing descends from the last validation result by passes of the executor. */
  ghost predicate InProcess(t: Task)
    requires t.status.Some?
  {
    && t.status.value.removeInfo.Some? && t.history.validated.Some?
    && t.history.validated.value.issues == {} && t.history.validated.value.hosts != map[]
    && Reachable(World(t.status.value.removeInfo.value, t.history.trace, t.history.passes))
    && AllAdvance(t.history.validated.value.osds, t.status.value.removeInfo.value.osds)
    && HostsAdvance(t.history.validated.value.hosts, t.status.value.removeInfo.value.hosts)
  }

  predicate EndsAfter(conditions: seq<Condition>, phase: Phase) {
    |conditions| >= 2 && conditions[|conditions| - 2].phase == phase
  }

  /** What holds of every task with a status. */
  ghost predicate TaskInv(t: Task) {
    t.status.Some? ==>
      var s := t.status.value;
      && s.conditions != [] && s.conditions[|s.conditions| - 1].phase == s.phase
      && s.conditions[0].phase == Pending && LegalHistory(s.conditions)
      && (s.phase == Pending || s.phase == Validating ==> s.removeInfo.None?)
      && (s.phase == ApproveWaiting || s.phase == WaitingOperator ==> Approvable(t))
      && (s.phase == Processing ==> InProcess(t))
      && ((s.phase == Completed || s.phase == CompletedWithWarnings) && EndsAfter(s.conditions, Processing) ==>
            s.removeInfo.Some? && s.removeInfo.value.issues == {} && Complete(s.removeInfo.value))
  }

  lemma {:induction false} InitInv(t: Task)
    requires t.status.None?
    ensures TaskInv(t.(status := Some(InitStatus(t))))
    ensures InitStatus(t).phase == Pending && InitStatus(t).removeInfo.None?
    ensures var cs := InitStatus(t).conditions;
      |cs| == 1 && cs[0].generation.None? && (cs[0].nodes.Some? ==> t.spec.Some? && cs[0].nodes == t.spec.value.nodes && cs[0].nodes.value != map[])
  {
  }

  lemma {:induction false} AbortInv(t: Task)
    requires t.status.Some? && TaskInv(t)
    ensures TaskInv(t.(status := Some(AbortStatus(t.status.value))))
    ensures var s := t.status.value;
      AbortStatus(s) == Status(Aborted, s.removeInfo, s.conditions + [Condition(Aborted, None, None)])
  {
    var cs := t.status.value.conditions;
    var cs' := AbortStatus(t.status.value).conditions;
    forall i | 0 <= i < |cs'| - 1 ensures Legal(cs'[i], cs'[i + 1]) {
      if i < |cs| - 1 { assert Legal(cs[i], cs[i + 1]); }
    }
  }

  lemma {:induction false} MoveKeepsHistory(t: Task, s: Situation, phase: Phase, info: Option<RemoveInfo>)
    requires t.status.Some? && TaskInv(t)
    requires Legal(t.status.value.conditions[|t.status.value.conditions| - 1], Condition(phase, CurrentNodes(t), Some(s.generation)))
    ensures var s' := MoveTaskPhase(t, s, phase, info);
      && LegalHistory(s'.conditions) && s'.conditions[|s'.conditions| - 1].phase == s'.phase
      && s'.conditions[0] == t.status.value.conditions[0] && t.status.value.conditions < s'.conditions
      && s'.conditions[|s'.conditions| - 2].phase == t.status.value.phase
  {
    hide Approvable, InProcess, Complete;
    var cs := t.status.value.conditions;
    var cs' := MoveTaskPhase(t, s, phase, info).conditions;
    forall i | 0 <= i < |cs'| - 1 ensures Legal(cs'[i], cs'[i + 1]) {
      if i < |cs| - 1 { assert Legal(cs[i], cs[i + 1]); }
    }
  }

  lemma {:induction false} StartProcessing(t: Task)
    requires t.status.Some? && Approvable(t)
    ensures InProcess(t)
  {
    hide Inv, Of;
    var info := t.status.value.removeInfo.value;
    StartReachable(World(info, [], 0));
    forall q | q in info.osds ensures Advances(info.osds[q], info.osds[q]) { AdvancesItself(info.osds[q]); }
  }

  /** A processing pass keeps the map a descendant of the validated one, and completes it if it says so. */
  lemma {:induction false} ProcessingInv(t: Task, s: Situation)
    requires t.status.Some? && t.status.value.phase == Processing && TaskInv(t) && InputFits(t, s)
    ensures TaskInv(Advance(t, s))
  {
    hide Reachable, Complete, Pass, AllAdvance, HostsAdvance, LegalHistory;
    var info := t.status.value.removeInfo.value;
    var w := World(info, t.history.trace, t.history.passes);
    var r := PassOf(t, s);
    var w' := World(r.info, r.trace, t.history.passes + 1);
    NextReachable(w, s.input, w');
    AdvanceTwice(t.history.validated.value.osds, info.osds, r.info.osds);
    HostsAdvanceTwice(t.history.validated.value.hosts, info.hosts, r.info.hosts);
    if r.finished {
      var phase := if r.info.issues != {} then Failed else if r.info.warnings != [] then CompletedWithWarnings else Completed;
      MoveKeepsHistory(t, s, phase, Some(r.info));
      if r.info.issues == {} {
        FinishedMeansComplete(w, s.input, w');
      }
    }
  }

  /** Every step of the phase machine keeps the invariant, whatever the cluster and the user do. */
  lemma {:induction false} AdvanceInv(t: Task, s: Situation)
    requires t.status.Some? && TaskInv(t) && InputFits(t, s) && Fresh(s.validation)
    ensures TaskInv(Advance(t, s))
    ensures t.status.value.conditions <= Advance(t, s).status.value.conditions
  {
    hide InProcess, Complete, LegalHistory;
    var cur := t.status.value;
    var t' := Advance(t, s);
    match cur.phase
    case Pending => MoveKeepsHistory(t, s, Validating, None);
    case Validating =>
      if ValidationReady(s) {
        MoveKeepsHistory(t, s, t'.status.value.phase, Some(s.validation));
      }
    case ApproveWaiting =>
      if Approved(t) {
        MoveKeepsHistory(t, s, WaitingOperator, cur.removeInfo);
      } else if SpecChanged(t, s) {
        MoveKeepsHistory(t, s, Validating, None);
      }
    case WaitingOperator =>
      if SpecChanged(t, s) {
        MoveKeepsHistory(t, s, Aborted, None);
      } else if s.operatorStopped {
        MoveKeepsHistory(t, s, Processing, cur.removeInfo);
        StartProcessing(t');
      }
    case Processing =>
      ProcessingInv(t, s);
    case _ =>
  }

  /** WaitingOperator is entered only with the approval, processing only with the operator stopped and nothing changed. */
  lemma {:induction false} GatesRespected(t: Task, s: Situation)
    requires t.status.Some? && TaskInv(t) && InputFits(t, s) && Fresh(s.validation)
    requires Advance(t, s).status.value.phase != t.status.value.phase
    ensures Advance(t, s).status.value.phase == WaitingOperator ==> Approved(t)
    ensures Advance(t, s).status.value.phase == Processing ==>
      && t.status.value.phase == WaitingOperator && s.operatorStopped && !SpecChanged(t, s)
      && Advance(t, s).status.value.removeInfo == t.history.validated && t.history.validated.Some?
    ensures Advance(t, s).status.value.phase == Failed ==> t.status.value.phase == Processing
  {
    hide InProcess, Complete, LegalHistory, Pass;
  }

  // ------------------------------------------------------------- every transition

  /** The phase changed, with one new condition that holds the nodes and the generation of the moment, or nothing did. */
  ghost predicate Moved(t: Task, s: Situation, phase: Phase, info: Option<RemoveInfo>)
    requires t.status.Some? && InputFits(t, s)
  {
    var nodes := if t.spec.Some? then t.spec.value.nodes else None;
    Advance(t, s).status == Some(Status(phase, info, t.status.value.conditions + [Condition(phase, nodes, Some(s.generation))]))
  }

  ghost predicate Stays(t: Task, s: Situation)
    requires t.status.Some? && InputFits(t, s)
  {
    Advance(t, s).status == t.status
  }

  /**
   * A pending task goes into validation. Validation is left exactly if no deployment is known to be off
   * hold and the health report is of the current generation; it fails exactly with issues, completes
   * exactly with nothing to do, and goes to the operator exactly if the task is approved, and else to approval.
   */
  lemma {:induction false} ValidationTransitions(t: Task, s: Situation)
    requires t.status.Some? && t.status.value.conditions != [] && InputFits(t, s)
    ensures t.status.value.phase == Pending ==> Moved(t, s, Validating, None)
    ensures t.status.value.phase == Validating ==>
      var v := s.validation;
      if s.deploymentOnHold == Some(false) || s.healthGeneration != s.generation then Stays(t, s)
      else if v.issues != {} then Moved(t, s, ValidationFailed, Some(v))
      else if v.hosts == map[] then Moved(t, s, Completed, Some(v))
      else if t.spec.Some? && t.spec.value.approve then Moved(t, s, WaitingOperator, Some(v))
      else Moved(t, s, ApproveWaiting, Some(v))
  {
    hide Pass;
  }

  /**
   * Approval is looked at first; without it a change of the generation or the nodes sends the task back to
   * validation. While it waits for the operator such a change aborts it, and it starts once the operator is stopped.
   */
  lemma {:induction false} WaitingTransitions(t: Task, s: Situation)
    requires t.status.Some? && t.status.value.conditions != [] && InputFits(t, s)
    ensures var cs := t.status.value.conditions; var last := cs[|cs| - 1];
      var changed := last.generation != Some(s.generation) || last.nodes != (if t.spec.Some? then t.spec.value.nodes else None);
      && (t.status.value.phase == ApproveWaiting ==>
            if t.spec.Some? && t.spec.value.approve then Moved(t, s, WaitingOperator, t.status.value.removeInfo)
            else if changed then Moved(t, s, Validating, None) else Stays(t, s))
      && (t.status.value.phase == WaitingOperator ==>
            if changed then Moved(t, s, Aborted, None)
            else if s.operatorStopped then Moved(t, s, Processing, t.status.value.removeInfo) else Stays(t, s))
  {
    hide Pass;
  }

  /**
   * Processing goes on with the map of the pass until the pass is finished; then the task fails exactly with
   * issues, and completes with warnings exactly if there are some. A task that is over stays as it is.
   */
  lemma {:induction false} ProcessingTransitions(t: Task, s: Situation)
    requires t.status.Some? && t.status.value.conditions != [] && InputFits(t, s)
    ensures t.status.value.phase == Processing && t.status.value.removeInfo.Some? ==>
      var r := ResultOf(World(t.status.value.removeInfo.value, t.history.trace, t.history.passes), s.input);
      if !r.finished then Advance(t, s).status == Some(t.status.value.(removeInfo := Some(r.info)))
      else if r.info.issues != {} then Moved(t, s, Failed, Some(r.info))
      else if r.info.warnings != [] then Moved(t, s, CompletedWithWarnings, Some(r.info))
      else Moved(t, s, Completed, Some(r.info))
    ensures t.status.value.phase == Processing && t.status.value.removeInfo.None? ==> Advance(t, s).status.value.phase == Failed
    ensures t.status.value.phase in {Completed, CompletedWithWarnings, Failed, ValidationFailed, Aborted} ==> Stays(t, s)
  {
    hide Pass;
  }
}
