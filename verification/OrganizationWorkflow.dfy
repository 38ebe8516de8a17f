/** Operation plans, edits of them, and the workflow state machine kept in the checkpoint store. */
module OrganizationWorkflow {
  import opened Common

  type FileId = nat

  /** One planned move: where the file was seen, and the directory it goes to. */
  datatype Operation = Operation(sourcePath: string, targetDirectory: string)

  datatype Plan = Plan(planId: Uuid, workspaceId: nat, operations: map<FileId, Operation>)

  datatype WorkflowStatus = Ready | Waiting | Completed | Failed | Cancelled

  datatype Workflow = Workflow(
    plan: Plan, status: WorkflowStatus, revision: nat,
    waitReason: Option<string>, errorCode: Option<string>)

  datatype EventKind =
    | PauseRequested(reason: string)
    | ResumeRequested
    | PlanReplaced(replacement: Plan)
    | WorkflowCompleted
    | WorkflowFailed(code: string)
    | WorkflowCancelled

  datatype WorkflowEvent = WorkflowEvent(sequenceNo: nat, kind: EventKind)

  datatype WorkflowError = SequenceMismatch | InvalidTransition

  const HUMAN_APPROVAL := "human_approval_required"
  const HUMAN_REJECTED := "human_rejected"

  /** A reason exactly while waiting, an error code exactly once failed. */
  predicate ValidWorkflow(w: Workflow) {
    && (w.status.Waiting? <==> w.waitReason.Some?)
    && (w.status.Failed? <==> w.errorCode.Some?)
  }

  /** The workflow as it is when a person has to decide on `plan`. */
  function AwaitingHuman(plan: Plan, revision: nat): Workflow {
    Workflow(plan, Waiting, revision, Some(HUMAN_APPROVAL), None)
  }

  function Sources(p: Plan): map<FileId, string> {
    map f | f in p.operations :: p.operations[f].sourcePath
  }

  function Targets(p: Plan): map<FileId, string> {
    map f | f in p.operations :: p.operations[f].targetDirectory
  }

  predicate ReplacementFits(current: Plan, replacement: Plan) {
    && replacement.planId != current.planId
    && replacement.workspaceId == current.workspaceId
    && Sources(replacement) == Sources(current)
  }

  function NextStatus(w: Workflow, kind: EventKind)
    : Result<(WorkflowStatus, Option<string>, Option<string>), WorkflowError>
  {
    if w.status.Ready? && kind.PauseRequested? then Ok((Waiting, Some(kind.reason), None))
    else if w.status.Waiting? && kind.ResumeRequested? then Ok((Ready, None, None))
    else if w.status.Waiting? && kind.PlanReplaced? then Ok((Waiting, w.waitReason, None))
    else if w.status.Ready? && kind.WorkflowCompleted? then Ok((Completed, None, None))
    else if (w.status.Ready? || w.status.Waiting?) && kind.WorkflowFailed? then
      Ok((Failed, None, Some(kind.code)))
    else if w.status.Waiting? && kind.WorkflowCancelled? then Ok((Cancelled, None, None))
    else Err(InvalidTransition)
  }

  function TransitionWorkflow(w: Workflow, e: WorkflowEvent): (r: Result<Workflow, WorkflowError>) {
    if e.sequenceNo != w.revision + 1 then Err(SequenceMismatch)
    else
      var next := NextStatus(w, e.kind);
      if next.Err? then Err(next.error)
      else if e.kind.PlanReplaced? && !ReplacementFits(w.plan, e.kind.replacement) then
        Err(InvalidTransition)
      else
        Ok(Workflow(if e.kind.PlanReplaced? then e.kind.replacement else w.plan,
                    next.value.0, e.sequenceNo, next.value.1, next.value.2))
  }

  /** What every event makes of a workflow, and which it refuses. */
  lemma TransitionExactly(w: Workflow, e: WorkflowEvent)
    ensures var r := TransitionWorkflow(w, e);
            if e.sequenceNo != w.revision + 1 then r == Err(SequenceMismatch)
            else match (w.status, e.kind)
              case (Ready, PauseRequested(reason)) =>
                r == Ok(Workflow(w.plan, Waiting, e.sequenceNo, Some(reason), None))
              case (Ready, WorkflowCompleted) =>
                r == Ok(Workflow(w.plan, Completed, e.sequenceNo, None, None))
              case (Ready, WorkflowFailed(code)) =>
                r == Ok(Workflow(w.plan, Failed, e.sequenceNo, None, Some(code)))
              case (Waiting, ResumeRequested) =>
                r == Ok(Workflow(w.plan, Ready, e.sequenceNo, None, None))
              case (Waiting, WorkflowFailed(code)) =>
                r == Ok(Workflow(w.plan, Failed, e.sequenceNo, None, Some(code)))
              case (Waiting, WorkflowCancelled) =>
                r == Ok(Workflow(w.plan, Cancelled, e.sequenceNo, None, None))
              case (Waiting, PlanReplaced(plan)) =>
                if plan.planId != w.plan.planId && plan.workspaceId == w.plan.workspaceId
                   && plan.operations.Keys == w.plan.operations.Keys
                   && forall f :: f in plan.operations ==>
                        plan.operations[f].sourcePath == w.plan.operations[f].sourcePath
                then r == Ok(Workflow(plan, Waiting, e.sequenceNo, w.waitReason, None))
                else r == Err(InvalidTransition)
              case _ => r == Err(InvalidTransition)
  {
    if e.kind.PlanReplaced? {
      var p, q := w.plan, e.kind.replacement;
      assert Sources(p).Keys == p.operations.Keys && Sources(q).Keys == q.operations.Keys;
      if Sources(p) == Sources(q) {
        forall f | f in q.operations ensures q.operations[f].sourcePath == p.operations[f].sourcePath {
          assert Sources(q)[f] == Sources(p)[f];
        }
      } else if p.operations.Keys == q.operations.Keys {
        var f :| f in q.operations && Sources(q)[f] != Sources(p)[f];
      }
    }
  }

  /** The workflows an unbroken chain of events leads through, from `w` on. */
  ghost predicate Unbroken(w: Workflow, events: seq<WorkflowEvent>, last: Workflow)
    decreases |events|
  {
    if events == [] then last == w
    else
      var r := TransitionWorkflow(w, events[0]);
      r.Ok? && Unbroken(r.value, events[1..], last)
  }

  /**
    However a workflow is driven: its details stay valid, its revision counts the events, it goes
    on moving the same files of the same workspace, and nothing follows an end.
   */
  lemma {:induction false} WorkflowRuns(w: Workflow, events: seq<WorkflowEvent>, last: Workflow)
    requires ValidWorkflow(w) && Unbroken(w, events, last)
    ensures ValidWorkflow(last)
    ensures last.revision == w.revision + |events|
    ensures last.plan.workspaceId == w.plan.workspaceId && Sources(last.plan) == Sources(w.plan)
    ensures !w.status.Ready? && !w.status.Waiting? ==> last == w && events == []
    decreases |events|
  {
    if events != [] {
      WorkflowRuns(TransitionWorkflow(w, events[0]).value, events[1..], last);
    }
  }

  /** The file targets an edit of `p` asks for: the changed ones over the current ones. */
  function MergedTargets(p: Plan, changes: map<FileId, string>): map<FileId, string> {
    map f | f in p.operations ::
      if f in changes then changes[f] else p.operations[f].targetDirectory
  }

  /** Asking again for what a plan already does asks for nothing new. */
  lemma RepeatedEdit(p: Plan, q: Plan, changes: map<FileId, string>)
    requires changes.Keys <= p.operations.Keys
    requires Targets(q) == MergedTargets(p, changes)
    ensures changes.Keys <= q.operations.Keys
    ensures MergedTargets(q, changes) == Targets(q)
  {
    assert q.operations.Keys == Targets(q).Keys == MergedTargets(p, changes).Keys == p.operations.Keys;
    forall f | f in q.operations
      ensures MergedTargets(q, changes)[f] == Targets(q)[f]
    {
      assert f in p.operations && Targets(q)[f] == MergedTargets(p, changes)[f];
    }
  }

  /**
    What a step meets outside the two stores: the id it would draw, the files' present paths, the
    verdict of the preview, whether the workspace's policy allows proposals, and the verdict of the
    plan validator. Each step meets its own.
   */
  datatype Environment = Environment(
    newId: Uuid, paths: map<FileId, string>, accepts: bool, allows: bool, validates: bool)

  /** The plan built for a request, when every file is there and the checks pass. */
  function BuildPlan(workspaceId: nat, targets: map<FileId, string>, env: Environment): Option<Plan> {
    if env.accepts && targets.Keys <= env.paths.Keys then
      Some(Plan(env.newId, workspaceId, map f | f in targets :: Operation(env.paths[f], targets[f])))
    else None
  }
}
