/**
  The two stores of an organization workflow and the calls that move them: a decision reaches the
  approval row first and the checkpoint second, an edit the checkpoint first and the approval row
  second. Each call is written as the atomic steps it takes.
 */
module OrganizationDecisions {
  import opened Common
  import opened OrganizationWorkflow

  datatype ApprovalStatus = WaitingApproval | Approved | Rejected | Cancelled

  datatype Decision = Approve | Reject | Cancel

  /** A stored plan follows the approval while it is the one under approval. */
  datatype PlanStatus = Current(status: ApprovalStatus) | Superseded

  datatype PlanRow = PlanRow(plan: Plan, status: PlanStatus)

  datatype ExecutionStage =
    | Executing | PartialFailed | ExecutionCompleted | Undoing | Undone | Compensated | ExecutionFailed

  datatype OperationStatus = Follows(status: ApprovalStatus) | InExecution(stage: ExecutionStage)

  datatype OperationRow = OperationRow(status: OperationStatus, planId: Uuid, revision: nat)

  datatype Action = Decided(decision: Decision) | Edited

  datatype AuditEvent = AuditEvent(
    action: Action, before: ApprovalStatus, after: ApprovalStatus, oldPlan: Uuid, newPlan: Uuid)

  /** The business database's rows of one workflow. */
  datatype Business = Business(
    planId: Uuid, status: ApprovalStatus, plans: map<Uuid, PlanRow>,
    operation: OperationRow, audit: seq<AuditEvent>)

  /** The business database and the checkpoint database: two stores, no common transaction. */
  datatype Stores = Stores(business: Option<Business>, checkpoint: Option<Workflow>)

  datatype Refusal =
    | WorkflowNotFound | StateConflict | PlanMismatch
    | EmptyRequest | UnknownSource | PolicyRefused | PlanRefused | ValidatorRefused
    | EventRefused(error: WorkflowError)
    | ApprovalNotFound | ApprovalPlanMismatch | ApprovalNotWaiting | ApprovalStateChanged
    | PlanUnchanged | PlanRowExists

  /** A workflow as creation commits it: both stores wait on the same first plan. */
  function Created(plan: Plan): Stores {
    Stores(
      Some(Business(plan.planId, WaitingApproval,
                    map[plan.planId := PlanRow(plan, Current(WaitingApproval))],
                    OperationRow(Follows(WaitingApproval), plan.planId, 1), [])),
      Some(AwaitingHuman(plan, 1)))
  }

  function DecidedStatus(d: Decision): ApprovalStatus {
    match d
    case Approve => Approved
    case Reject => Rejected
    case Cancel => ApprovalStatus.Cancelled
  }

  function DecisionKind(d: Decision): EventKind {
    match d
    case Approve => ResumeRequested
    case Reject => WorkflowFailed(HUMAN_REJECTED)
    case Cancel => WorkflowCancelled
  }

  predicate AlreadyCheckpointed(w: Workflow, d: Decision) {
    match d
    case Approve => w.status.Ready? && w.waitReason.None?
    case Reject => w.status.Failed? && w.errorCode == Some(HUMAN_REJECTED)
    case Cancel => w.status.Cancelled? && w.errorCode.None?
  }

  predicate WaitsForHuman(w: Workflow) {
    w.status.Waiting? && w.waitReason == Some(HUMAN_APPROVAL)
  }

  // ---- the approval store: one transaction ----

  /** A repeated approval or cancellation passes; a repeated rejection does not. */
  predicate IsRepeated(b: Business, d: Decision) {
    || (d.Approve? && b.status.Approved?)
    || (d.Cancel? && b.status.Cancelled?)
  }

  /** A plan row that is stored must be waiting for its status to move. */
  predicate RowWaits(b: Business, planId: Uuid) {
    planId in b.plans ==> b.plans[planId].status == Current(WaitingApproval)
  }

  function WithRowStatus(plans: map<Uuid, PlanRow>, planId: Uuid, status: PlanStatus)
    : map<Uuid, PlanRow>
  {
    if planId in plans then plans[planId := plans[planId].(status := status)] else plans
  }

  function TransitionApproval(b: Business, expected: Uuid, d: Decision): Result<Business, Refusal> {
    if b.planId != expected then Err(ApprovalPlanMismatch)
    else if IsRepeated(b, d) then Ok(b)
    else if !b.status.WaitingApproval? then Err(ApprovalNotWaiting)
    else if !RowWaits(b, expected) || b.operation.status != Follows(WaitingApproval) then
      Err(ApprovalStateChanged)
    else
      var status := DecidedStatus(d);
      Ok(Business(expected, status, WithRowStatus(b.plans, expected, Current(status)),
                  OperationRow(Follows(status), expected, b.operation.revision + 1),
                  b.audit + [AuditEvent(Decided(d), WaitingApproval, status, expected, expected)]))
  }

  /** The edit's transaction: store the replacement's row if it is due, then swap the plans. */
  function CommitEdit(b: Business, expected: Uuid, replacement: Plan, isNew: bool)
    : Result<Business, Refusal>
  {
    var id := replacement.planId;
    if isNew && id in b.plans then Err(PlanRowExists)
    else if id == expected then Err(PlanUnchanged)
    else if b.planId != expected then Err(ApprovalPlanMismatch)
    else if !b.status.WaitingApproval? then Err(ApprovalNotWaiting)
    else
      var plans := if id in b.plans then b.plans
                   else b.plans[id := PlanRow(replacement, Current(WaitingApproval))];
      if !RowWaits(b.(plans := plans), expected) || !RowWaits(b.(plans := plans), id)
         || b.operation.status != Follows(WaitingApproval) then Err(ApprovalStateChanged)
      else
        Ok(Business(id, WaitingApproval, WithRowStatus(plans, expected, Superseded),
                    OperationRow(Follows(WaitingApproval), id, b.operation.revision + 1),
                    b.audit + [AuditEvent(Edited, WaitingApproval, WaitingApproval, expected, id)]))
  }

  // ---- the checkpoint store ----

  /** Runs one event on whatever the checkpoint holds now; the caller chose its number earlier. */
  function RunEvent(checkpoint: Option<Workflow>, e: WorkflowEvent, validates: bool)
    : Result<Workflow, Refusal>
  {
    if checkpoint.None? then Err(WorkflowNotFound)
    else
      var r := TransitionWorkflow(checkpoint.value, e);
      if r.Err? then Err(EventRefused(r.error))
      else if (e.kind.PlanReplaced? || e.kind.WorkflowCompleted?) && !validates then
        Err(ValidatorRefused)
      else Ok(r.value)
  }

  // ---- calls as threads ----

  /** Where a call has got to, with what it read on the way. */
  datatype Thread =
    | DecideStart(expected: Uuid, decision: Decision)
    | DecideLoaded(expected: Uuid, decision: Decision, held: Workflow)
    | DecideDue(expected: Uuid, decision: Decision, held: Workflow)
    | DecideAgreed(expected: Uuid, decision: Decision, held: Workflow)
    | EditStart(expected: Uuid, changes: map<FileId, string>)
    | EditLoaded(expected: Uuid, changes: map<FileId, string>, held: Workflow)
    | EditBuilding(expected: Uuid, targets: map<FileId, string>, held: Workflow)
    | EditBuilt(expected: Uuid, held: Workflow, replacement: Plan)
    | EditStaged(expected: Uuid, held: Workflow, replacement: Plan, isNew: bool)
    | EditCommitted
    | Done(outcome: Result<Workflow, Refusal>)

  function Remaining(t: Thread): nat {
    match t
    case DecideStart(_, _) => 4
    case DecideLoaded(_, _, _) => 3
    case DecideDue(_, _, _) => 2
    case DecideAgreed(_, _, _) => 1
    case EditStart(_, _) => 6
    case EditLoaded(_, _, _) => 5
    case EditBuilding(_, _, _) => 4
    case EditBuilt(_, _, _) => 3
    case EditStaged(_, _, _, _) => 2
    case EditCommitted => 1
    case Done(_) => 0
  }

  function Refuse(r: Refusal): Thread { Done(Err(r)) }

  function LoadForDecision(s: Stores, expected: Uuid, d: Decision): Thread {
    if s.checkpoint.None? then Refuse(WorkflowNotFound)
    else
      var w := s.checkpoint.value;
      if w.plan.planId != expected then Refuse(PlanMismatch)
      else if AlreadyCheckpointed(w, d) || WaitsForHuman(w) then DecideLoaded(expected, d, w)
      else Refuse(StateConflict)
  }

  function ReadApproval(s: Stores, expected: Uuid, d: Decision, w: Workflow): Thread {
    if s.business.None? then Refuse(WorkflowNotFound)
    else
      var b := s.business.value;
      if b.planId != expected then Refuse(PlanMismatch)
      else if b.status.WaitingApproval? then DecideDue(expected, d, w)
      else if b.status != DecidedStatus(d) then Refuse(StateConflict)
      else DecideAgreed(expected, d, w)
  }

  function CommitDecision(s: Stores, expected: Uuid, d: Decision, w: Workflow): (Stores, Thread) {
    if s.business.None? then (s, Refuse(ApprovalNotFound))
    else
      var r := TransitionApproval(s.business.value, expected, d);
      if r.Err? then (s, Refuse(r.error))
      else (s.(business := Some(r.value)), DecideAgreed(expected, d, w))
  }

  function CheckpointDecision(s: Stores, d: Decision, w: Workflow): (Stores, Thread) {
    if AlreadyCheckpointed(w, d) then (s, Done(Ok(w)))
    else
      var r := RunEvent(s.checkpoint, WorkflowEvent(w.revision + 1, DecisionKind(d)), true);
      if r.Err? then (s, Refuse(r.error))
      else if !AlreadyCheckpointed(r.value, d) then
        (s.(checkpoint := Some(r.value)), Refuse(StateConflict))
      else (s.(checkpoint := Some(r.value)), Done(Ok(r.value)))
  }

  /** The checks of an edit, and the choice between a new plan and one already staged. */
  function ReadForEdit(s: Stores, expected: Uuid, changes: map<FileId, string>, w: Workflow): Thread {
    if s.business.None? then Refuse(WorkflowNotFound)
    else
      var b := s.business.value;
      if !b.status.WaitingApproval? || !WaitsForHuman(w) then Refuse(StateConflict)
      else if b.planId != expected then Refuse(PlanMismatch)
      else if !(changes.Keys <= w.plan.operations.Keys) then Refuse(UnknownSource)
      else if w.plan.planId == expected then
        EditBuilding(expected, MergedTargets(w.plan, changes), w)
      else if MergedTargets(w.plan, changes) != Targets(w.plan) then Refuse(PlanMismatch)
      else EditStaged(expected, w, w.plan, false)
  }

  /** Builds the replacement and inserts its row, uncommitted; the row's key must be unused. */
  function Build(s: Stores, expected: Uuid, targets: map<FileId, string>, w: Workflow, env: Environment)
    : Thread
  {
    var plan := BuildPlan(w.plan.workspaceId, targets, env);
    if !env.allows then Refuse(PolicyRefused)
    else if plan.None? then Refuse(PlanRefused)
    else if s.business.Some? && plan.value.planId in s.business.value.plans then Refuse(PlanRowExists)
    else EditBuilt(expected, w, plan.value)
  }

  function CheckpointEdit(s: Stores, expected: Uuid, w: Workflow, replacement: Plan, env: Environment)
    : (Stores, Thread)
  {
    var r := RunEvent(s.checkpoint, WorkflowEvent(w.revision + 1, PlanReplaced(replacement)),
                      env.validates);
    if r.Err? then (s, Refuse(r.error))
    else if r.value.plan.planId != replacement.planId then
      (s.(checkpoint := Some(r.value)), Refuse(StateConflict))
    else (s.(checkpoint := Some(r.value)), EditStaged(expected, w, replacement, true))
  }

  /**
    The edit's last transaction. A new plan's row was inserted when it was built; a staged plan's
    row, where it is missing, is inserted here, and only while the policy allows proposals.
   */
  function CommitReplacement(s: Stores, expected: Uuid, w: Workflow, replacement: Plan, isNew: bool,
                             env: Environment)
    : (Stores, Thread)
  {
    if s.business.None? then (s, Refuse(ApprovalNotFound))
    else if !isNew && replacement.planId !in s.business.value.plans && !env.allows then
      (s, Refuse(PolicyRefused))
    else
      var r := CommitEdit(s.business.value, expected, replacement, isNew);
      if r.Err? then (s, Refuse(r.error))
      else (s.(business := Some(r.value)), if isNew then EditCommitted else Done(Ok(w)))
  }

  function Reload(s: Stores): Thread {
    Done(if s.checkpoint.None? then Err(WorkflowNotFound) else Ok(s.checkpoint.value))
  }

  /** The next atomic step of a call: each reads or writes one store once. */
  function ThreadStep(s: Stores, t: Thread, env: Environment): (r: (Stores, Thread))
    ensures !t.Done? ==> Remaining(r.1) < Remaining(t)
  {
    match t
    case DecideStart(expected, d) => (s, LoadForDecision(s, expected, d))
    case DecideLoaded(expected, d, w) => (s, ReadApproval(s, expected, d, w))
    case DecideDue(expected, d, w) => CommitDecision(s, expected, d, w)
    case DecideAgreed(_, d, w) => CheckpointDecision(s, d, w)
    case EditStart(expected, changes) =>
      (s, if changes == map[] then Refuse(EmptyRequest)
          else if s.checkpoint.None? then Refuse(WorkflowNotFound)
          else EditLoaded(expected, changes, s.checkpoint.value))
    case EditLoaded(expected, changes, w) => (s, ReadForEdit(s, expected, changes, w))
    case EditBuilding(expected, targets, w) => (s, Build(s, expected, targets, w, env))
    case EditBuilt(expected, w, replacement) => CheckpointEdit(s, expected, w, replacement, env)
    case EditStaged(expected, w, replacement, isNew) =>
      CommitReplacement(s, expected, w, replacement, isNew, env)
    case EditCommitted => (s, Reload(s))
    case Done(_) => (s, t)
  }

  /** A call left alone until it answers, or until it dies after `limit` steps. */
  function RunUpTo(s: Stores, t: Thread, env: Environment, limit: nat): (Stores, Thread)
    decreases limit
  {
    if limit == 0 || t.Done? then (s, t)
    else
      var (s', t') := ThreadStep(s, t, env);
      RunUpTo(s', t', env, limit - 1)
  }

  function RunAlone(s: Stores, t: Thread, env: Environment): (r: (Stores, Thread))
    ensures r.1.Done?
    decreases Remaining(t)
  {
    if t.Done? then (s, t)
    else
      var (s', t') := ThreadStep(s, t, env);
      RunAlone(s', t', env)
  }

  // ---- what may act on an approved plan ----

  /** The states the workflow page accepts as consistent. */
  predicate Consistent(s: Stores) {
    && s.business.Some? && s.checkpoint.Some?
    && var b := s.business.value; var w := s.checkpoint.value;
    && w.plan.planId == b.planId
    && b.planId in b.plans
    && b.operation.planId == b.planId
    && (|| (b.operation.status == Follows(b.status) && CheckpointMeans(w, b.status))
        || (b.operation.status.InExecution? && b.status.Approved? && CheckpointMeans(w, Approved)))
  }

  /** The checkpoint's state, read as the approval status it corresponds to. */
  predicate CheckpointMeans(w: Workflow, status: ApprovalStatus) {
    match status
    case WaitingApproval => w.status.Waiting?
    case Approved => w.status.Ready?
    case Rejected => w.status.Failed? && w.errorCode == Some(HUMAN_REJECTED)
    case Cancelled => w.status.Cancelled?
  }

  /** The gate in front of every file side effect. */
  predicate GatePasses(s: Stores) {
    Consistent(s) && s.checkpoint.value.status.Ready? && s.business.value.status.Approved?
  }

  /** The execution's own check that `plan` is the one that was approved. */
  predicate ApprovedFor(s: Stores, plan: Plan) {
    && s.business.Some?
    && var b := s.business.value;
    && b.status.Approved? && b.planId == plan.planId
    && b.planId in b.plans && b.plans[b.planId] == PlanRow(plan, Current(Approved))
  }

  /** The coordinator: its two sessions are fields, its calls run the steps in order. */
  class OrganizationCoordinator {
    var business: Option<Business>
    var checkpoint: Option<Workflow>

    constructor (s: Stores)
      ensures View() == s
    {
      business, checkpoint := s.business, s.checkpoint;
    }

    ghost function View(): Stores
      reads this
    {
      Stores(business, checkpoint)
    }

    method RunCheckpointedEvent(e: WorkflowEvent, validates: bool) returns (r: Result<Workflow, Refusal>)
      modifies this`checkpoint
      ensures r == RunEvent(old(checkpoint), e, validates)
      ensures old(checkpoint).None? ==> r == Err(WorkflowNotFound)
      ensures old(checkpoint).Some? ==>
                match TransitionWorkflow(old(checkpoint).value, e)
                case Err(error) => r == Err(EventRefused(error))
                case Ok(w) => r == if validates || !(e.kind.PlanReplaced? || e.kind.WorkflowCompleted?)
                                   then Ok(w) else Err(ValidatorRefused)
      ensures checkpoint == if r.Ok? then Some(r.value) else old(checkpoint)
    {
      if checkpoint.None? { return Err(WorkflowNotFound); }
      var next := TransitionWorkflow(checkpoint.value, e);
      if next.Err? { return Err(EventRefused(next.error)); }
      if (e.kind.PlanReplaced? || e.kind.WorkflowCompleted?) && !validates {
        return Err(ValidatorRefused);
      }
      checkpoint := Some(next.value);
      r := Ok(next.value);
    }

    method ApplyOrganizationDecision(expected: Uuid, d: Decision, ghost env: Environment)
      returns (r: Result<Workflow, Refusal>)
      modifies this
      ensures (View(), Done(r)) == RunAlone(old(View()), DecideStart(expected, d), env)
    {
      if checkpoint.None? { return Err(WorkflowNotFound); }
      var workflow := checkpoint.value;
      if workflow.plan.planId != expected { return Err(PlanMismatch); }
      if !AlreadyCheckpointed(workflow, d) && !WaitsForHuman(workflow) { return Err(StateConflict); }
      ghost var s := View();
      ghost var all := RunAlone(s, DecideStart(expected, d), env);
      assert all == RunAlone(s, DecideLoaded(expected, d, workflow), env);

      assert all == RunAlone(s, ReadApproval(s, expected, d, workflow), env);
      if business.None? { return Err(WorkflowNotFound); }
      if business.value.planId != expected { return Err(PlanMismatch); }
      if business.value.status.WaitingApproval? {
        assert all == RunAlone(s, DecideDue(expected, d, workflow), env);
        ghost var (s', t') := CommitDecision(s, expected, d, workflow);
        assert all == RunAlone(s', t', env);
        var transition := TransitionApproval(business.value, expected, d);
        if transition.Err? { return Err(transition.error); }
        business := Some(transition.value);
      } else if business.value.status != DecidedStatus(d) {
        return Err(StateConflict);
      }
      assert all == RunAlone(View(), DecideAgreed(expected, d, workflow), env);

      ghost var (last, answer) := CheckpointDecision(View(), d, workflow);
      assert all == RunAlone(last, answer, env);
      if AlreadyCheckpointed(workflow, d) { return Ok(workflow); }
      r := RunCheckpointedEvent(WorkflowEvent(workflow.revision + 1, DecisionKind(d)), true);
      if r.Ok? && !AlreadyCheckpointed(r.value, d) { r := Err(StateConflict); }
    }

    method ApplyOrganizationPlanEdit(expected: Uuid, changes: map<FileId, string>, env: Environment)
      returns (r: Result<Workflow, Refusal>)
      modifies this
      ensures (View(), Done(r)) == RunAlone(old(View()), EditStart(expected, changes), env)
    {
      hide CommitReplacement, CheckpointEdit, MergedTargets, Targets, BuildPlan;
      if changes == map[] { return Err(EmptyRequest); }
      if checkpoint.None? { return Err(WorkflowNotFound); }
      var workflow := checkpoint.value;
      ghost var all := RunAlone(View(), EditStart(expected, changes), env);
      assert all == RunAlone(View(), EditLoaded(expected, changes, workflow), env);
      assert all == RunAlone(View(), ReadForEdit(View(), expected, changes, workflow), env);
      if business.None? { return Err(WorkflowNotFound); }
      if !business.value.status.WaitingApproval? { return Err(StateConflict); }
      if !WaitsForHuman(workflow) { return Err(StateConflict); }
      if business.value.planId != expected { return Err(PlanMismatch); }
      if !(changes.Keys <= workflow.plan.operations.Keys) { return Err(UnknownSource); }

      var replacement := workflow.plan;
      var isNew := workflow.plan.planId == expected;
      if isNew {
        assert all == RunAlone(
          View(), EditBuilding(expected, MergedTargets(workflow.plan, changes), workflow), env);
        var built := BuildPlan(workflow.plan.workspaceId, MergedTargets(workflow.plan, changes), env);
        assert all == RunAlone(
          View(), Build(View(), expected, MergedTargets(workflow.plan, changes), workflow, env), env);
        if !env.allows { return Err(PolicyRefused); }
        if built.None? { return Err(PlanRefused); }
        if built.value.planId in business.value.plans { return Err(PlanRowExists); }
        replacement := built.value;
        assert all == RunAlone(View(), EditBuilt(expected, workflow, replacement), env);
        ghost var (s, t) := CheckpointEdit(View(), expected, workflow, replacement, env);
        assert all == RunAlone(s, t, env);
        r := CheckpointReplacement(workflow, replacement, env);
        if r.Err? { return; }
      } else if MergedTargets(workflow.plan, changes) != Targets(workflow.plan) {
        return Err(PlanMismatch);
      }
      assert all == RunAlone(View(), EditStaged(expected, workflow, replacement, isNew), env);

      ghost var (s, t) := CommitReplacement(View(), expected, workflow, replacement, isNew, env);
      assert all == RunAlone(s, t, env);
      r := EditOperationPlan(expected, workflow, replacement, isNew, env);
      if r.Ok? && isNew { r := Ok(checkpoint.value); }
    }

    /** The edit's last transaction, with the missing row of a staged plan. */
    method EditOperationPlan(expected: Uuid, workflow: Workflow, replacement: Plan, isNew: bool,
                             env: Environment)
      returns (r: Result<Workflow, Refusal>)
      requires business.Some?
      modifies this`business
      ensures var (s, t) := CommitReplacement(old(View()), expected, workflow, replacement, isNew, env);
              && View() == s
              && (r.Ok? ==> r == Ok(workflow) && t == if isNew then EditCommitted else Done(r))
              && (r.Err? ==> t == Refuse(r.error))
    {
      if !isNew && replacement.planId !in business.value.plans && !env.allows {
        return Err(PolicyRefused);
      }
      var edited := CommitEdit(business.value, expected, replacement, isNew);
      if edited.Err? { return Err(edited.error); }
      business := Some(edited.value);
      r := Ok(workflow);
    }

    method CheckpointReplacement(workflow: Workflow, replacement: Plan, env: Environment)
      returns (r: Result<Workflow, Refusal>)
      modifies this`checkpoint
      ensures forall expected ::
                var (s, t) := CheckpointEdit(old(View()), expected, workflow, replacement, env);
                && View() == s
                && (r.Ok? ==> t == EditStaged(expected, workflow, replacement, true) && checkpoint.Some?)
                && (r.Err? ==> t == Refuse(r.error))
    {
      r := RunCheckpointedEvent(
        WorkflowEvent(workflow.revision + 1, PlanReplaced(replacement)), env.validates);
      if r.Ok? && r.value.plan.planId != replacement.planId { r := Err(StateConflict); }
    }
  }
}
