/**
  Any number of calls on one organization workflow, interleaved step by step. A call that is never
  advanced again has crashed. What holds of the two stores in every interleaving.
 */
module OrganizationInterleaving {
  import opened Common
  import opened OrganizationWorkflow
  import opened OrganizationDecisions

  /** The stores and the calls under way; `minted` and `history` record ids and checkpointed plans. */
  datatype World = World(stores: Stores, threads: seq<Thread>, minted: set<Uuid>, history: seq<Plan>)

  datatype Move =
    | StartDecision(expected: Uuid, decision: Decision)
    | StartEdit(expected: Uuid, changes: map<FileId, string>)
    | Advance(thread: nat, env: Environment)
    | Execute(stage: ExecutionStage)

  function Opening(plan: Plan): World {
    World(Created(plan), [], {plan.planId}, [plan])
  }

  /** A plan id is drawn fresh whenever a plan is built. */
  predicate Enabled(x: World, m: Move) {
    m.Advance? ==>
      && m.thread < |x.threads|
      && (x.threads[m.thread].EditBuilding? ==> m.env.newId !in x.minted)
  }

  /** The plans checkpointed so far, once the checkpoint is `checkpoint`. */
  function Extended(history: seq<Plan>, checkpoint: Option<Workflow>): seq<Plan> {
    if history != [] && checkpoint.Some? && checkpoint.value.plan != Last(history)
    then history + [checkpoint.value.plan] else history
  }

  function ApplyMove(x: World, m: Move): World
    requires Enabled(x, m)
  {
    match m
    case StartDecision(expected, d) => x.(threads := x.threads + [DecideStart(expected, d)])
    case StartEdit(expected, changes) => x.(threads := x.threads + [EditStart(expected, changes)])
    case Advance(i, env) =>
      var (s, t) := ThreadStep(x.stores, x.threads[i], env);
      World(s, x.threads[i := t],
            if x.threads[i].EditBuilding? then x.minted + {env.newId} else x.minted,
            Extended(x.history, s.checkpoint))
    case Execute(stage) =>
      if !GatePasses(x.stores) then x
      else
        var b := x.stores.business.value;
        x.(stores := x.stores.(business := Some(b.(operation :=
             OperationRow(InExecution(stage), b.planId, b.operation.revision + 1)))))
  }

  /** The worlds a list of moves leads through. */
  ghost predicate IsTrace(worlds: seq<World>, moves: seq<Move>) {
    && |worlds| == |moves| + 1
    && (exists plan :: worlds[0] == Opening(plan))
    && forall i :: 0 <= i < |moves| ==>
         Enabled(worlds[i], moves[i]) && worlds[i + 1] == ApplyMove(worlds[i], moves[i])
  }

  // ---- what every interleaving keeps ----

  /** The position of the approval's plan among the checkpointed ones: the last, or one behind. */
  function Agreed(s: Stores, history: seq<Plan>): int {
    if s.business.Some? && history != [] && s.business.value.planId == Last(history).planId
    then |history| - 1 else |history| - 2
  }

  /** The checkpoint that carries `status` for `plan`. */
  function Carrying(plan: Plan, revision: nat, status: ApprovalStatus): Workflow {
    match status
    case WaitingApproval => AwaitingHuman(plan, revision)
    case Approved => Workflow(plan, Ready, revision, None, None)
    case Rejected => Workflow(plan, Failed, revision, None, Some(HUMAN_REJECTED))
    case Cancelled => Workflow(plan, WorkflowStatus.Cancelled, revision, None, None)
  }

  predicate HistorySound(history: seq<Plan>) {
    && history != []
    && (forall i, k :: 0 <= i < k < |history| ==> history[i].planId != history[k].planId)
    && (forall i :: 0 <= i < |history| ==>
          && history[i].workspaceId == history[0].workspaceId
          && Sources(history[i]) == Sources(history[0]))
  }

  /** Stored plans are the agreed one, with the approval's status, and its superseded forerunners. */
  ghost predicate RowsSound(b: Business, history: seq<Plan>, agreed: int) {
    && 0 <= agreed < |history|
    && b.planId == history[agreed].planId
    && (forall k :: 0 <= k <= agreed ==>
          && history[k].planId in b.plans
          && b.plans[history[k].planId]
             == PlanRow(history[k], if k < agreed then Superseded else Current(b.status)))
    && (forall id :: id in b.plans ==> exists k :: 0 <= k <= agreed && history[k].planId == id)
  }

  /** The checkpoint waits on the last plan, or carries the decision taken on that same plan. */
  predicate CheckpointSound(s: Stores, history: seq<Plan>)
    requires s.business.Some? && s.checkpoint.Some? && history != []
  {
    var w, b, n := s.checkpoint.value, s.business.value, |history|;
    || w == AwaitingHuman(Last(history), n)
    || (&& !b.status.WaitingApproval?
        && b.planId == Last(history).planId
        && w == Carrying(Last(history), n + 1, b.status))
  }

  predicate OperationSound(s: Stores)
    requires s.business.Some? && s.checkpoint.Some?
  {
    var b := s.business.value;
    && b.operation.planId == b.planId
    && (|| b.operation.status == Follows(b.status)
        || (&& b.operation.status.InExecution? && b.status.Approved?
            && s.checkpoint.value.status.Ready?))
  }

  ghost predicate StoresSound(s: Stores, history: seq<Plan>) {
    && HistorySound(history)
    && s.business.Some? && s.checkpoint.Some?
    && RowsSound(s.business.value, history, Agreed(s, history))
    && CheckpointSound(s, history)
    && OperationSound(s)
  }

  /** `w` is the checkpoint, or was the checkpoint while an earlier plan waited. */
  predicate Held(s: Stores, history: seq<Plan>, w: Workflow) {
    || s.checkpoint == Some(w)
    || (1 <= w.revision <= |history| && w == AwaitingHuman(history[w.revision - 1], w.revision))
  }

  predicate DecisionSound(s: Stores, history: seq<Plan>, expected: Uuid, d: Decision, w: Workflow) {
    && Held(s, history, w)
    && w.plan.planId == expected
    && (AlreadyCheckpointed(w, d) || WaitsForHuman(w))
  }

  predicate DecisionTaken(s: Stores, expected: Uuid, d: Decision) {
    && s.business.Some?
    && s.business.value.planId == expected
    && s.business.value.status == DecidedStatus(d)
  }

  /** The edit started from a waiting plan that the approval had reached. */
  predicate EditSound(s: Stores, history: seq<Plan>, expected: Uuid, w: Workflow) {
    && 1 <= w.revision <= |history|
    && w == AwaitingHuman(history[w.revision - 1], w.revision)
    && w.plan.planId == expected
    && w.revision <= Agreed(s, history) + 1
  }

  /** The replacement was checkpointed right after `expected`, or its row is superseded already. */
  predicate StagedSound(s: Stores, history: seq<Plan>, expected: Uuid, replacement: Plan, at: int) {
    && 0 <= at < |history|
    && history[at] == replacement
    && ((at >= 1 && history[at - 1].planId == expected) || at < Agreed(s, history))
  }

  predicate ThreadSound(s: Stores, history: seq<Plan>, minted: set<Uuid>, t: Thread) {
    match t
    case DecideStart(_, _) => true
    case DecideLoaded(expected, d, w) => DecisionSound(s, history, expected, d, w)
    case DecideDue(expected, d, w) => DecisionSound(s, history, expected, d, w)
    case DecideAgreed(expected, d, w) =>
      DecisionSound(s, history, expected, d, w) && DecisionTaken(s, expected, d)
    case EditStart(_, _) => true
    case EditLoaded(_, _, w) => Held(s, history, w)
    case EditBuilding(expected, _, w) => EditSound(s, history, expected, w)
    case EditBuilt(expected, w, replacement) =>
      && EditSound(s, history, expected, w)
      && replacement.planId in minted
      && replacement.planId !in Ids(history)
    case EditStaged(expected, w, replacement, isNew) =>
      && (isNew ==> 1 <= w.revision < |history| && history[w.revision - 1].planId == expected)
      && StagedSound(s, history, expected, replacement,
                     if isNew then w.revision else w.revision - 1)
    case EditCommitted => true
    case Done(_) => true
  }

  function Ids(history: seq<Plan>): set<Uuid> {
    set i | 0 <= i < |history| :: history[i].planId
  }

  ghost predicate WorldSound(x: World) {
    && StoresSound(x.stores, x.history)
    && Ids(x.history) <= x.minted
    && (forall i :: 0 <= i < |x.threads| ==>
          ThreadSound(x.stores, x.history, x.minted, x.threads[i]))
    && (forall i, k :: 0 <= i < k < |x.threads| && x.threads[i].EditBuilt? && x.threads[k].EditBuilt?
          ==> x.threads[i].replacement.planId != x.threads[k].replacement.planId)
  }

  /** How the stores may move on: plans are appended, agreement catches up, decisions stay. */
  predicate Later(s: Stores, history: seq<Plan>, s': Stores, history': seq<Plan>) {
    && s.business.Some? && s'.business.Some? && s.checkpoint.Some? && s'.checkpoint.Some?
    && history <= history'
    && Agreed(s, history) <= Agreed(s', history')
    && (!s.business.value.status.WaitingApproval? ==>
          s'.business.value.status == s.business.value.status
          && s'.business.value.planId == s.business.value.planId)
    && (s'.checkpoint == s.checkpoint || s.checkpoint.value.status.Waiting?)
  }

  lemma ThreadStaysSound(s: Stores, history: seq<Plan>, minted: set<Uuid>,
                         s': Stores, history': seq<Plan>, minted': set<Uuid>, t: Thread)
    requires StoresSound(s, history) && StoresSound(s', history')
    requires Later(s, history, s', history') && minted <= minted'
    requires ThreadSound(s, history, minted, t)
    requires t.EditBuilt? ==> t.replacement.planId !in Ids(history')
    ensures ThreadSound(s', history', minted', t)
  {
    hide RowsSound, OperationSound;
  }

  // ---- each step on its own ----

  lemma DecisionLoadsAreSound(s: Stores, history: seq<Plan>, minted: set<Uuid>, t: Thread, env: Environment)
    requires StoresSound(s, history) && ThreadSound(s, history, minted, t)
    requires t.DecideStart? || t.DecideLoaded?
    ensures ThreadStep(s, t, env).0 == s
    ensures ThreadSound(s, history, minted, ThreadStep(s, t, env).1)
    ensures !ThreadStep(s, t, env).1.EditBuilt?
  {
    hide RowsSound, HistorySound, OperationSound, CheckpointSound;
  }

  lemma EditLoadsAreSound(s: Stores, history: seq<Plan>, minted: set<Uuid>, t: Thread, env: Environment)
    requires StoresSound(s, history) && ThreadSound(s, history, minted, t)
    requires t.EditStart? || t.EditLoaded? || t.EditCommitted?
    ensures ThreadStep(s, t, env).0 == s
    ensures ThreadSound(s, history, minted, ThreadStep(s, t, env).1)
    ensures !ThreadStep(s, t, env).1.EditBuilt?
  {
    hide StoresSound, ReadForEdit, EditSound, StagedSound;
    if t.EditLoaded? {
      ReadForEditIsSound(s, history, t.expected, t.changes, t.held);
    }
  }

  lemma AgreedPlan(s: Stores, history: seq<Plan>)
    requires StoresSound(s, history)
    ensures s.business.Some? && s.checkpoint.Some? && 0 <= Agreed(s, history) < |history|
    ensures s.business.value.planId == history[Agreed(s, history)].planId
    ensures s.checkpoint.value.plan == Last(history)
    ensures WaitsForHuman(s.checkpoint.value) ==>
              s.checkpoint.value == AwaitingHuman(Last(history), |history|)
  {
    hide HistorySound, OperationSound;
  }

  /** The edit goes on from a plan the approval has reached, or finds its targets staged already. */
  lemma ReadForEditIsSound(s: Stores, history: seq<Plan>, expected: Uuid,
                           changes: map<FileId, string>, w: Workflow)
    requires StoresSound(s, history) && Held(s, history, w)
    ensures match ReadForEdit(s, expected, changes, w)
            case Done(_) => true
            case EditBuilding(e, _, v) => EditSound(s, history, e, v)
            case EditStaged(e, v, replacement, isNew) =>
              !isNew && StagedSound(s, history, e, replacement, v.revision - 1)
            case _ => false
  {
    hide RowsSound, OperationSound, CheckpointSound, MergedTargets, Targets;
    AgreedPlan(s, history);
    var r := ReadForEdit(s, expected, changes, w);
    if !r.Done? {
      var at := w.revision - 1;
      assert 0 <= at < |history| && w == AwaitingHuman(history[at], w.revision);
    }
  }

  lemma BuildIsSound(s: Stores, history: seq<Plan>, minted: set<Uuid>, t: Thread, env: Environment)
    requires StoresSound(s, history) && ThreadSound(s, history, minted, t)
    requires t.EditBuilding? && env.newId !in minted && Ids(history) <= minted
    ensures ThreadStep(s, t, env).0 == s
    ensures ThreadSound(s, history, minted + {env.newId}, ThreadStep(s, t, env).1)
    ensures ThreadStep(s, t, env).1.EditBuilt? ==>
              ThreadStep(s, t, env).1.replacement.planId == env.newId
  {
    hide StoresSound;
  }

  lemma RowsDecided(b: Business, b': Business, history: seq<Plan>, agreed: int)
    requires HistorySound(history) && RowsSound(b, history, agreed)
    requires b'.planId == b.planId
    requires b'.plans == WithRowStatus(b.plans, b.planId, Current(b'.status))
    ensures RowsSound(b', history, agreed)
  {
    assert forall id :: id in b'.plans ==> id in b.plans;
  }

  /** Taking a decision, when the approval still waits on the expected plan. */
  lemma CommitDecisionIsSound(s: Stores, history: seq<Plan>, minted: set<Uuid>,
                              expected: Uuid, d: Decision, w: Workflow)
    requires StoresSound(s, history)
    requires DecisionSound(s, history, expected, d, w)
    ensures var (s', t') := CommitDecision(s, expected, d, w);
            && StoresSound(s', history) && Later(s, history, s', history)
            && ThreadSound(s', history, minted, t') && !t'.EditBuilt?
            && s'.checkpoint == s.checkpoint
  {
    hide RowsSound, HistorySound, WithRowStatus, RowWaits;
    var s' := CommitDecision(s, expected, d, w).0;
    var b, b' := s.business.value, s'.business.value;
    if b' != b {
      RowsDecided(b, b', history, Agreed(s, history));
    }
  }

  lemma CheckpointDecisionIsSound(s: Stores, history: seq<Plan>, expected: Uuid, d: Decision, w: Workflow)
    requires StoresSound(s, history)
    requires DecisionSound(s, history, expected, d, w) && DecisionTaken(s, expected, d)
    ensures var (s', t') := CheckpointDecision(s, d, w);
            && StoresSound(s', history) && Later(s, history, s', history) && t'.Done?
            && s'.business == s.business && s'.checkpoint.value.plan == s.checkpoint.value.plan
  {
    hide RowsSound;
  }

  /** A replacement is checkpointed exactly over the waiting plan it replaces. */
  lemma ReplacementChecked(s: Stores, history: seq<Plan>, expected: Uuid, w: Workflow,
                           replacement: Plan, env: Environment)
    requires StoresSound(s, history) && EditSound(s, history, expected, w)
    ensures var (s', t') := CheckpointEdit(s, expected, w, replacement, env);
            || (s' == s && t'.Done?)
            || (&& s.checkpoint == Some(w) && w.revision == |history| == Agreed(s, history) + 1
                && w.plan == Last(history) && ReplacementFits(w.plan, replacement)
                && s' == s.(checkpoint := Some(AwaitingHuman(replacement, |history| + 1)))
                && t' == EditStaged(expected, w, replacement, true))
  {
    hide RowsSound, OperationSound, ReplacementFits, HistorySound;
  }

  lemma RowsOutlast(b: Business, history: seq<Plan>, agreed: int, next: Plan)
    requires RowsSound(b, history, agreed)
    ensures RowsSound(b, history + [next], agreed)
  {
    forall id | id in b.plans
      ensures exists k :: 0 <= k <= agreed && (history + [next])[k].planId == id
    {
      var k :| 0 <= k <= agreed && history[k].planId == id;
      assert (history + [next])[k].planId == id;
    }
  }

  lemma CheckpointEditIsSound(s: Stores, history: seq<Plan>, minted: set<Uuid>,
                              expected: Uuid, w: Workflow, replacement: Plan, env: Environment)
    requires StoresSound(s, history)
    requires EditSound(s, history, expected, w) && replacement.planId !in Ids(history)
    ensures var (s', t') := CheckpointEdit(s, expected, w, replacement, env);
            var history' := Extended(history, s'.checkpoint);
            && StoresSound(s', history') && Later(s, history, s', history')
            && ThreadSound(s', history', minted, t') && !t'.EditBuilt?
            && (history' == history || history' == history + [replacement])
  {
    hide RowsSound, CheckpointEdit;
    ReplacementChecked(s, history, expected, w, replacement, env);
    var s' := CheckpointEdit(s, expected, w, replacement, env).0;
    if s' != s {
      RowsOutlast(s.business.value, history, |history| - 1, replacement);
      HistoryGrows(history, replacement);
    }
  }

  lemma HistoryGrows(history: seq<Plan>, next: Plan)
    requires HistorySound(history) && ReplacementFits(Last(history), next)
    requires next.planId !in Ids(history)
    ensures HistorySound(history + [next])
  {
    forall i | 0 <= i < |history| ensures history[i].planId != next.planId {
      assert history[i].planId in Ids(history);
    }
  }

  /** The approval takes a replacement exactly from the plan before it, while it waits there. */
  lemma ReplacementTaken(s: Stores, history: seq<Plan>, expected: Uuid, w: Workflow,
                         replacement: Plan, isNew: bool)
    requires StoresSound(s, history)
    requires StagedSound(s, history, expected, replacement, if isNew then w.revision else w.revision - 1)
    ensures var r := CommitEdit(s.business.value, expected, replacement, isNew);
            r.Ok? ==>
              && Agreed(s, history) == |history| - 2
              && replacement == Last(history) && replacement.planId !in s.business.value.plans
              && expected == history[|history| - 2].planId
              && s.business.value.status.WaitingApproval?
              && s.business.value.operation.status == Follows(WaitingApproval)
  {
    var b, a := s.business.value, Agreed(s, history);
    assert RowsSound(b, history, a);
  }

  lemma DistinctPlans(history: seq<Plan>, i: nat, k: nat)
    requires HistorySound(history) && i < |history| && k < |history|
    ensures history[i].planId == history[k].planId <==> i == k
  {
  }

  lemma RowsReplaced(b: Business, b': Business, history: seq<Plan>, agreed: int)
    requires HistorySound(history) && RowsSound(b, history, agreed) && agreed == |history| - 2
    requires b'.planId == Last(history).planId && b'.planId !in b.plans && b'.status.WaitingApproval?
    requires b'.plans == WithRowStatus(b.plans[b'.planId := PlanRow(Last(history), Current(WaitingApproval))],
                                       b.planId, Superseded)
    ensures RowsSound(b', history, |history| - 1)
  {
    hide HistorySound;
    forall k | 0 <= k < |history|
      ensures history[k].planId in b'.plans
      ensures b'.plans[history[k].planId]
           == PlanRow(history[k], if k < |history| - 1 then Superseded else Current(b'.status))
    {
      DistinctPlans(history, k, agreed);
      DistinctPlans(history, k, |history| - 1);
    }
    forall id | id in b'.plans
      ensures exists k :: 0 <= k <= |history| - 1 && history[k].planId == id
    {
      if id != b'.planId { assert id in b.plans; }
    }
  }

  lemma CommitReplacementIsSound(s: Stores, history: seq<Plan>, expected: Uuid, w: Workflow,
                                 replacement: Plan, isNew: bool, env: Environment)
    requires StoresSound(s, history)
    requires StagedSound(s, history, expected, replacement, if isNew then w.revision else w.revision - 1)
    ensures var (s', t') := CommitReplacement(s, expected, w, replacement, isNew, env);
            && StoresSound(s', history) && Later(s, history, s', history)
            && (t'.Done? || t'.EditCommitted?)
            && s'.checkpoint == s.checkpoint
  {
    ReplacementTaken(s, history, expected, w, replacement, isNew);
    assert s.business.value.planId == history[Agreed(s, history)].planId;
    hide RowsSound, HistorySound, StagedSound, WithRowStatus;
    var s' := CommitReplacement(s, expected, w, replacement, isNew, env).0;
    if s' != s {
      RowsReplaced(s.business.value, s'.business.value, history, Agreed(s, history));
    }
  }

  lemma StandsStill(s: Stores, history: seq<Plan>)
    requires StoresSound(s, history)
    ensures Later(s, history, s, history)
  {
  }

  /** One step of any call keeps the stores sound, and everything else only moves on. */
  lemma ThreadStepIsSound(s: Stores, history: seq<Plan>, minted: set<Uuid>, t: Thread, env: Environment)
    requires StoresSound(s, history) && ThreadSound(s, history, minted, t) && Ids(history) <= minted
    requires t.EditBuilding? ==> env.newId !in minted
    ensures var (s', t') := ThreadStep(s, t, env);
            var history' := Extended(history, s'.checkpoint);
            && StoresSound(s', history') && Later(s, history, s', history')
            && ThreadSound(s', history', minted + {env.newId}, t')
            && (t'.EditBuilt? ==> t.EditBuilding? && t'.replacement.planId == env.newId)
            && (history' == history
                || (t.EditBuilt? && history' == history + [t.replacement]))
  {
    hide StoresSound, Later, DecisionSound, DecisionTaken, EditSound, StagedSound, Held, Ids,
      LoadForDecision, ReadApproval, CommitDecision, CheckpointDecision, ReadForEdit, Build,
      CheckpointEdit, CommitReplacement, Reload;
    StandsStill(s, history);
    AgreedPlan(s, history);
    match t
    case DecideStart(_, _) => DecisionLoadsAreSound(s, history, minted, t, env);
    case DecideLoaded(_, _, _) => DecisionLoadsAreSound(s, history, minted, t, env);
    case DecideDue(expected, d, w) => CommitDecisionIsSound(s, history, minted, expected, d, w);
    case DecideAgreed(expected, d, w) =>
      CheckpointDecisionIsSound(s, history, expected, d, w);
      AgreedPlan(CheckpointDecision(s, d, w).0, history);
    case EditStart(_, _) => EditLoadsAreSound(s, history, minted, t, env);
    case EditLoaded(_, _, _) => EditLoadsAreSound(s, history, minted, t, env);
    case EditBuilding(_, _, _) => BuildIsSound(s, history, minted, t, env);
    case EditBuilt(expected, w, replacement) =>
      CheckpointEditIsSound(s, history, minted, expected, w, replacement, env);
    case EditStaged(expected, w, replacement, isNew) =>
      CommitReplacementIsSound(s, history, expected, w, replacement, isNew, env);
    case EditCommitted => EditLoadsAreSound(s, history, minted, t, env);
    case Done(_) =>
  }

  lemma ExecuteIsSound(s: Stores, history: seq<Plan>, operation: OperationRow)
    requires StoresSound(s, history) && GatePasses(s)
    requires operation.status.InExecution? && operation.planId == s.business.value.planId
    ensures var s' := s.(business := Some(s.business.value.(operation := operation)));
            StoresSound(s', history) && Later(s, history, s', history)
  {
  }

  lemma AdvanceKeepsIds(x: World, i: nat, env: Environment)
    requires WorldSound(x) && Enabled(x, Advance(i, env))
    ensures var x' := ApplyMove(x, Advance(i, env));
            && Ids(x'.history) <= x'.minted
            && (forall j, k :: 0 <= j < k < |x'.threads| && x'.threads[j].EditBuilt? && x'.threads[k].EditBuilt?
                  ==> x'.threads[j].replacement.planId != x'.threads[k].replacement.planId)
  {
    hide StoresSound, ThreadSound, ThreadStep, Later, Extended, HistorySound, Ids;
    var t := x.threads[i];
    var x' := ApplyMove(x, Advance(i, env));
    ThreadStepIsSound(x.stores, x.history, x.minted, t, env);
    if x'.history != x.history {
      IdsGrow(x.history, t.replacement);
      BuiltIsMinted(x, i);
    }
    forall j, k | 0 <= j < k < |x'.threads| && x'.threads[j].EditBuilt? && x'.threads[k].EditBuilt?
      ensures x'.threads[j].replacement.planId != x'.threads[k].replacement.planId
    {
      if j == i { BuiltIsMinted(x, k); } else if k == i { BuiltIsMinted(x, j); }
    }
  }

  lemma AdvanceKeepsThread(x: World, i: nat, env: Environment, k: nat)
    requires WorldSound(x) && Enabled(x, Advance(i, env)) && k < |x.threads|
    ensures var x' := ApplyMove(x, Advance(i, env));
            ThreadSound(x'.stores, x'.history, x'.minted, x'.threads[k])
  {
    hide StoresSound, ThreadSound, ThreadStep, Later, Extended, Ids;
    var t := x.threads[i];
    var x' := ApplyMove(x, Advance(i, env));
    ThreadStepIsSound(x.stores, x.history, x.minted, t, env);
    if k != i {
      if x.threads[k].EditBuilt? { BuiltStaysNew(x, i, k, env); }
      ThreadStaysSound(x.stores, x.history, x.minted, x'.stores, x'.history, x'.minted, x.threads[k]);
    } else if !t.EditBuilding? {
      OnlyBuildingMints(x'.stores, x'.history, x.minted, env.newId, x'.threads[k]);
    }
  }

  /** The step of thread `i`, seen from all the threads. */
  lemma AdvanceIsSound(x: World, i: nat, env: Environment)
    requires WorldSound(x) && Enabled(x, Advance(i, env))
    ensures var x' := ApplyMove(x, Advance(i, env));
            WorldSound(x') && Later(x.stores, x.history, x'.stores, x'.history)
  {
    hide StoresSound, ThreadSound, ThreadStep, Later, Extended, Ids;
    var x' := ApplyMove(x, Advance(i, env));
    ThreadStepIsSound(x.stores, x.history, x.minted, x.threads[i], env);
    AdvanceKeepsIds(x, i, env);
    forall k | 0 <= k < |x'.threads|
      ensures ThreadSound(x'.stores, x'.history, x'.minted, x'.threads[k])
    {
      AdvanceKeepsThread(x, i, env, k);
    }
  }

  lemma IdsGrow(history: seq<Plan>, next: Plan)
    ensures Ids(history + [next]) == Ids(history) + {next.planId}
  {
    var longer := history + [next];
    assert forall i :: 0 <= i < |history| ==> longer[i] == history[i];
    assert longer[|history|] == next;
    assert Ids(longer) <= Ids(history) + {next.planId};
    forall id | id in Ids(history) + {next.planId} ensures id in Ids(longer) {
      if id in Ids(history) {
        var i :| 0 <= i < |history| && history[i].planId == id;
        assert longer[i].planId == id;
      }
    }
  }

  lemma BuiltIsMinted(x: World, k: nat)
    requires WorldSound(x) && k < |x.threads| && x.threads[k].EditBuilt?
    ensures x.threads[k].replacement.planId in x.minted
    ensures x.threads[k].replacement.planId !in Ids(x.history)
  {
    assert ThreadSound(x.stores, x.history, x.minted, x.threads[k]);
  }

  lemma OnlyBuildingMints(s: Stores, history: seq<Plan>, minted: set<Uuid>, id: Uuid, t: Thread)
    requires ThreadSound(s, history, minted + {id}, t) && !t.EditBuilt?
    ensures ThreadSound(s, history, minted, t)
  {
  }

  lemma BuiltStaysNew(x: World, i: nat, k: nat, env: Environment)
    requires WorldSound(x) && Enabled(x, Advance(i, env)) && k < |x.threads| && k != i
    requires x.threads[k].EditBuilt?
    ensures x.threads[k].replacement.planId !in Ids(ApplyMove(x, Advance(i, env)).history)
  {
    hide StoresSound, ThreadSound, ThreadStep, Later, Extended, Ids;
    ThreadStepIsSound(x.stores, x.history, x.minted, x.threads[i], env);
    BuiltIsMinted(x, k);
    var x' := ApplyMove(x, Advance(i, env));
    if x'.history != x.history {
      IdsGrow(x.history, x.threads[i].replacement);
    }
  }

  lemma MoveKeepsSound(x: World, m: Move)
    requires WorldSound(x) && Enabled(x, m)
    ensures WorldSound(ApplyMove(x, m))
    ensures Later(x.stores, x.history, ApplyMove(x, m).stores, ApplyMove(x, m).history)
  {
    hide StoresSound, Later, Ids, ThreadStep, Held, EditSound, DecisionSound, StagedSound,
      DecisionTaken;
    match m
    case Advance(i, env) => AdvanceIsSound(x, i, env);
    case Execute(stage) => ExecuteKeepsWorld(x, stage);
    case StartDecision(expected, d) => StandsStill(x.stores, x.history);
    case StartEdit(expected, changes) => StandsStill(x.stores, x.history);
  }

  lemma ExecuteKeepsWorld(x: World, stage: ExecutionStage)
    requires WorldSound(x)
    ensures WorldSound(ApplyMove(x, Execute(stage)))
    ensures var x' := ApplyMove(x, Execute(stage));
            Later(x.stores, x.history, x'.stores, x'.history)
  {
    hide StoresSound, Later, ThreadSound, Ids, GatePasses;
    StandsStill(x.stores, x.history);
    if GatePasses(x.stores) {
      GateHasBusiness(x.stores);
      var b := x.stores.business.value;
      ExecuteIsSound(x.stores, x.history,
                     OperationRow(InExecution(stage), b.planId, b.operation.revision + 1));
      var x' := ApplyMove(x, Execute(stage));
      forall k | 0 <= k < |x.threads|
        ensures ThreadSound(x'.stores, x'.history, x'.minted, x'.threads[k])
      {
        if x.threads[k].EditBuilt? { BuiltIsMinted(x, k); }
        ThreadStaysSound(x.stores, x.history, x.minted, x'.stores, x'.history, x'.minted, x.threads[k]);
      }
    }
  }

  lemma GateHasBusiness(s: Stores)
    requires GatePasses(s)
    ensures s.business.Some?
  {
  }

  lemma OpeningIsSound(plan: Plan)
    ensures WorldSound(Opening(plan))
  {
    var b := Created(plan).business.value;
    assert Opening(plan).history[0].planId == plan.planId;
    assert RowsSound(b, [plan], 0);
  }

  lemma {:induction false} TracesAreSound(worlds: seq<World>, moves: seq<Move>)
    requires IsTrace(worlds, moves)
    ensures forall i :: 0 <= i < |worlds| ==> WorldSound(worlds[i])
    decreases |moves|
  {
    hide WorldSound, ApplyMove;
    var plan :| worlds[0] == Opening(plan);
    OpeningIsSound(plan);
    if moves != [] {
      var n := |moves| - 1;
      TracesAreSound(worlds[..n + 1], moves[..n]);
      forall i | 0 <= i < |worlds| ensures WorldSound(worlds[i]) {
        if i <= n {
          assert worlds[i] == worlds[..n + 1][i];
        } else {
          assert worlds[n] == worlds[..n + 1][n];
          MoveKeepsSound(worlds[n], moves[n]);
        }
      }
    }
  }
}
