/**
  The one way out of agreement. A decision and an edit that overlap can leave the approval decided
  on a plan the checkpoint has already replaced; crashes alone cannot.
 */
module OrganizationWedge {
  import opened Common
  import opened OrganizationWorkflow
  import opened OrganizationDecisions
  import opened OrganizationInterleaving
  import opened OrganizationOutcomes

  /** A call and the number of its steps after which it dies; enough steps and it answers. */
  datatype Attempt =
    | Deciding(expected: Uuid, decision: Decision, env: Environment, limit: nat)
    | Editing(expected: Uuid, changes: map<FileId, string>, env: Environment, limit: nat)

  function AfterAttempt(s: Stores, a: Attempt): Stores {
    match a
    case Deciding(expected, d, env, limit) => RunUpTo(s, DecideStart(expected, d), env, limit).0
    case Editing(expected, changes, env, limit) =>
      RunUpTo(s, EditStart(expected, changes), env, limit).0
  }

  function AfterAttempts(s: Stores, attempts: seq<Attempt>): Stores {
    if attempts == [] then s
    else AfterAttempt(AfterAttempts(s, attempts[..|attempts| - 1]), Last(attempts))
  }

  /** Every attempt draws an id of its own. */
  predicate DistinctIds(plan: Plan, attempts: seq<Attempt>) {
    && (forall i :: 0 <= i < |attempts| ==> attempts[i].env.newId != plan.planId)
    && (forall i, k :: 0 <= i < k < |attempts| ==> attempts[i].env.newId != attempts[k].env.newId)
  }

  /** Calls one after another, each dying wherever it likes: the stores never wedge. */
  lemma {:induction false} CrashesNeverWedge(plan: Plan, attempts: seq<Attempt>)
    returns (history: seq<Plan>)
    requires DistinctIds(plan, attempts)
    ensures StoresSound(AfterAttempts(Created(plan), attempts), history)
    ensures PhaseOf(AfterAttempts(Created(plan), attempts)) != Wedged
    ensures forall id :: id in Ids(history) ==>
              id == plan.planId || exists i :: 0 <= i < |attempts| && attempts[i].env.newId == id
    decreases |attempts|
  {
    hide StoresSound, RunUpTo;
    if attempts == [] {
      OpeningIsSound(plan);
      history := [plan];
    } else {
      var n := |attempts| - 1;
      var a := Last(attempts);
      history := CrashesNeverWedge(plan, attempts[..n]);
      var s := AfterAttempts(Created(plan), attempts[..n]);
      forall id | id in Ids(history) ensures id != a.env.newId {
        if id != plan.planId {
          var i :| 0 <= i < n && attempts[..n][i].env.newId == id;
        }
      }
      match a {
        case Deciding(expected, d, env, limit) =>
          DecisionSurvivesCrash(s, history, expected, d, env, limit);
        case Editing(expected, changes, env, limit) =>
          history := EditSurvivesCrash(s, history, expected, changes, env, limit);
      }
      forall id | id in Ids(history)
        ensures id == plan.planId || exists i :: 0 <= i < |attempts| && attempts[i].env.newId == id
      {
        if id != plan.planId {
          if id == a.env.newId {
            assert attempts[n].env.newId == id;
          } else {
            var i :| 0 <= i < n && attempts[..n][i].env.newId == id;
            assert attempts[i].env.newId == id;
          }
        }
      }
    }
  }

  // ---- how the stores wedge ----

  ghost predicate IsWedged(s: Stores) {
    s.business.Some? && s.checkpoint.Some? && PhaseOf(s) == Wedged
  }

  /** An edit staging its plan although the approval has been decided meanwhile. */
  predicate StagesOverDecision(s: Stores, t: Thread, env: Environment)
    requires s.business.Some? && s.checkpoint.Some?
  {
    && t.EditBuilt? && PhaseOf(s) == HalfDecided
    && s.checkpoint == Some(t.held)
    && ReplacementFits(t.held.plan, t.replacement) && env.validates
  }

  /** A decision committing although the checkpoint has meanwhile moved to another plan. */
  predicate DecidesUnderEdit(s: Stores, t: Thread)
    requires s.business.Some? && s.checkpoint.Some?
  {
    t.DecideDue? && PhaseOf(s) == Ahead && s.business.value.planId == t.expected
  }

  /** Of all moves, the two steps that wedge the stores, and no other does. */
  lemma WedgesExactly(x: World, m: Move)
    requires WorldSound(x) && Enabled(x, m) && !IsWedged(x.stores)
    ensures IsWedged(ApplyMove(x, m).stores)
            <==> m.Advance? && (|| StagesOverDecision(x.stores, x.threads[m.thread], m.env)
                                || DecidesUnderEdit(x.stores, x.threads[m.thread]))
  {
    hide StoresSound, ThreadSound, ThreadStep, StagesOverDecision, DecidesUnderEdit, Extended, Ids;
    SoundShape(x.stores, x.history);
    if m.Advance? {
      StepWedgesExactly(x, m.thread, m.env);
    }
  }

  lemma StepWedgesExactly(x: World, i: nat, env: Environment)
    requires WorldSound(x) && Enabled(x, Advance(i, env)) && !IsWedged(x.stores)
    ensures IsWedged(ApplyMove(x, Advance(i, env)).stores)
            <==> StagesOverDecision(x.stores, x.threads[i], env) || DecidesUnderEdit(x.stores, x.threads[i])
  {
    hide StoresSound, CommitDecision, CheckpointDecision, CheckpointEdit, CommitReplacement, Build,
         ReadForEdit, ReplacementFits, Extended, Ids;
    var s, t := x.stores, x.threads[i];
    assert ThreadSound(s, x.history, x.minted, t);
    SoundShape(s, x.history);
    match t
    case DecideDue(expected, d, w) => DueInPhase(s, x.history, expected, d, w);
    case DecideAgreed(_, d, w) => RunsInPhase(s, x.history, d, w);
    case EditBuilt(expected, w, replacement) => BuiltInPhase(s, x.history, expected, w, replacement, env);
    case EditStaged(expected, w, replacement, isNew) =>
      StagedInPhase(s, x.history, expected, w, replacement, isNew, env);
    case _ =>
  }

  lemma StagedInPhase(s: Stores, history: seq<Plan>, expected: Uuid, w: Workflow, replacement: Plan,
                      isNew: bool, env: Environment)
    requires StoresSound(s, history) && PhaseOf(s) != Wedged
    requires StagedSound(s, history, expected, replacement, if isNew then w.revision else w.revision - 1)
    ensures CommitReplacement(s, expected, w, replacement, isNew, env).0.business.Some?
    ensures CommitReplacement(s, expected, w, replacement, isNew, env).0.checkpoint == s.checkpoint
    ensures PhaseOf(CommitReplacement(s, expected, w, replacement, isNew, env).0) != Wedged
  {
    ReplacementTaken(s, history, expected, w, replacement, isNew);
    hide RowsSound, HistorySound, StagedSound, CheckpointSound;
  }

  lemma DueInPhase(s: Stores, history: seq<Plan>, expected: Uuid, d: Decision, w: Workflow)
    requires StoresSound(s, history) && PhaseOf(s) != Wedged
    ensures CommitDecision(s, expected, d, w).0.business.Some?
    ensures CommitDecision(s, expected, d, w).0.checkpoint == s.checkpoint
    ensures PhaseOf(CommitDecision(s, expected, d, w).0) == Wedged
            <==> PhaseOf(s) == Ahead && s.business.value.planId == expected
  {
    assert s.business.value.planId == history[Agreed(s, history)].planId;
    assert RowWaits(s.business.value, s.business.value.planId) || !s.business.value.status.WaitingApproval?;
    SoundShape(s, history);
    hide RowsSound, HistorySound;
  }

  lemma RunsInPhase(s: Stores, history: seq<Plan>, d: Decision, w: Workflow)
    requires StoresSound(s, history) && PhaseOf(s) != Wedged
    ensures CheckpointDecision(s, d, w).0.business == s.business
    ensures PhaseOf(CheckpointDecision(s, d, w).0) != Wedged
  {
    hide StoresSound;
  }

  lemma BuiltInPhase(s: Stores, history: seq<Plan>, expected: Uuid, w: Workflow, replacement: Plan,
                     env: Environment)
    requires StoresSound(s, history) && PhaseOf(s) != Wedged
    requires EditSound(s, history, expected, w) && replacement.planId !in Ids(history)
    ensures CheckpointEdit(s, expected, w, replacement, env).0.business == s.business
    ensures CheckpointEdit(s, expected, w, replacement, env).0.checkpoint.Some?
    ensures PhaseOf(CheckpointEdit(s, expected, w, replacement, env).0) == Wedged
            <==> PhaseOf(s) == HalfDecided && s.checkpoint == Some(w)
                 && ReplacementFits(w.plan, replacement) && env.validates
  {
    SoundShape(s, history);
    ReplacementChecked(s, history, expected, w, replacement, env);
    hide RowsSound, HistorySound, OperationSound, ReplacementFits;
  }

  /** Once wedged, no step of any call, under way or new, changes either store again. */
  lemma WedgedForever(x: World, m: Move)
    requires WorldSound(x) && Enabled(x, m) && IsWedged(x.stores)
    ensures ApplyMove(x, m).stores == x.stores
  {
    hide StoresSound, CheckpointDecision, CheckpointEdit, CommitEdit, Build, ReadForEdit,
         LoadForDecision, ReadApproval, ReplacementFits, Extended, Ids;
    var s := x.stores;
    SoundShape(s, x.history);
    if m.Advance? {
      var t := x.threads[m.thread];
      assert ThreadSound(s, x.history, x.minted, t);
      match t
      case DecideAgreed(expected, d, w) => AgreedIsLate(s, x.history, expected, d, w);
      case EditBuilt(expected, w, replacement) =>
        ReplacementChecked(s, x.history, expected, w, replacement, m.env);
      case EditStaged(expected, w, replacement, isNew) =>
        ReplacementTaken(s, x.history, expected, w, replacement, isNew);
      case _ =>
    }
  }

  lemma AgreedIsLate(s: Stores, history: seq<Plan>, expected: Uuid, d: Decision, w: Workflow)
    requires StoresSound(s, history) && IsWedged(s)
    requires DecisionSound(s, history, expected, d, w) && DecisionTaken(s, expected, d)
    ensures CheckpointDecision(s, d, w).0 == s
  {
    SoundShape(s, history);
    hide RowsSound, HistorySound, OperationSound;
  }

  /** A wedge outlives the trace, and every call alone is refused on it. */
  lemma {:induction false} WedgedToTheEnd(worlds: seq<World>, moves: seq<Move>, i: nat, k: nat)
    requires IsTrace(worlds, moves) && i <= k < |worlds| && IsWedged(worlds[i].stores)
    ensures worlds[k].stores == worlds[i].stores
    ensures forall e, d :: !DecisionFits(worlds[k].stores, e, d)
    ensures forall e, changes, env :: !EditFits(worlds[k].stores, e, changes, env)
    decreases k
  {
    hide WorldSound, ApplyMove;
    TracesAreSound(worlds, moves);
    if i < k {
      WedgedToTheEnd(worlds, moves, i, k - 1);
      WedgedForever(worlds[k - 1], moves[k - 1]);
    }
  }

  // ---- the wedge is reachable ----

  lemma TraceGoesOn(worlds: seq<World>, moves: seq<Move>, m: Move)
    returns (worlds': seq<World>, moves': seq<Move>)
    requires IsTrace(worlds, moves) && Enabled(Last(worlds), m)
    ensures IsTrace(worlds', moves') && worlds' != [] && worlds'[0] == worlds[0]
    ensures Last(worlds') == ApplyMove(Last(worlds), m)
  {
    hide ApplyMove, Enabled;
    worlds', moves' := worlds + [ApplyMove(Last(worlds), m)], moves + [m];
    forall i | 0 <= i < |moves'|
      ensures Enabled(worlds'[i], moves'[i]) && worlds'[i + 1] == ApplyMove(worlds'[i], moves'[i])
    {
      assert worlds'[i] == worlds[i];
    }
  }

  lemma Opened(plan: Plan) returns (worlds: seq<World>, moves: seq<Move>)
    ensures IsTrace(worlds, moves) && worlds == [Opening(plan)]
  {
    worlds, moves := [Opening(plan)], [];
  }

  lemma CallStarts(worlds: seq<World>, moves: seq<Move>, m: Move, t: Thread)
    returns (worlds': seq<World>, moves': seq<Move>)
    requires IsTrace(worlds, moves)
    requires || (m.StartEdit? && t == EditStart(m.expected, m.changes))
             || (m.StartDecision? && t == DecideStart(m.expected, m.decision))
    ensures IsTrace(worlds', moves') && worlds' != [] && worlds'[0] == worlds[0]
    ensures Last(worlds') == Last(worlds).(threads := Last(worlds).threads + [t])
  {
    hide IsTrace, ThreadStep, GatePasses;
    worlds', moves' := TraceGoesOn(worlds, moves, m);
  }

  /** One call takes a step that leaves the stores as created. */
  lemma CallReads(worlds: seq<World>, moves: seq<Move>, i: nat, env: Environment, t: Thread)
    returns (worlds': seq<World>, moves': seq<Move>)
    requires IsTrace(worlds, moves) && i < |Last(worlds).threads|
    requires var x := Last(worlds);
             && (exists plan :: x.stores == Created(plan) && x.history == [plan])
             && ThreadStep(x.stores, x.threads[i], env) == (x.stores, t)
             && (x.threads[i].EditBuilding? ==> env.newId !in x.minted)
    ensures IsTrace(worlds', moves') && worlds' != [] && worlds'[0] == worlds[0]
    ensures var x := Last(worlds);
            Last(worlds') == World(x.stores, x.threads[i := t],
                                   if x.threads[i].EditBuilding? then x.minted + {env.newId}
                                   else x.minted,
                                   x.history)
  {
    hide IsTrace, ThreadStep, GatePasses;
    worlds', moves' := TraceGoesOn(worlds, moves, Advance(i, env));
  }

  lemma EditReads(plan: Plan, changes: map<FileId, string>, env: Environment)
    requires EditFits(Created(plan), plan.planId, changes, env)
    ensures var s, id, w := Created(plan), plan.planId, AwaitingHuman(plan, 1);
            && ThreadStep(s, EditStart(id, changes), env) == (s, EditLoaded(id, changes, w))
            && ThreadStep(s, EditLoaded(id, changes, w), env)
               == (s, EditBuilding(id, MergedTargets(plan, changes), w))
  {
    hide MergedTargets, CommitDecision, CheckpointDecision, CheckpointEdit, CommitReplacement;
  }

  /** A decision in between does not keep the edit from building its plan. */
  lemma EditBuilds(plan: Plan, d: Decision, changes: map<FileId, string>, env: Environment)
    requires EditFits(Created(plan), plan.planId, changes, env) && env.newId != plan.planId
    ensures var id, w, targets := plan.planId, AwaitingHuman(plan, 1), MergedTargets(plan, changes);
            var decided := CommitDecision(Created(plan), id, d, w).0;
            && BuildPlan(plan.workspaceId, targets, env).Some?
            && decided.checkpoint == Some(w) && decided.business.Some? && PhaseOf(decided) == HalfDecided
            && ThreadStep(decided, EditBuilding(id, targets, w), env)
               == (decided, EditBuilt(id, w, BuildPlan(plan.workspaceId, targets, env).value))
  {
    BuiltFits(plan, changes, env);
    hide MergedTargets, CheckpointDecision, CheckpointEdit, CommitReplacement, BuildPlan;
  }

  lemma DecisionReads(plan: Plan, d: Decision, env: Environment)
    ensures var s, id, w := Created(plan), plan.planId, AwaitingHuman(plan, 1);
            && ThreadStep(s, DecideStart(id, d), env) == (s, DecideLoaded(id, d, w))
            && ThreadStep(s, DecideLoaded(id, d, w), env) == (s, DecideDue(id, d, w))
  {
    hide CommitDecision, CheckpointDecision, CheckpointEdit, CommitReplacement;
  }

  /** The two calls once the edit has read the approval and the decision is about to commit. */
  lemma BothUnderWay(plan: Plan, d: Decision, changes: map<FileId, string>, env: Environment)
    returns (worlds: seq<World>, moves: seq<Move>)
    requires EditFits(Created(plan), plan.planId, changes, env)
    ensures IsTrace(worlds, moves) && worlds != [] && worlds[0] == Opening(plan)
    ensures var id, w := plan.planId, AwaitingHuman(plan, 1);
            Last(worlds) == World(Created(plan),
                                  [EditBuilding(id, MergedTargets(plan, changes), w),
                                   DecideDue(id, d, w)],
                                  {id}, [plan])
  {
    hide MergedTargets, IsTrace, GatePasses, Enabled, ApplyMove, ThreadStep, EditFits;
    var s, edit, decision := Created(plan), EditStart(plan.planId, changes), DecideStart(plan.planId, d);
    var w := AwaitingHuman(plan, 1);
    worlds, moves := Opened(plan);
    worlds, moves := CallStarts(worlds, moves, StartEdit(plan.planId, changes), edit);
    worlds, moves := CallStarts(worlds, moves, StartDecision(plan.planId, d), decision);
    assert Last(worlds) == World(s, [edit, decision], {plan.planId}, [plan]);
    EditReads(plan, changes, env);
    worlds, moves := CallReads(worlds, moves, 0, env, EditLoaded(plan.planId, changes, w));
    var building := EditBuilding(plan.planId, MergedTargets(plan, changes), w);
    worlds, moves := CallReads(worlds, moves, 0, env, building);
    DecisionReads(plan, d, env);
    worlds, moves := CallReads(worlds, moves, 1, env, DecideLoaded(plan.planId, d, w));
    worlds, moves := CallReads(worlds, moves, 1, env, DecideDue(plan.planId, d, w));
    assert Last(worlds).threads == [building, DecideDue(plan.planId, d, w)];
  }

  /**
    From every plan: whatever the decision and whatever edit that could go through, the two wedge
    the stores when the decision commits after the edit has read the approval and before it builds
    its plan. No store is written by one call while the other holds a write open.
   */
  lemma WedgeIsReachable(plan: Plan, d: Decision, changes: map<FileId, string>, env: Environment)
    returns (worlds: seq<World>, moves: seq<Move>)
    requires EditFits(Created(plan), plan.planId, changes, env) && env.newId != plan.planId
    ensures IsTrace(worlds, moves) && worlds[0] == Opening(plan)
    ensures IsWedged(Last(worlds).stores)
  {
    hide MergedTargets, BuildPlan, IsTrace, WorldSound, CommitDecision, CheckpointEdit, GatePasses;
    worlds, moves := BothUnderWay(plan, d, changes, env);
    var w := AwaitingHuman(plan, 1);
    EditBuilds(plan, d, changes, env);
    BuiltFits(plan, changes, env);
    var decided := CommitDecision(Created(plan), plan.planId, d, w).0;
    worlds, moves := TraceGoesOn(worlds, moves, Advance(1, env));
    assert Last(worlds).stores == decided;
    worlds, moves := TraceGoesOn(worlds, moves, Advance(0, env));
    assert Last(worlds).stores == decided;
    assert StagesOverDecision(decided, Last(worlds).threads[0], env);
    SoundAtTheEnd(worlds, moves);
    WedgesExactly(Last(worlds), Advance(0, env));
    worlds, moves := TraceGoesOn(worlds, moves, Advance(0, env));
  }

  lemma SoundAtTheEnd(worlds: seq<World>, moves: seq<Move>)
    requires IsTrace(worlds, moves)
    ensures WorldSound(Last(worlds))
  {
    hide WorldSound;
    TracesAreSound(worlds, moves);
  }
}
