/**
  What callers can rely on: which plans reach execution, what a call left alone achieves, what a
  crash leaves behind, and the one state no call leads out of.
 */
module OrganizationOutcomes {
  import opened Common
  import opened OrganizationWorkflow
  import opened OrganizationDecisions
  import opened OrganizationInterleaving

  // ---- safety in every interleaving ----

  /**
    In every interleaving: a checkpoint that carries a decision carries the one the approval row
    holds for the very same plan, and that plan still moves the files of the first one. So the
    gate to execution opens exactly with a ready checkpoint, and the execution's own check agrees.
   */
  lemma DecidedOnlyAsApproved(worlds: seq<World>, moves: seq<Move>, i: nat)
    requires IsTrace(worlds, moves) && i < |worlds|
    ensures var s := worlds[i].stores;
            && s.business.Some? && s.checkpoint.Some?
            && var b, w := s.business.value, s.checkpoint.value;
            && (!w.status.Waiting? ==>
                  && b.planId == w.plan.planId && CheckpointMeans(w, b.status)
                  && w.plan.planId in b.plans
                  && b.plans[w.plan.planId] == PlanRow(w.plan, Current(b.status)))
            && Sources(w.plan) == Sources(worlds[0].history[0])
            && (GatePasses(s) <==> w.status.Ready?)
            && (GatePasses(s) ==> ApprovedFor(s, w.plan))
  {
    TracesAreSound(worlds, moves);
    assert WorldSound(worlds[i]);
    FirstPlanStays(worlds, moves, i);
    var s, h := worlds[i].stores, worlds[i].history;
    var a := Agreed(s, h);
    assert RowsSound(s.business.value, h, a);
    assert h[a].planId in s.business.value.plans;
    hide RowsSound, IsTrace;
  }

  lemma {:induction false} FirstPlanStays(worlds: seq<World>, moves: seq<Move>, i: nat)
    requires IsTrace(worlds, moves) && i < |worlds|
    ensures worlds[0].history != [] && worlds[i].history != []
    ensures worlds[i].history[0] == worlds[0].history[0]
  {
    hide ApplyMove;
    TracesAreSound(worlds, moves);
    if i > 0 {
      FirstPlanStays(worlds, moves, i - 1);
      assert WorldSound(worlds[i - 1]);
      MoveKeepsSound(worlds[i - 1], moves[i - 1]);
    }
  }

  // ---- the phases of the two stores ----

  /** Where the two stores stand to each other. */
  datatype Phase =
    | Aligned        // both wait on one plan
    | Ahead          // the checkpoint waits on a replacement the approval has not taken
    | HalfDecided    // the approval is decided, the checkpoint still waits on that plan
    | Settled        // both carry the decision
    | Wedged         // the approval is decided on a plan the checkpoint has already replaced

  function PhaseOf(s: Stores): Phase
    requires s.business.Some? && s.checkpoint.Some?
  {
    var b, w := s.business.value, s.checkpoint.value;
    if !w.status.Waiting? then Settled
    else if b.planId == w.plan.planId then
      if b.status.WaitingApproval? then Aligned else HalfDecided
    else if b.status.WaitingApproval? then Ahead else Wedged
  }

  // ---- a decision left alone ----

  /** When a decision goes through: its plan is the one both stores know, and nothing else was decided. */
  predicate DecisionFits(s: Stores, expected: Uuid, d: Decision)
    requires s.business.Some? && s.checkpoint.Some?
  {
    var b, w := s.business.value, s.checkpoint.value;
    && w.plan.planId == expected && b.planId == expected
    && (b.status.WaitingApproval? || b.status == DecidedStatus(d))
  }

  /**
    A decision left alone succeeds exactly when it fits, settles both stores on its plan, and
    otherwise changes neither. So one that crashed between its writes is completed by repeating it,
    and only by repeating it.
   */
  lemma DecisionAlone(s: Stores, history: seq<Plan>, expected: Uuid, d: Decision, env: Environment)
    requires StoresSound(s, history)
    ensures var (s', t') := RunAlone(s, DecideStart(expected, d), env);
            && StoresSound(s', history)
            && (t'.outcome.Ok? <==> DecisionFits(s, expected, d))
            && (t'.outcome.Err? ==> s' == s)
            && (t'.outcome.Ok? ==>
                  && PhaseOf(s') == Settled
                  && s'.checkpoint == Some(t'.outcome.value)
                  && s'.business.value.planId == expected == s'.checkpoint.value.plan.planId
                  && s'.business.value.status == DecidedStatus(d))
            && (PhaseOf(s) == Settled ==> s' == s)
  {
    hide RowsSound, HistorySound, OperationSound, StoresSound, CommitDecision, CheckpointDecision;
    var start := DecideStart(expected, d);
    var loaded := LoadForDecision(s, expected, d);
    assert RunAlone(s, start, env) == RunAlone(s, loaded, env);
    SoundShape(s, history);
    if loaded.Done? { return; }
    var w := loaded.held;
    var read := ReadApproval(s, expected, d, w);
    assert RunAlone(s, loaded, env) == RunAlone(s, read, env);
    if read.Done? { return; }
    var s1 := s;
    if read.DecideDue? {
      DueCommits(s, history, expected, d, w);
      s1 := CommitDecision(s, expected, d, w).0;
      assert RunAlone(s, read, env) == RunAlone(s1, DecideAgreed(expected, d, w), env);
    }
    AgreedCheckpoints(s1, history, expected, d, w);
    var (s2, t2) := CheckpointDecision(s1, d, w);
    assert RunAlone(s1, DecideAgreed(expected, d, w), env) == RunAlone(s2, t2, env) == (s2, t2);
  }

  /** What soundness says of the shape of the two stores. */
  lemma SoundShape(s: Stores, history: seq<Plan>)
    requires StoresSound(s, history)
    ensures s.business.Some? && s.checkpoint.Some?
    ensures PhaseOf(s) != Settled ==>
              && history != [] && WaitsForHuman(s.checkpoint.value)
              && s.checkpoint.value == AwaitingHuman(Last(history), |history|)
    ensures PhaseOf(s) == Settled ==>
              && s.business.value.planId == s.checkpoint.value.plan.planId
              && !s.business.value.status.WaitingApproval?
              && forall d :: AlreadyCheckpointed(s.checkpoint.value, d)
                             <==> s.business.value.status == DecidedStatus(d)
    ensures PhaseOf(s) != Settled ==> forall d :: !AlreadyCheckpointed(s.checkpoint.value, d)
  {
    assert history != [];
    hide RowsSound, HistorySound, OperationSound;
  }

  lemma DueCommits(s: Stores, history: seq<Plan>, expected: Uuid, d: Decision, w: Workflow)
    requires StoresSound(s, history) && s.checkpoint == Some(w) && PhaseOf(s) == Aligned
    requires s.business.value.planId == expected
    ensures var (s', t') := CommitDecision(s, expected, d, w);
            && t' == DecideAgreed(expected, d, w)
            && StoresSound(s', history) && s'.checkpoint == s.checkpoint
            && s'.business.Some? && s'.business.value.planId == expected
            && s'.business.value.status == DecidedStatus(d)
  {
    CommitDecisionIsSound(s, history, {}, expected, d, w);
    assert s.business.value.planId == history[Agreed(s, history)].planId;
    assert RowWaits(s.business.value, expected);
    hide RowsSound, HistorySound, StoresSound;
  }

  lemma AgreedCheckpoints(s: Stores, history: seq<Plan>, expected: Uuid, d: Decision, w: Workflow)
    requires StoresSound(s, history) && s.checkpoint == Some(w)
    requires w.plan.planId == expected && DecisionTaken(s, expected, d)
    ensures var (s', t') := CheckpointDecision(s, d, w);
            && StoresSound(s', history)
            && t'.Done? && t'.outcome.Ok? && s'.checkpoint == Some(t'.outcome.value)
            && s'.business == s.business && PhaseOf(s') == Settled
            && s'.checkpoint.value.plan == w.plan
            && (PhaseOf(s) == Settled ==> s' == s)
  {
    hide RowsSound, HistorySound;
    CheckpointDecisionIsSound(s, history, expected, d, w);
  }

  // ---- an edit left alone ----

  /**
    When an edit goes through. Both stores must expect it on the plan it names, it must change files
    of that plan, and the policy must allow proposals. Where the plan is staged already it has to
    ask for what is staged; else the preview and the validator must accept the new plan, which needs
    every file where the current plan found it.
   */
  predicate EditFits(s: Stores, expected: Uuid, changes: map<FileId, string>, env: Environment)
    requires s.business.Some? && s.checkpoint.Some?
  {
    var b, w := s.business.value, s.checkpoint.value;
    && b.status.WaitingApproval? && b.planId == expected
    && changes != map[] && (forall f :: f in changes ==> f in w.plan.operations)
    && env.allows
    && if w.plan.planId != expected then
         forall f :: f in changes ==> changes[f] == w.plan.operations[f].targetDirectory
       else
         && env.accepts && env.validates && env.newId != expected
         && forall f :: f in w.plan.operations ==>
              f in env.paths && env.paths[f] == w.plan.operations[f].sourcePath
  }

  /** The plan `q` is `p` with the changed files going elsewhere, under a new id. */
  predicate EditedAs(p: Plan, q: Plan, newId: Uuid, changes: map<FileId, string>) {
    && q.planId == newId && q.workspaceId == p.workspaceId && q.operations.Keys == p.operations.Keys
    && forall f :: f in p.operations ==>
         && q.operations[f].sourcePath == p.operations[f].sourcePath
         && q.operations[f].targetDirectory
            == if f in changes then changes[f] else p.operations[f].targetDirectory
  }

  /** The plan that is built for an edit, and whether it may replace the current one. */
  lemma BuiltFits(p: Plan, changes: map<FileId, string>, env: Environment)
    ensures var built := BuildPlan(p.workspaceId, MergedTargets(p, changes), env);
            && (built.Some? <==> env.accepts && forall f :: f in p.operations ==> f in env.paths)
            && (built.Some? ==>
                  (ReplacementFits(p, built.value) <==>
                     env.newId != p.planId
                     && forall f :: f in p.operations ==> env.paths[f] == p.operations[f].sourcePath))
            && (built.Some? && ReplacementFits(p, built.value) ==>
                  EditedAs(p, built.value, env.newId, changes))
            && (built.Some? ==> built.value.planId == env.newId
                                && Targets(built.value) == MergedTargets(p, changes))
  {
    var targets := MergedTargets(p, changes);
    assert targets.Keys == p.operations.Keys;
    var built := BuildPlan(p.workspaceId, targets, env);
    if built.Some? {
      var q := built.value;
      assert q.operations.Keys == p.operations.Keys;
      if ReplacementFits(p, q) {
        forall f | f in p.operations ensures env.paths[f] == p.operations[f].sourcePath {
          assert Sources(q)[f] == Sources(p)[f];
        }
      }
    }
  }

  /** A staged plan does what an edit asks for exactly where the edit changes none of it. */
  lemma StagedAsks(p: Plan, changes: map<FileId, string>)
    requires changes.Keys <= p.operations.Keys
    ensures MergedTargets(p, changes) == Targets(p)
            <==> forall f :: f in changes ==> changes[f] == p.operations[f].targetDirectory
  {
    if MergedTargets(p, changes) == Targets(p) {
      forall f | f in changes ensures changes[f] == p.operations[f].targetDirectory {
        assert MergedTargets(p, changes)[f] == Targets(p)[f];
      }
    }
  }

  /**
    An edit left alone succeeds exactly when it fits, and leaves both stores waiting on a plan that
    does what the edit asked for; otherwise neither store changes.
   */
  lemma EditAlone(s: Stores, history: seq<Plan>, expected: Uuid, changes: map<FileId, string>,
                  env: Environment) returns (history': seq<Plan>)
    requires StoresSound(s, history) && env.newId !in Ids(history)
    ensures var (s', t') := RunAlone(s, EditStart(expected, changes), env);
            && StoresSound(s', history')
            && (t'.outcome.Ok? <==> EditFits(s, expected, changes, env))
            && (t'.outcome.Err? ==> s' == s && history' == history)
            && Ids(history') <= Ids(history) + {env.newId}
            && (t'.outcome.Ok? ==>
                  && PhaseOf(s') == Aligned && s'.checkpoint == Some(t'.outcome.value)
                  && Targets(s'.checkpoint.value.plan) == MergedTargets(s.checkpoint.value.plan, changes)
                  && (if PhaseOf(s) == Ahead then s'.checkpoint == s.checkpoint
                      else EditedAs(s.checkpoint.value.plan, s'.checkpoint.value.plan, env.newId, changes))
                  && s'.business.value.planId
                     == (if PhaseOf(s) == Ahead then s.checkpoint.value.plan.planId else env.newId))
  {
    hide StoresSound, CheckpointEdit, CommitReplacement, Build, ReadForEdit;
    SoundShape(s, history);
    history' := history;
    if changes == map[] { return; }
    var w := s.checkpoint.value;
    var loaded := EditLoaded(expected, changes, w);
    var read := ReadForEdit(s, expected, changes, w);
    assert RunAlone(s, EditStart(expected, changes), env) == RunAlone(s, loaded, env)
        == RunAlone(s, read, env);
    ReadAlone(s, history, expected, changes, env);
    if read.EditStaged? {
      StagedCommits(s, history, expected, w, w.plan, false, env);
      var (s2, t2) := CommitReplacement(s, expected, w, w.plan, false, env);
      assert RunAlone(s, read, env) == RunAlone(s2, t2, env) == (s2, t2);
    } else if read.EditBuilding? {
      var targets := MergedTargets(w.plan, changes);
      var built := Build(s, expected, targets, w, env);
      BuiltFits(w.plan, changes, env);
      assert RunAlone(s, read, env) == RunAlone(s, built, env);
      BuildAlone(s, history, expected, targets, w, env);
      if built.EditBuilt? {
        history' := BuiltEditAlone(s, history, expected, w, built.replacement, env);
        IdsGrow(history, built.replacement);
      }
    }
  }

  /** What the checks of an edit come to, when nothing moves under them. */
  lemma ReadAlone(s: Stores, history: seq<Plan>, expected: Uuid, changes: map<FileId, string>,
                  env: Environment)
    requires StoresSound(s, history) && changes != map[]
    ensures var w := s.checkpoint.value;
            var read := ReadForEdit(s, expected, changes, w);
            && (read.EditStaged? ==>
                  read == EditStaged(expected, w, w.plan, false) && PhaseOf(s) == Ahead
                  && s.business.value.planId == expected
                  && (EditFits(s, expected, changes, env) <==> env.allows)
                  && MergedTargets(w.plan, changes) == Targets(w.plan))
            && (read.EditBuilding? ==>
                  read == EditBuilding(expected, MergedTargets(w.plan, changes), w)
                  && PhaseOf(s) == Aligned && s.business.value.planId == expected
                  && changes.Keys <= w.plan.operations.Keys)
            && (read.Done? ==> read.outcome.Err? && !EditFits(s, expected, changes, env))
            && (read.Done? || read.EditStaged? || read.EditBuilding?)
  {
    SoundShape(s, history);
    var w := s.checkpoint.value;
    if changes.Keys <= w.plan.operations.Keys {
      StagedAsks(w.plan, changes);
    }
    hide StoresSound, MergedTargets, Targets;
  }

  lemma StagedCommits(s: Stores, history: seq<Plan>, expected: Uuid, w: Workflow, replacement: Plan,
                      isNew: bool, env: Environment)
    requires StoresSound(s, history) && PhaseOf(s) == Ahead
    requires s.business.value.planId == expected && s.checkpoint.value.plan == replacement
    requires (if isNew then w.revision else w.revision - 1) == |history| - 1
    ensures var (s', t') := CommitReplacement(s, expected, w, replacement, isNew, env);
            && StoresSound(s', history)
            && (isNew || env.allows ==>
                  && t' == (if isNew then EditCommitted else Done(Ok(w)))
                  && s'.checkpoint == s.checkpoint && PhaseOf(s') == Aligned
                  && s'.business.value.planId == replacement.planId)
            && (!isNew && !env.allows ==> s' == s && t' == Refuse(PolicyRefused))
  {
    assert s.business.value.planId == history[Agreed(s, history)].planId;
    assert StagedSound(s, history, expected, replacement, |history| - 1);
    CommitReplacementIsSound(s, history, expected, w, replacement, isNew, env);
    assert replacement.planId !in s.business.value.plans;
    assert s.business.value.plans[expected].status == Current(WaitingApproval);
    hide RowsSound, HistorySound, StoresSound;
  }

  lemma BuildAlone(s: Stores, history: seq<Plan>, expected: Uuid, targets: map<FileId, string>,
                   w: Workflow, env: Environment)
    requires StoresSound(s, history) && env.newId !in Ids(history)
    ensures var built := Build(s, expected, targets, w, env);
            var plan := BuildPlan(w.plan.workspaceId, targets, env);
            && (plan.None? || !env.allows ==> built.Done? && built.outcome.Err?)
            && (plan.Some? && env.allows ==>
                  built == EditBuilt(expected, w, plan.value) && plan.value.planId == env.newId
                  && Targets(plan.value) == targets)
  {
    forall id | id in s.business.value.plans ensures id in Ids(history) {
      var k :| 0 <= k <= Agreed(s, history) && history[k].planId == id;
    }
  }

  lemma BuiltEditAlone(s: Stores, history: seq<Plan>, expected: Uuid, w: Workflow,
                       replacement: Plan, env: Environment)
    returns (history': seq<Plan>)
    requires StoresSound(s, history) && PhaseOf(s) == Aligned && s.checkpoint == Some(w)
    requires w.plan.planId == expected && replacement.planId !in Ids(history)
    ensures var (s', t') := RunAlone(s, EditBuilt(expected, w, replacement), env);
            && StoresSound(s', history') && t'.Done?
            && (t'.outcome.Ok? <==> ReplacementFits(w.plan, replacement) && env.validates)
            && (t'.outcome.Err? ==> s' == s && history' == history)
            && (history' == history || history' == history + [replacement])
            && (t'.outcome.Ok? ==>
                  && PhaseOf(s') == Aligned && s'.checkpoint == Some(t'.outcome.value)
                  && s'.checkpoint.value.plan == replacement
                  && s'.business.value.planId == replacement.planId)
  {
    hide StoresSound, CheckpointEdit, CommitReplacement, ReplacementFits, LoadForDecision,
         ReadApproval, CommitDecision, CheckpointDecision, ReadForEdit, Build;
    BuiltCheckpoints(s, history, expected, w, replacement, env);
    history' := history;
    var (s1, t1) := CheckpointEdit(s, expected, w, replacement, env);
    assert RunAlone(s, EditBuilt(expected, w, replacement), env) == RunAlone(s1, t1, env);
    if t1.EditStaged? {
      history' := history + [replacement];
      StagedCommits(s1, history', expected, w, replacement, true, env);
      var s2 := CommitReplacement(s1, expected, w, replacement, true, env).0;
      assert RunAlone(s1, t1, env) == RunAlone(s2, EditCommitted, env)
          == RunAlone(s2, Reload(s2), env) == (s2, Reload(s2));
    }
  }

  /** An edit alone reaches the checkpoint exactly when the workflow and the validator take it. */
  lemma BuiltCheckpoints(s: Stores, history: seq<Plan>, expected: Uuid, w: Workflow,
                         replacement: Plan, env: Environment)
    requires StoresSound(s, history) && PhaseOf(s) == Aligned && s.checkpoint == Some(w)
    requires w.plan.planId == expected && replacement.planId !in Ids(history)
    ensures var (s', t') := CheckpointEdit(s, expected, w, replacement, env);
            && (ReplacementFits(w.plan, replacement) && env.validates ==>
                  && t' == EditStaged(expected, w, replacement, true)
                  && StoresSound(s', history + [replacement])
                  && PhaseOf(s') == Ahead && s'.business == s.business
                  && s'.business.value.planId == expected
                  && s' == StagedOnly(s, replacement) && w.revision == |history|)
            && (!(ReplacementFits(w.plan, replacement) && env.validates) ==>
                  s' == s && t'.Done? && t'.outcome.Err?)
  {
    hide RowsSound, OperationSound, HistorySound, CheckpointSound, ReplacementFits;
    SoundShape(s, history);
    assert s.checkpoint.value.revision == |history|;
    assert EditSound(s, history, expected, w);
    CheckpointEditIsSound(s, history, {}, expected, w, replacement, env);
  }

  // ---- crashes without overlap ----

  /** The approval row decided, the checkpoint not yet told. */
  function HalfWay(s: Stores, expected: Uuid, d: Decision): Stores
    requires s.checkpoint.Some?
  {
    CommitDecision(s, expected, d, s.checkpoint.value).0
  }

  /** A decision that stops anywhere has done nothing, half of its writes, or all of them. */
  lemma DecisionStops(s: Stores, history: seq<Plan>, expected: Uuid, d: Decision, env: Environment,
                      limit: nat)
    requires StoresSound(s, history)
    ensures var r := RunUpTo(s, DecideStart(expected, d), env, limit).0;
            || r == s
            || r == RunAlone(s, DecideStart(expected, d), env).0
            || (PhaseOf(s) == Aligned && DecisionFits(s, expected, d) && r == HalfWay(s, expected, d))
  {
    hide StoresSound, CommitDecision, CheckpointDecision;
    SoundShape(s, history);
    var start := DecideStart(expected, d);
    var loaded := LoadForDecision(s, expected, d);
    if limit == 0 || loaded.Done? { return; }
    assert RunAlone(s, start, env) == RunAlone(s, loaded, env);
    assert RunUpTo(s, start, env, limit) == RunUpTo(s, loaded, env, limit - 1);
    var read := ReadApproval(s, expected, d, loaded.held);
    if limit == 1 { return; }
    assert RunAlone(s, loaded, env) == RunAlone(s, read, env);
    assert RunUpTo(s, loaded, env, limit - 1) == RunUpTo(s, read, env, limit - 2);
    if read.Done? { return; }
    if read.DecideDue? {
      DueCommits(s, history, expected, d, loaded.held);
      AgreedStops(HalfWay(s, expected, d), expected, d, loaded.held, env, if limit == 2 then 0 else limit - 3);
    } else {
      AgreedStops(s, expected, d, loaded.held, env, limit - 2);
    }
  }

  lemma AgreedStops(s: Stores, expected: Uuid, d: Decision, w: Workflow, env: Environment, limit: nat)
    ensures var agreed := DecideAgreed(expected, d, w);
            var r := RunUpTo(s, agreed, env, limit).0;
            r == s || r == RunAlone(s, agreed, env).0
  {
    hide CheckpointDecision;
    var (s', t') := CheckpointDecision(s, d, w);
    assert RunAlone(s, DecideAgreed(expected, d, w), env) == RunAlone(s', t', env) == (s', t');
    if limit > 0 {
      assert RunUpTo(s, DecideAgreed(expected, d, w), env, limit) == RunUpTo(s', t', env, limit - 1)
          == (s', t');
    }
  }

  /**
    A decision that dies after any number of its steps, nobody else acting: what it changed, it
    changed towards its own end. Repeating it succeeds exactly when it would have succeeded, and
    once the approval row carries it, every other decision is refused.
   */
  lemma DecisionSurvivesCrash(s: Stores, history: seq<Plan>, expected: Uuid, d: Decision,
                              env: Environment, limit: nat)
    requires StoresSound(s, history) && PhaseOf(s) != Wedged
    ensures var r := RunUpTo(s, DecideStart(expected, d), env, limit).0;
            && StoresSound(r, history) && PhaseOf(r) != Wedged
            && (DecisionFits(r, expected, d) <==> DecisionFits(s, expected, d))
            && (r != s ==> DecisionFits(r, expected, d)
                           && forall e, d' :: DecisionFits(r, e, d') ==> e == expected && d' == d)
  {
    hide StoresSound, CommitDecision, RunUpTo, RunAlone;
    DecisionStops(s, history, expected, d, env, limit);
    DecisionAlone(s, history, expected, d, env);
    SoundShape(s, history);
    if PhaseOf(s) == Aligned && DecisionFits(s, expected, d) {
      DueCommits(s, history, expected, d, s.checkpoint.value);
    }
  }

  /** The checkpoint moved to the replacement, the approval not yet told. */
  function StagedOnly(s: Stores, replacement: Plan): Stores
    requires s.checkpoint.Some?
  {
    s.(checkpoint := Some(AwaitingHuman(replacement, s.checkpoint.value.revision + 1)))
  }

  /** An edit that stops anywhere has done nothing, staged its plan, or done all its writes. */
  lemma EditStops(s: Stores, history: seq<Plan>, expected: Uuid, changes: map<FileId, string>,
                  env: Environment, limit: nat)
    requires StoresSound(s, history) && env.newId !in Ids(history)
    ensures var r := RunUpTo(s, EditStart(expected, changes), env, limit).0;
            var targets := MergedTargets(s.checkpoint.value.plan, changes);
            var plan := BuildPlan(s.checkpoint.value.plan.workspaceId, targets, env);
            || r == s
            || r == RunAlone(s, EditStart(expected, changes), env).0
            || (PhaseOf(s) == Aligned && EditFits(s, expected, changes, env) && plan.Some?
                && r == StagedOnly(s, plan.value))
  {
    hide StoresSound, CheckpointEdit, CommitReplacement, Build, ReadForEdit, BuildPlan;
    SoundShape(s, history);
    var start := EditStart(expected, changes);
    if changes == map[] { return; }
    var w := s.checkpoint.value;
    var loaded := EditLoaded(expected, changes, w);
    var read := ReadForEdit(s, expected, changes, w);
    ReadAlone(s, history, expected, changes, env);
    if limit <= 1 || read.Done? {
      assert limit > 0 ==> RunUpTo(s, start, env, limit) == RunUpTo(s, loaded, env, limit - 1);
      assert limit > 1 ==> RunUpTo(s, loaded, env, limit - 1) == RunUpTo(s, read, env, limit - 2);
      return;
    }
    assert RunAlone(s, start, env) == RunAlone(s, loaded, env) == RunAlone(s, read, env);
    assert RunUpTo(s, start, env, limit) == RunUpTo(s, loaded, env, limit - 1)
        == RunUpTo(s, read, env, limit - 2);
    if read.EditStaged? {
      StagedCommits(s, history, expected, w, w.plan, false, env);
      StagedStops(s, expected, w, w.plan, false, env, limit - 2);
    } else {
      BuildingStops(s, history, expected, changes, env, limit - 2);
    }
  }

  lemma BuildingStops(s: Stores, history: seq<Plan>, expected: Uuid, changes: map<FileId, string>,
                      env: Environment, limit: nat)
    requires StoresSound(s, history) && env.newId !in Ids(history) && PhaseOf(s) == Aligned
    requires s.business.value.planId == expected
    requires changes != map[] && changes.Keys <= s.checkpoint.value.plan.operations.Keys
    ensures var w := s.checkpoint.value;
            var building := EditBuilding(expected, MergedTargets(w.plan, changes), w);
            var plan := BuildPlan(w.plan.workspaceId, MergedTargets(w.plan, changes), env);
            var r := RunUpTo(s, building, env, limit).0;
            || r == s || r == RunAlone(s, building, env).0
            || (EditFits(s, expected, changes, env) && plan.Some? && r == StagedOnly(s, plan.value))
  {
    hide StoresSound, CheckpointEdit, CommitReplacement, Build, BuildPlan, MergedTargets, Targets;
    if limit == 0 { return; }
    SoundShape(s, history);
    var w := s.checkpoint.value;
    var targets := MergedTargets(w.plan, changes);
    var building, built := EditBuilding(expected, targets, w), Build(s, expected, targets, w, env);
    BuildAlone(s, history, expected, targets, w, env);
    BuiltFits(w.plan, changes, env);
    assert RunAlone(s, building, env) == RunAlone(s, built, env);
    assert RunUpTo(s, building, env, limit) == RunUpTo(s, built, env, limit - 1);
    if built.EditBuilt? && limit > 1 {
      BuiltCheckpoints(s, history, expected, w, built.replacement, env);
      var (s1, t1) := CheckpointEdit(s, expected, w, built.replacement, env);
      assert RunAlone(s, built, env) == RunAlone(s1, t1, env);
      assert RunUpTo(s, built, env, limit - 1) == RunUpTo(s1, t1, env, limit - 2);
      if t1.EditStaged? {
        assert s1 == StagedOnly(s, built.replacement);
        StagedStops(s1, expected, w, built.replacement, true, env, limit - 2);
      } else {
        assert RunUpTo(s1, t1, env, limit - 2) == (s1, t1);
      }
    }
  }

  lemma StagedStops(s: Stores, expected: Uuid, w: Workflow, replacement: Plan, isNew: bool,
                    env: Environment, limit: nat)
    ensures var staged := EditStaged(expected, w, replacement, isNew);
            var r := RunUpTo(s, staged, env, limit).0;
            r == s || r == RunAlone(s, staged, env).0
  {
    hide CommitEdit;
    var staged := EditStaged(expected, w, replacement, isNew);
    var (s', t') := CommitReplacement(s, expected, w, replacement, isNew, env);
    assert RunAlone(s, staged, env) == RunAlone(s', t', env);
    assert RunAlone(s', t', env).0 == s' by {
      if t'.EditCommitted? {
        assert RunAlone(s', t', env) == RunAlone(s', Reload(s'), env) == (s', Reload(s'));
      }
    }
    if limit > 0 {
      assert RunUpTo(s, staged, env, limit) == RunUpTo(s', t', env, limit - 1);
      if t'.EditCommitted? && limit > 1 {
        assert RunUpTo(s', t', env, limit - 1) == RunUpTo(s', Reload(s'), env, limit - 2)
            == (s', Reload(s'));
      }
    }
  }

  /** What the same edit needs, once a crash has left its plan staged. */
  predicate StagedFor(s: Stores, r: Stores, expected: Uuid, changes: map<FileId, string>)
    requires s.checkpoint.Some?
  {
    && r.business == s.business && r.checkpoint.Some? && r.business.Some?
    && PhaseOf(r) == Ahead && changes != map[]
    && Targets(r.checkpoint.value.plan) == MergedTargets(s.checkpoint.value.plan, changes)
  }

  /**
    An edit that dies after any number of its steps, nobody else acting: nothing happened, or the
    plan is staged with the approval untouched, or the edit is done. While a plan is staged no
    decision on any plan fits, and the same edit fits exactly while the policy allows proposals,
    whatever the files look like by now.
   */
  lemma EditSurvivesCrash(s: Stores, history: seq<Plan>, expected: Uuid, changes: map<FileId, string>,
                          env: Environment, limit: nat)
    returns (history': seq<Plan>)
    requires StoresSound(s, history) && PhaseOf(s) != Wedged && env.newId !in Ids(history)
    ensures var r := RunUpTo(s, EditStart(expected, changes), env, limit).0;
            && StoresSound(r, history') && PhaseOf(r) != Wedged
            && Ids(history') <= Ids(history) + {env.newId}
            && (r == s || r == RunAlone(s, EditStart(expected, changes), env).0
                || StagedFor(s, r, expected, changes))
            && (PhaseOf(r) == Ahead ==> forall e, d :: !DecisionFits(r, e, d))
            && (StagedFor(s, r, expected, changes) && PhaseOf(s) == Aligned ==>
                  forall env' :: EditFits(r, expected, changes, env') <==> env'.allows)
  {
    hide StoresSound, CheckpointEdit, BuildPlan;
    EditStops(s, history, expected, changes, env, limit);
    SoundShape(s, history);
    var all := RunAlone(s, EditStart(expected, changes), env).0;
    var r := RunUpTo(s, EditStart(expected, changes), env, limit).0;
    hide RunUpTo, RunAlone;
    var w := s.checkpoint.value;
    var targets := MergedTargets(w.plan, changes);
    var plan := BuildPlan(w.plan.workspaceId, targets, env);
    BuiltFits(w.plan, changes, env);
    if r == s {
      history' := history;
    } else if r == all {
      history' := EditAlone(s, history, expected, changes, env);
    } else {
      BuildAlone(s, history, expected, targets, w, env);
      BuiltCheckpoints(s, history, expected, w, plan.value, env);
      history' := history + [plan.value];
      IdsGrow(history, plan.value);
      RepeatedEdit(w.plan, plan.value, changes);
      StagedAsks(plan.value, changes);
      assert r == CheckpointEdit(s, expected, w, plan.value, env).0;
    }
  }

  /**
    While proposals are disabled, a staged plan blocks its workflow: every decision and every edit
    is refused and leaves both stores as they are, so nothing moves until the policy changes.
   */
  lemma DisabledProposalsBlock(s: Stores, history: seq<Plan>, expected: Uuid, env: Environment)
    requires StoresSound(s, history) && PhaseOf(s) == Ahead && !env.allows
    requires env.newId !in Ids(history)
    ensures forall d ::
              var (s', t') := RunAlone(s, DecideStart(expected, d), env);
              s' == s && t'.Done? && t'.outcome.Err?
    ensures forall changes ::
              var (s', t') := RunAlone(s, EditStart(expected, changes), env);
              s' == s && t'.Done? && t'.outcome.Err?
  {
    hide StoresSound, RunAlone;
    forall d
      ensures var (s', t') := RunAlone(s, DecideStart(expected, d), env);
              s' == s && t'.Done? && t'.outcome.Err?
    {
      DecisionAlone(s, history, expected, d, env);
    }
    forall changes
      ensures var (s', t') := RunAlone(s, EditStart(expected, changes), env);
              s' == s && t'.Done? && t'.outcome.Err?
    {
      var _ := EditAlone(s, history, expected, changes, env);
    }
  }

  // ---- what a refused call is told ----

  /** Where a decision left alone does not fit, it is told why: another plan, or another decision. */
  lemma DecisionAnswers(s: Stores, history: seq<Plan>, expected: Uuid, d: Decision, env: Environment)
    requires StoresSound(s, history)
    ensures var t := RunAlone(s, DecideStart(expected, d), env).1;
            var b, w := s.business.value, s.checkpoint.value;
            t.Done? &&
            if w.plan.planId != expected then t == Done(Err(PlanMismatch))
            else if b.planId != expected then t == Done(Err(PlanMismatch))
            else if b.status.WaitingApproval? || b.status == DecidedStatus(d) then t.outcome.Ok?
            else t == Done(Err(StateConflict))
  {
    hide StoresSound, CommitDecision, CheckpointDecision, AlreadyCheckpointed, WaitsForHuman;
    DecisionAlone(s, history, expected, d, env);
    SoundShape(s, history);
    var loaded := LoadForDecision(s, expected, d);
    assert RunAlone(s, DecideStart(expected, d), env) == RunAlone(s, loaded, env);
    if !loaded.Done? {
      var read := ReadApproval(s, expected, d, loaded.held);
      assert RunAlone(s, loaded, env) == RunAlone(s, read, env);
    }
  }

  /** What the checks of an edit answer before anything is built or staged. */
  lemma EditAnswers(s: Stores, history: seq<Plan>, expected: Uuid, changes: map<FileId, string>,
                    env: Environment)
    requires StoresSound(s, history) && env.newId !in Ids(history)
    ensures var t := RunAlone(s, EditStart(expected, changes), env).1;
            var b, w := s.business.value, s.checkpoint.value;
            t.Done? &&
            if changes == map[] then t == Done(Err(EmptyRequest))
            else if !b.status.WaitingApproval? then t == Done(Err(StateConflict))
            else if b.planId != expected then t == Done(Err(PlanMismatch))
            else if exists f :: f in changes && f !in w.plan.operations then t == Done(Err(UnknownSource))
            else if w.plan.planId != expected
                    && exists f :: f in changes && changes[f] != w.plan.operations[f].targetDirectory
            then t == Done(Err(PlanMismatch))
            else if !env.allows then t == Done(Err(PolicyRefused))
            else if w.plan.planId != expected then t.outcome.Ok?
            else if !env.accepts || exists f :: f in w.plan.operations && f !in env.paths
            then t == Done(Err(PlanRefused))
            else if exists f :: f in w.plan.operations && env.paths[f] != w.plan.operations[f].sourcePath
            then t == Done(Err(EventRefused(InvalidTransition)))
            else if !env.validates then t == Done(Err(ValidatorRefused))
            else t.outcome.Ok?
  {
    hide StoresSound, CommitReplacement, MergedTargets, Targets, BuildPlan, ReplacementFits;
    SoundShape(s, history);
    if changes == map[] { return; }
    var w := s.checkpoint.value;
    var loaded, read := EditLoaded(expected, changes, w), ReadForEdit(s, expected, changes, w);
    assert RunAlone(s, EditStart(expected, changes), env) == RunAlone(s, loaded, env)
        == RunAlone(s, read, env);
    if changes.Keys <= w.plan.operations.Keys { StagedAsks(w.plan, changes); }
    NotKnown(changes, w.plan);
    var _ := EditAlone(s, history, expected, changes, env);
    if read.EditStaged? {
      ReadAlone(s, history, expected, changes, env);
      StagedCommits(s, history, expected, w, w.plan, false, env);
      var (s2, t2) := CommitReplacement(s, expected, w, w.plan, false, env);
      assert RunAlone(s, read, env) == RunAlone(s2, t2, env) == (s2, t2);
    } else if read.EditBuilding? {
      BuildAnswers(s, history, expected, changes, w, env);
    }
  }

  /** Without a checkpoint or without an approval there is nothing to decide or edit. */
  lemma UnknownIsRefused(s: Stores, expected: Uuid, d: Decision, changes: map<FileId, string>,
                         env: Environment)
    requires s.checkpoint.None? || s.business.None?
    ensures var missing := (s, Done(Err(WorkflowNotFound)));
            && RunAlone(s, EditStart(expected, changes), env)
               == (if changes == map[] then (s, Done(Err(EmptyRequest))) else missing)
            && RunAlone(s, DecideStart(expected, d), env)
               == (if s.checkpoint.None? then missing
                   else var w := s.checkpoint.value;
                     if w.plan.planId != expected then (s, Done(Err(PlanMismatch)))
                     else if AlreadyCheckpointed(w, d) || WaitsForHuman(w) then missing
                     else (s, Done(Err(StateConflict))))
  {
    hide AlreadyCheckpointed, WaitsForHuman;
    if s.checkpoint.Some? {
      var w := s.checkpoint.value;
      assert RunAlone(s, EditLoaded(expected, changes, w), env) == (s, Done(Err(WorkflowNotFound)));
      assert RunAlone(s, DecideLoaded(expected, d, w), env) == (s, Done(Err(WorkflowNotFound)));
    }
  }

  /** A plan whose id some stored plan has is not built. */
  lemma UsedIdIsRefused(s: Stores, history: seq<Plan>, expected: Uuid, changes: map<FileId, string>,
                        env: Environment)
    requires StoresSound(s, history) && PhaseOf(s) == Aligned && s.business.value.status.WaitingApproval?
    requires s.business.value.planId == expected && env.newId in s.business.value.plans
    requires changes != map[] && changes.Keys <= s.checkpoint.value.plan.operations.Keys
    requires env.allows && env.accepts
    requires forall f :: f in s.checkpoint.value.plan.operations ==> f in env.paths
    ensures RunAlone(s, EditStart(expected, changes), env) == (s, Done(Err(PlanRowExists)))
  {
    hide StoresSound, MergedTargets, Targets, BuildPlan;
    SoundShape(s, history);
    var w := s.checkpoint.value;
    var targets := MergedTargets(w.plan, changes);
    var loaded, building := EditLoaded(expected, changes, w), EditBuilding(expected, targets, w);
    assert ReadForEdit(s, expected, changes, w) == building;
    assert RunAlone(s, EditStart(expected, changes), env) == RunAlone(s, loaded, env)
        == RunAlone(s, building, env);
    UsedIdIsNotBuilt(s, expected, changes, w, env);
    assert RunAlone(s, building, env) == (s, Done(Err(PlanRowExists)));
  }

  lemma UsedIdIsNotBuilt(s: Stores, expected: Uuid, changes: map<FileId, string>, w: Workflow,
                         env: Environment)
    requires s.business.Some? && env.newId in s.business.value.plans && env.allows && env.accepts
    requires forall f :: f in w.plan.operations ==> f in env.paths
    ensures Build(s, expected, MergedTargets(w.plan, changes), w, env) == Done(Err(PlanRowExists))
  {
    hide MergedTargets, Targets, BuildPlan;
    BuiltFits(w.plan, changes, env);
  }

  lemma NotKnown(changes: map<FileId, string>, p: Plan)
    ensures changes.Keys <= p.operations.Keys <==> !(exists f :: f in changes && f !in p.operations)
  {
  }

  lemma BuildAnswers(s: Stores, history: seq<Plan>, expected: Uuid, changes: map<FileId, string>,
                     w: Workflow, env: Environment)
    requires StoresSound(s, history) && env.newId !in Ids(history) && PhaseOf(s) == Aligned
    requires s.checkpoint == Some(w) && s.business.value.planId == expected
    ensures var t := RunAlone(s, EditBuilding(expected, MergedTargets(w.plan, changes), w), env).1;
            && (!env.allows ==> t == Done(Err(PolicyRefused)))
            && (env.allows && (!env.accepts || exists f :: f in w.plan.operations && f !in env.paths) ==>
                  t == Done(Err(PlanRefused)))
            && (env.allows && env.accepts && (forall f :: f in w.plan.operations ==> f in env.paths) ==>
                  && ((exists f :: f in w.plan.operations
                                   && env.paths[f] != w.plan.operations[f].sourcePath) ==>
                        t == Done(Err(EventRefused(InvalidTransition))))
                  && ((forall f :: f in w.plan.operations ==>
                         env.paths[f] == w.plan.operations[f].sourcePath) && !env.validates ==>
                        t == Done(Err(ValidatorRefused))))
  {
    hide StoresSound, CommitReplacement, MergedTargets, Targets, BuildPlan, ReplacementFits;
    SoundShape(s, history);
    BuiltFits(w.plan, changes, env);
    var targets := MergedTargets(w.plan, changes);
    BuildAlone(s, history, expected, targets, w, env);
    LastIsOld(history);
    var built := Build(s, expected, targets, w, env);
    assert RunAlone(s, EditBuilding(expected, targets, w), env) == RunAlone(s, built, env);
    if built.EditBuilt? {
      var (s1, t1) := CheckpointEdit(s, expected, w, built.replacement, env);
      assert RunAlone(s, built, env) == RunAlone(s1, t1, env);
    }
  }

  lemma LastIsOld(history: seq<Plan>)
    ensures history != [] ==> Last(history).planId in Ids(history)
  {
    if history != [] { assert history[|history| - 1] == Last(history); }
  }
}
