/** The audit log, in every interleaving: the edits the approval took, in order, then its decision. */
module OrganizationAudit {
  import opened Common
  import opened OrganizationWorkflow
  import opened OrganizationDecisions
  import opened OrganizationInterleaving

  ghost predicate AuditSound(s: Stores, history: seq<Plan>)
    requires s.business.Some?
  {
    var b, a := s.business.value, Agreed(s, history);
    && 0 <= a < |history|
    && |b.audit| == a + (if b.status.WaitingApproval? then 0 else 1)
    && (forall k :: 0 <= k < a ==>
          b.audit[k] == AuditEvent(Edited, WaitingApproval, WaitingApproval,
                                   history[k].planId, history[k + 1].planId))
    && (!b.status.WaitingApproval? ==>
          exists d :: DecidedStatus(d) == b.status
                      && b.audit[a] == AuditEvent(Decided(d), WaitingApproval, b.status,
                                                  b.planId, b.planId))
    && (b.operation.status.Follows? ==> b.operation.revision == 1 + |b.audit|)
  }

  lemma CommitKeepsAudit(s: Stores, history: seq<Plan>, expected: Uuid, d: Decision, w: Workflow)
    requires StoresSound(s, history) && AuditSound(s, history)
    ensures CommitDecision(s, expected, d, w).0.business.Some?
    ensures AuditSound(CommitDecision(s, expected, d, w).0, history)
  {
    hide RowsSound, HistorySound, CheckpointSound;
    var s' := CommitDecision(s, expected, d, w).0;
    if s' != s {
      var b' := s'.business.value;
      assert DecidedStatus(d) == b'.status
             && b'.audit[Agreed(s', history)]
                == AuditEvent(Decided(d), WaitingApproval, b'.status, b'.planId, b'.planId);
    }
  }

  lemma CheckpointKeepsAudit(s: Stores, history: seq<Plan>, s': Stores, history': seq<Plan>)
    requires StoresSound(s, history) && StoresSound(s', history') && AuditSound(s, history)
    requires s'.business == s.business && history <= history' && |history'| <= |history| + 1
    requires Agreed(s, history) <= Agreed(s', history')
    ensures AuditSound(s', history')
  {
    var a := Agreed(s', history');
    assert Agreed(s, history) == a by {
      assert RowsSound(s.business.value, history, Agreed(s, history));
      assert RowsSound(s'.business.value, history', a);
      assert history'[Agreed(s, history)].planId == history'[a].planId;
    }
    hide RowsSound, HistorySound, CheckpointSound;
  }

  lemma ReplacementKeepsAudit(s: Stores, history: seq<Plan>, expected: Uuid, w: Workflow,
                              replacement: Plan, isNew: bool, env: Environment)
    requires StoresSound(s, history) && AuditSound(s, history)
    requires StagedSound(s, history, expected, replacement, if isNew then w.revision else w.revision - 1)
    ensures CommitReplacement(s, expected, w, replacement, isNew, env).0.business.Some?
    ensures AuditSound(CommitReplacement(s, expected, w, replacement, isNew, env).0, history)
  {
    ReplacementTaken(s, history, expected, w, replacement, isNew);
    hide RowsSound, HistorySound, CheckpointSound, OperationSound, StagedSound, WithRowStatus;
  }

  lemma MoveKeepsAudit(x: World, m: Move)
    requires WorldSound(x) && Enabled(x, m) && AuditSound(x.stores, x.history)
    ensures ApplyMove(x, m).stores.business.Some?
    ensures AuditSound(ApplyMove(x, m).stores, ApplyMove(x, m).history)
  {
    hide StoresSound, AuditSound, HistorySound, CommitDecision, CheckpointDecision, CheckpointEdit,
         CommitReplacement, Ids;
    MoveKeepsSound(x, m);
    var x' := ApplyMove(x, m);
    assert StoresSound(x'.stores, x'.history);
    match m
    case Advance(i, env) =>
      var t := x.threads[i];
      assert ThreadSound(x.stores, x.history, x.minted, t);
      ThreadStepIsSound(x.stores, x.history, x.minted, t, env);
      match t {
        case DecideDue(expected, d, w) => CommitKeepsAudit(x.stores, x.history, expected, d, w);
        case DecideAgreed(expected, d, w) =>
          CheckpointDecisionIsSound(x.stores, x.history, expected, d, w);
          CheckpointKeepsAudit(x.stores, x.history, x'.stores, x'.history);
        case EditBuilt(expected, w, replacement) =>
          EditLeavesBusiness(x.stores, expected, w, replacement, env);
          CheckpointKeepsAudit(x.stores, x.history, x'.stores, x'.history);
        case EditStaged(expected, w, replacement, isNew) =>
          ReplacementKeepsAudit(x.stores, x.history, expected, w, replacement, isNew, env);
        case _ =>
      }
    case Execute(stage) => ExecuteKeepsAudit(x, stage);
    case _ =>
  }

  lemma EditLeavesBusiness(s: Stores, expected: Uuid, w: Workflow, replacement: Plan, env: Environment)
    ensures CheckpointEdit(s, expected, w, replacement, env).0.business == s.business
  {
  }

  lemma ExecuteKeepsAudit(x: World, stage: ExecutionStage)
    requires WorldSound(x) && AuditSound(x.stores, x.history)
    ensures ApplyMove(x, Execute(stage)).stores.business.Some?
    ensures AuditSound(ApplyMove(x, Execute(stage)).stores, ApplyMove(x, Execute(stage)).history)
  {
    assert x.stores.business.Some?;
    hide StoresSound;
  }

  lemma OpeningIsRetold(x: World)
    requires exists plan :: x == Opening(plan)
    ensures x.stores.business.Some? && AuditSound(x.stores, x.history)
  {
  }

  /** The log of any reachable state retells how the approval got there. */
  lemma {:induction false} AuditRetellsTheApproval(worlds: seq<World>, moves: seq<Move>, i: nat)
    requires IsTrace(worlds, moves) && i < |worlds|
    ensures worlds[i].stores.business.Some?
    ensures AuditSound(worlds[i].stores, worlds[i].history)
  {
    hide ApplyMove, WorldSound, AuditSound, Enabled;
    TracesAreSound(worlds, moves);
    if i == 0 {
      OpeningIsRetold(worlds[0]);
    } else {
      AuditRetellsTheApproval(worlds, moves, i - 1);
      MoveKeepsAudit(worlds[i - 1], moves[i - 1]);
    }
  }
}
