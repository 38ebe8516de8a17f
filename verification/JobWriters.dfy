/**
  Any number of writers sharing one job store. Each writer holds some snapshot that was current
  when it read it, computes one transition from it and tries to save the result; by then the
  stored job may have moved on arbitrarily far.
 */
module JobWriters {
  import opened Common
  import opened JobSystem
  import opened JobRuns
  import opened JobStore

  /** The states a job has been stored in, oldest first, and the events between them. */
  datatype History = History(states: seq<Job>, events: seq<Event>)

  /** The stored tables and, beside them, what has been stored over time. */
  datatype System = System(db: Db, histories: map<Uuid, History>)

  /** One call of a writer. `Apply` names its snapshot by its position in the job's history. */
  datatype Call =
    | Create(candidate: Job)
    | Apply(jobId: Uuid, snapshot: nat, event: Event)

  const EMPTY := System(Db(map[], map[]), map[])

  /** What the writer of an `Apply` call submits, when its transition goes through. */
  ghost predicate Submits(sys: System, id: Uuid, snapshot: nat, e: Event)
    ensures Submits(sys, id, snapshot, e) ==>
              id in sys.histories && snapshot < |sys.histories[id].states|
  {
    && id in sys.histories && snapshot < |sys.histories[id].states|
    && ValidEvent(e) && ValidJob(sys.histories[id].states[snapshot])
    && TransitionJob(sys.histories[id].states[snapshot], e).Ok?
  }

  ghost function SaveCall(sys: System, id: Uuid, snapshot: nat, e: Event)
    : (Db, Result<Job, StoreError>)
    requires Submits(sys, id, snapshot, e)
  {
    var held := sys.histories[id].states[snapshot];
    SaveResult(sys.db, held.revision, TransitionJob(held, e).value)
  }

  ghost function Step(sys: System, call: Call): System {
    match call
    case Create(candidate) =>
      if !ValidJob(candidate) then sys
      else
        var (db', r) := CreateResult(sys.db, candidate);
        System(db', if db' == sys.db then sys.histories
                    else sys.histories[candidate.jobId := History([candidate], [])])
    case Apply(id, snapshot, e) =>
      if !Submits(sys, id, snapshot, e) then sys
      else
        var (db', r) := SaveCall(sys, id, snapshot, e);
        Answered(sys, id, e, db', r)
  }

  /** The system once a save of job `id` has been answered. */
  ghost function Answered(sys: System, id: Uuid, e: Event, db: Db, r: Result<Job, StoreError>)
    : System
    requires id in sys.histories
  {
    var h := sys.histories[id];
    System(db, if r.Err? then sys.histories
               else sys.histories[id := History(h.states + [r.value], h.events + [e])])
  }

  ghost function Execute(sys: System, calls: seq<Call>): System {
    if calls == [] then sys else Step(Execute(sys, calls[..|calls| - 1]), Last(calls))
  }

  ghost predicate GoodHistory(db: Db, id: Uuid, h: History) {
    && IsRun(h.states, h.events)
    && NewJob(h.states[0]) && h.states[0].jobId == id
    && Load(db, id) == Ok(Last(h.states))
  }

  /** Every stored job is the end of one run from its new state, and no other job is stored. */
  ghost predicate Consistent(sys: System) {
    && Constraints(sys.db)
    && sys.db.jobs.Keys == sys.histories.Keys
    && forall id :: id in sys.histories ==> GoodHistory(sys.db, id, sys.histories[id])
  }

  /** One transition from a snapshot: what the store can see of it. */
  predicate Succeeds(held: Job, next: Job) {
    && ValidJob(next)
    && SameDefinition(held, next) && next.revision == held.revision + 1
    && HistoryEvolves(held.attempts, next.attempts)
    && |next.attempts| <= |held.attempts| + 1
  }

  lemma SubmissionSucceeds(held: Job, e: Event)
    requires ValidJob(held) && ValidEvent(e) && TransitionJob(held, e).Ok?
    ensures StepsTo(held, e, TransitionJob(held, e).value)
    ensures Succeeds(held, TransitionJob(held, e).value)
  {
    TransitionAcceptsExactly(held, e);
    StepKeepsHistory(held, e, TransitionJob(held, e).value);
  }

  /** Saving a successor of `held` while `current` is stored. */
  lemma SaveOfSuccessor(db: Db, id: Uuid, held: Job, current: Job, next: Job)
    requires Load(db, id) == Ok(current)
    requires SameDefinition(held, current) && 0 <= held.revision <= current.revision
    requires held.revision == current.revision ==> held == current
    requires Succeeds(held, next)
    ensures var (db', r) := SaveResult(db, held.revision, next);
            && (r.Ok? <==> held == current)
            && (r.Ok? ==> r == Ok(next) && db' == Saved(db, next))
            && (r.Err? ==> db' == db && (r.error.AttemptConflict? || r.error.RevisionConflict?))
  {
    SaveRoundTrips(db, held.revision, next);
    StoredRows(db, id, current);
    if held == current {
      forall i | 0 <= i < |current.attempts|
        ensures SameAttemptIdentity(AttemptsOf(db, id)[i], next.attempts[i])
      {
        assert Evolves(current.attempts[i], next.attempts[i]);
      }
    }
  }

  /** A snapshot in a history against the state now stored. */
  lemma SnapshotAgainstCurrent(db: Db, id: Uuid, h: History, snapshot: nat)
    requires GoodHistory(db, id, h) && snapshot < |h.states|
    ensures var held, current := h.states[snapshot], Last(h.states);
            && SameDefinition(held, current) && held.revision == snapshot
            && current.revision == |h.states| - 1
            && held.jobId == id
  {
    RunKeepsHistory(h.states, h.events, 0, snapshot);
    RunKeepsHistory(h.states, h.events, snapshot, |h.states| - 1);
  }

  /**
    A save goes through exactly when the writer's snapshot is still the stored state; a stale one
    gets a conflict and leaves every table as it was; and a save that goes through stores the very
    state submitted, one revision on.
   */
  lemma SaveSucceedsIffCurrent(sys: System, id: Uuid, snapshot: nat, e: Event)
    requires Consistent(sys) && Submits(sys, id, snapshot, e)
    ensures var (db', r) := SaveCall(sys, id, snapshot, e);
            var states := sys.histories[id].states;
            && (r.Ok? <==> snapshot == |states| - 1)
            && (r.Ok? ==> StepsTo(Last(states), e, r.value) && r.value.revision == |states|
                          && r.value.jobId == id
                          && Succeeds(Last(states), r.value) && db' == Saved(sys.db, r.value))
            && (r.Err? ==> db' == sys.db && (r.error.AttemptConflict? || r.error.RevisionConflict?))
  {
    var h := sys.histories[id];
    var held := h.states[snapshot];
    assert GoodHistory(sys.db, id, h);
    SnapshotAgainstCurrent(sys.db, id, h, snapshot);
    SubmissionSucceeds(held, e);
    SaveOfSuccessor(sys.db, id, held, Last(h.states), TransitionJob(held, e).value);
  }

  /** What a loaded state says about the rows it came from. */
  lemma StoredRows(db: Db, id: Uuid, s: Job)
    requires Load(db, id) == Ok(s)
    ensures id in db.jobs && s.jobId == id
    ensures SameStoredDefinition(db.jobs[id], s) && db.jobs[id].revision == s.revision
    ensures |AttemptsOf(db, id)| == |s.attempts|
    ensures forall i :: 0 <= i < |s.attempts| ==>
              SameAttemptIdentity(AttemptsOf(db, id)[i], s.attempts[i])
  {
    var rows := AttemptsOf(db, id);
    forall i | 0 <= i < |s.attempts| ensures SameAttemptIdentity(rows[i], s.attempts[i]) {
      assert s.attempts[i] == AttemptFromRow(rows[i]);
    }
  }

  lemma HistoryKept(db: Db, db': Db, id: Uuid, h: History)
    requires GoodHistory(db, id, h) && Load(db', id) == Load(db, id)
    ensures GoodHistory(db', id, h)
  {
  }

  lemma HistoryStarts(db: Db, candidate: Job)
    requires NewJob(candidate) && Load(db, candidate.jobId) == Ok(candidate)
    ensures GoodHistory(db, candidate.jobId, History([candidate], []))
  {
  }

  lemma CreateKeepsConsistent(sys: System, candidate: Job)
    requires Consistent(sys) && ValidJob(candidate)
    ensures Consistent(Step(sys, Create(candidate)))
  {
    hide StateFromRecords, CreateResult, Load, GoodHistory, NewJob, ValidJob, Constraints;
    CreateRoundTrips(sys.db, candidate);
    var sys' := Step(sys, Create(candidate));
    if sys'.db != sys.db {
      HistoryStarts(sys'.db, candidate);
      forall id | id in sys.histories ensures GoodHistory(sys'.db, id, sys.histories[id]) {
        HistoryKept(sys.db, sys'.db, id, sys.histories[id]);
      }
    }
  }

  lemma HistoryGrows(db: Db, id: Uuid, h: History, e: Event, next: Job)
    requires GoodHistory(db, id, h) && StepsTo(Last(h.states), e, next)
    requires Succeeds(Last(h.states), next)
    ensures GoodHistory(Saved(db, next), id, History(h.states + [next], h.events + [e]))
  {
    var current := Last(h.states);
    SnapshotAgainstCurrent(db, id, h, |h.states| - 1);
    RunExtends(h.states, h.events, e, next);
    SaveOfSuccessor(db, id, current, current, next);
    SaveRoundTrips(db, current.revision, next);
  }

  lemma HistoryReplaced(sys: System, id: Uuid, next: Job, h: History)
    requires Consistent(sys) && id in sys.histories && next.jobId == id
    requires GoodHistory(Saved(sys.db, next), id, h)
    ensures Consistent(System(Saved(sys.db, next), sys.histories[id := h]))
  {
    hide StateFromRecords, IsRun, NewJob, Saved;
    SavedKeepsOthers(sys.db, next);
    forall other | other in sys.histories && other != id
      ensures GoodHistory(Saved(sys.db, next), other, sys.histories[other])
    {
      HistoryKept(sys.db, Saved(sys.db, next), other, sys.histories[other]);
    }
  }

  lemma ApplyKeepsConsistent(sys: System, id: Uuid, snapshot: nat, e: Event)
    requires Consistent(sys) && Submits(sys, id, snapshot, e)
    ensures Consistent(Step(sys, Apply(id, snapshot, e)))
  {
    hide Submits, SaveCall, Load, IsRun, StepsTo, Saved, Succeeds, NewJob, Constraints;
    SaveSucceedsIffCurrent(sys, id, snapshot, e);
    var (db', r) := SaveCall(sys, id, snapshot, e);
    if r.Ok? {
      var h := sys.histories[id];
      assert GoodHistory(sys.db, id, h);
      SnapshotAgainstCurrent(sys.db, id, h, |h.states| - 1);
      HistoryGrows(sys.db, id, h, e, r.value);
      HistoryReplaced(sys, id, r.value, History(h.states + [r.value], h.events + [e]));
    }
  }

  lemma SavedKeepsOthers(db: Db, s: Job)
    requires Constraints(db) && s.jobId in db.jobs
    ensures Constraints(Saved(db, s)) && Saved(db, s).jobs.Keys == db.jobs.Keys
    ensures forall id :: id != s.jobId ==> Load(Saved(db, s), id) == Load(db, id)
  {
    hide StateFromRecords, AttemptFromRow;
  }

  lemma StepKeepsConsistent(sys: System, call: Call)
    requires Consistent(sys)
    ensures Consistent(Step(sys, call))
  {
    match call
    case Create(candidate) =>
      if ValidJob(candidate) {
        CreateKeepsConsistent(sys, candidate);
      }
    case Apply(id, snapshot, e) =>
      if Submits(sys, id, snapshot, e) {
        ApplyKeepsConsistent(sys, id, snapshot, e);
      }
  }

  /** However the calls interleave, each stored job is the end of one run of the state machine. */
  lemma {:induction false} AlwaysConsistent(calls: seq<Call>)
    ensures Consistent(Execute(EMPTY, calls))
  {
    if calls != [] {
      AlwaysConsistent(calls[..|calls| - 1]);
      StepKeepsConsistent(Execute(EMPTY, calls[..|calls| - 1]), Last(calls));
    }
  }

  /** The call is an update of job `id` that is answered with success. */
  ghost predicate Accepted(sys: System, call: Call, id: Uuid) {
    && call.Apply? && call.jobId == id
    && Submits(sys, id, call.snapshot, call.event)
    && SaveCall(sys, id, call.snapshot, call.event).1.Ok?
  }

  ghost function Successes(calls: seq<Call>, id: Uuid): nat {
    if calls == [] then 0
    else
      var earlier := calls[..|calls| - 1];
      Successes(earlier, id) + (if Accepted(Execute(EMPTY, earlier), Last(calls), id) then 1 else 0)
  }

  ghost function EventCount(sys: System, id: Uuid): nat {
    if id in sys.histories then |sys.histories[id].events| else 0
  }

  lemma AnswerCounts(sys: System, id: Uuid, e: Event, db: Db, r: Result<Job, StoreError>)
    requires id in sys.histories
    ensures EventCount(Answered(sys, id, e, db, r), id)
         == EventCount(sys, id) + (if r.Ok? then 1 else 0)
    ensures forall other :: other != id ==>
              EventCount(Answered(sys, id, e, db, r), other) == EventCount(sys, other)
  {
  }

  lemma StepCountsSuccess(sys: System, call: Call, id: Uuid)
    requires Consistent(sys)
    ensures EventCount(Step(sys, call), id)
         == EventCount(sys, id) + (if Accepted(sys, call, id) then 1 else 0)
  {
    hide Submits, SaveCall, CreateResult, GoodHistory, Lifecycle, Load;
    match call
    case Create(candidate) =>
      if ValidJob(candidate) {
        CreateRoundTrips(sys.db, candidate);
      }
    case Apply(jobId, snapshot, e) =>
      if Submits(sys, jobId, snapshot, e) {
        var (db', r) := SaveCall(sys, jobId, snapshot, e);
        AnswerCounts(sys, jobId, e, db', r);
      }
  }

  /** No accepted update is lost or applied twice: the stored revision counts the successes. */
  lemma {:induction false} RevisionCountsSuccesses(calls: seq<Call>, id: Uuid)
    ensures var sys := Execute(EMPTY, calls);
            && EventCount(sys, id) == Successes(calls, id)
            && (id in sys.histories ==>
                  Load(sys.db, id).Ok? && Load(sys.db, id).value.revision == Successes(calls, id))
  {
    if calls != [] {
      var earlier := calls[..|calls| - 1];
      RevisionCountsSuccesses(earlier, id);
      AlwaysConsistent(earlier);
      StepCountsSuccess(Execute(EMPTY, earlier), Last(calls), id);
    }
    AlwaysConsistent(calls);
    var sys := Execute(EMPTY, calls);
    if id in sys.histories {
      var h := sys.histories[id];
      assert GoodHistory(sys.db, id, h);
      SnapshotAgainstCurrent(sys.db, id, h, |h.states| - 1);
    }
  }
}
