/**
  What the runner answers on top of its store. On a registered job it does to memory exactly what
  the runner without a store does, and the store holds the same; a submission finds the row its key
  already has.
 */
module JobServed {
  import opened Common
  import opened JobSystem
  import opened JobRuns
  import opened JobStore
  import opened JobRunner
  import opened JobScheduling
  import opened JobRecovery
  import opened JobPersistence
  import opened JobLives
  import opened JobAnswers

  /** The answer of the runner without a store, as the one with a store gives it. */
  function Told(a: Result<Job, RunnerError>): Result<Job, NodeError> {
    match a
    case Ok(t) => Ok(t)
    case Err(Rejected(error)) => Err(Broken(Transition(error)))
    case Err(error) => Err(Refused(error))
  }

  lemma CancelServed(n: Node, id: Uuid, now: Time)
    requires NodeSound(n) && n.runner.clock == now && id in n.runner.jobs
    ensures ValidRecords(n.runner.jobs)
    ensures CancelNode(n, id, now).0.runner == CancelStep(n.runner, id, now).0
    ensures CancelNode(n, id, now).1 == Told(CancelStep(n.runner, id, now).1)
  {
    hide NodeSound, Persist, ApplyEvent, Saved, ValidJob;
    RegisteredIsStored(n, id);
    var s := n.runner.jobs[id].state;
    var e := BareEvent(s, CancellationRequested, now, None);
    PersistIs(n, n.runner, id, e);
    if ApplyEvent(s, e).Ok? {
      var t := ApplyEvent(s, e).value;
      var taken := n.runner.jobs[id := n.runner.jobs[id].(state := t)];
      assert taken[id := Record(t, true)] == n.runner.jobs[id := Record(t, true)];
    }
  }

  lemma RetryServed(n: Node, id: Uuid, now: Time)
    requires NodeSound(n) && n.runner.clock == now && id in n.runner.jobs
    ensures ValidRecords(n.runner.jobs)
    ensures RetryNode(n, id, now).0.runner == RetryStep(n.runner, id, now).0
    ensures RetryNode(n, id, now).1 == Told(RetryStep(n.runner, id, now).1)
  {
    hide NodeSound, Persist, ApplyEvent, Saved, ValidJob;
    RegisteredIsStored(n, id);
    var s := n.runner.jobs[id].state;
    var e := BareEvent(s, RetryRequested, now, None);
    PersistIs(n, n.runner, id, e);
    if ApplyEvent(s, e).Ok? {
      var t := ApplyEvent(s, e).value;
      assert n.runner.jobs[id := n.runner.jobs[id].(state := t)] - {id} == n.runner.jobs - {id};
    }
  }

  lemma BeginServed(n: Node, now: Time)
    requires NodeSound(n) && n.runner.clock == now && n.runner.worker.Idle? && n.runner.queue != []
    ensures ValidRecords(n.runner.jobs) && BeginNode(n, now).runner == BeginStep(n.runner, now)
  {
    hide NodeSound, Persist, ApplyEvent, Saved, ValidJob, Load, BareEvent, Sound, Conflict;
    NodeIsSound(n);
    var r := n.runner;
    var id := r.queue[0];
    if id in r.jobs && r.jobs[id].state.status.Pending? {
      WaitingStarts(r, now);
      PersistIs(n, r.(queue := r.queue[1..], nextId := r.nextId + 1), id,
                BareEvent(r.jobs[id].state, Started, now, Some(r.nextId)));
    }
  }

  lemma WaitingStarts(r: Runner, now: Time)
    requires Sound(r) && r.clock == now && r.queue != [] && r.queue[0] in r.jobs
    requires r.jobs[r.queue[0]].state.status.Pending? && ValidRecords(r.jobs)
    ensures var s := r.jobs[r.queue[0]].state;
            ApplyEvent(s, BareEvent(s, Started, now, Some(r.nextId))).Ok?
  {
    hide ValidJob, ApplyEvent, IndexInverse, PendingQueued, WorkerSound, BodiesMatch, Timely,
      IdsBelow, PendingLeavesRoom;
    PendingStarts(r.jobs[r.queue[0]].state, now, r.nextId);
  }

  lemma ReportServed(n: Node, completed: int, total: Option<int>, phase: string, now: Time)
    requires NodeSound(n) && n.runner.clock == now && n.runner.worker.Busy?
    ensures ValidRecords(n.runner.jobs)
    ensures var (n', a) := ReportNode(n, completed, total, phase, now);
            var (r', b) := ReportStep(n.runner, completed, total, phase, now);
            n'.runner == r' && a == Told(b)
  {
    hide NodeSound, Persist, ApplyEvent, Saved, ValidJob;
    NodeIsSound(n);
    var r := n.runner;
    if r.worker.jobId in r.jobs {
      PersistIs(n, r, r.worker.jobId, ProgressEvent(r.jobs[r.worker.jobId].state, now,
                                                    r.worker.attemptId, completed, total, phase));
    }
  }

  lemma EndServed(n: Node, end: TaskEnd, now: Time)
    requires NodeSound(n) && n.runner.clock == now && n.runner.worker.Busy?
    ensures ValidRecords(n.runner.jobs)
    ensures EndNode(n, end, now).0.runner == EndStep(n.runner, end, now).0
    ensures EndNode(n, end, now).1 == Told(EndStep(n.runner, end, now).1)
  {
    hide NodeSound, Persist, ApplyEvent, Saved, ValidJob;
    NodeIsSound(n);
    var r := n.runner;
    if r.worker.jobId in r.jobs {
      PersistIs(n, r.(worker := Idle), r.worker.jobId,
                EndEvent(r.jobs[r.worker.jobId].state, end, now, r.worker.attemptId));
    }
  }

  /** The calls that work on one registered job. */
  predicate OnRegistered(r: Runner, op: Op) {
    match op
    case Submit(_) => false
    case Cancel(id) => id in r.jobs
    case Retry(id) => id in r.jobs
    case _ => true
  }

  /**
    On registered jobs the runner with a store refines the one without: memory goes the same way,
    and what is in memory is what is stored.
   */
  lemma StoreRefines(n: Node, op: Op, src: Source, now: Time)
    requires NodeSound(n) && Enabled(n.runner, op, now) && OnRegistered(n.runner, op)
    requires now <= src.first <= src.second
    ensures Called(n, op, src, now).runner == Do(n.runner, op, now)
    ensures NodeSound(Called(n, op, src, now))
  {
    hide NodeSound, CancelNode, RetryNode, BeginNode, ReportNode, EndNode, CancelStep, RetryStep,
      BeginStep, ReportStep, EndStep, ValidJob;
    var m := n.(runner := n.runner.(clock := now));
    ClockKeepsNode(n, now);
    CallKeepsNode(n, op, src, now);
    match op
    case Cancel(id) => CancelServed(m, id, now);
    case Retry(id) => RetryServed(m, id, now);
    case Shutdown(wait) =>
    case BeginTask => BeginServed(m, now);
    case ReportUnits(completed, total, phase) => ReportServed(m, completed, total, phase, now);
    case EndTask(end) => EndServed(m, end, now);
  }

  /** However a body ends, memory and store say so: the job ends the same way, at that moment. */
  lemma EndIsStored(n: Node, end: TaskEnd, src: Source, now: Time)
    requires NodeSound(n) && Enabled(n.runner, EndTask(end), now) && now <= src.first <= src.second
    ensures n.runner.worker.jobId in n.runner.jobs
    ensures var id := n.runner.worker.jobId;
            var s, n' := n.runner.jobs[id].state, Called(n, EndTask(end), src, now);
            && n'.runner.worker.Idle? && id in n'.runner.jobs
            && Load(n'.db, id) == Ok(n'.runner.jobs[id].state)
            && if end.RaisedCancelled? && !s.status.CancelRequested? then n'.runner.jobs[id].state == s
               else EndedAs(s, end, now, n'.runner.jobs[id].state)
  {
    hide NodeSound, Called, Do, EndedAs, Load, ValidRecords, Sound;
    StoreRefines(n, EndTask(end), src, now);
    ClockKeepsNode(n, now);
    NodeIsSound(n.(runner := n.runner.(clock := now)));
    SameDo(n.runner, end, now);
    EndAnswers(n.runner.(clock := now), end, now);
    RegisteredIsStored(Called(n, EndTask(end), src, now), n.runner.worker.jobId);
  }

  /** The record of `s` as the store has it, not queued, and in memory under its key. */
  predicate Read(n: Node, id: Uuid, m: Node) {
    && m.db == n.db && Load(n.db, id).Ok? && m.runner.queue == n.runner.queue
    && m.runner.jobs == n.runner.jobs[id := Record(Load(n.db, id).value, false)]
    && m.runner.index == n.runner.index[Load(n.db, id).value.idempotencyKey := id]
    && m.runner.worker == n.runner.worker && m.runner.bodies == n.runner.bodies
  }

  /** An action on a job memory does not know is the action on its stored record, if there is one. */
  lemma ActionsReadTheStore(n: Node, id: Uuid, now: Time) returns (m: Node)
    requires NodeSound(n) && id !in n.runner.jobs
    ensures NodeSound(m) && m.runner.clock == n.runner.clock && ValidRecords(m.runner.jobs)
    ensures ValidRecords(n.runner.jobs)
    ensures if id in n.db.jobs then
              && Read(n, id, m)
              && CancelNode(n, id, now) == CancelNode(m, id, now)
              && RetryNode(n, id, now) == RetryNode(m, id, now)
            else
              && CancelNode(n, id, now) == (n, Err(Refused(JobNotFound)))
              && RetryNode(n, id, now) == (n, Err(Refused(JobNotFound)))
  {
    hide NodeSound, Persist, Load, ValidJob, JobSound;
    NodeIsSound(n);
    AdoptKeepsNode(n, id);
    m := Adopted(n, id).0;
    if id in n.db.jobs {
      StoredJobSound(n, id);
    }
  }

  // ---------------------------------------------------------------- records that were overtaken

  /** The job was saved by somebody else after its record was taken. */
  ghost predicate Overtaken(n: Node, id: Uuid) {
    && id in n.runner.jobs && ValidRecords(n.runner.jobs) && id in n.db.jobs && Load(n.db, id).Ok?
    && var s, stored := n.runner.jobs[id].state, Load(n.db, id).value;
    && s.jobId == id && SameDefinition(stored, s) && stored.revision != s.revision
  }

  lemma PersistLoses(n: Node, r: Runner, id: Uuid, e: Event)
    requires Overtaken(n, id) && r.jobs == n.runner.jobs
    requires ApplyEvent(n.runner.jobs[id].state, e).Ok?
    ensures var (n', a) := Persist(n.(runner := r), id, e);
            n' == n.(runner := r) && Conflict(a)
  {
    hide ValidAttempts, ValidProgress, Load, SaveResult, ApplyEvent, StepsTo, ContinuesAttempts;
    var s := r.jobs[id].state;
    var t := ApplyEvent(s, e).value;
    EventEffect(s, e, t);
    StepKeepsHistory(s, e, t);
    SaveAnswers(n.db, s.revision, t);
    SaveRoundTrips(n.db, s.revision, t);
  }

  /** Whatever is asked of an overtaken record, nothing is stored and the call is refused. */
  lemma OvertakenIsRefused(n: Node, id: Uuid, now: Time)
    requires Overtaken(n, id) && Timely(n.runner.jobs[id].state, now)
    ensures var s := n.runner.jobs[id].state;
            && (s.status.Running? || (s.status.Pending? && s.attempts == []) ==>
                  CancelNode(n, id, now) == (n, Err(Refused(StateChanged))))
            && (MayRetry(s) ==> RetryNode(n, id, now) == (n, Err(Refused(StateChanged))))
  {
    hide Overtaken, Persist, ApplyEvent, ValidJob, Timely, CancelledAs, RetriedAs, Load;
    OvertakenIsValid(n, id);
    var s := n.runner.jobs[id].state;
    if s.status.Running? || (s.status.Pending? && s.attempts == []) {
      CancelOutcome(s, now);
      PersistLoses(n, n.runner, id, BareEvent(s, CancellationRequested, now, None));
    }
    if MayRetry(s) {
      RetryOutcome(s, now);
      PersistLoses(n, n.runner, id, BareEvent(s, RetryRequested, now, None));
    }
  }

  lemma OvertakenIsValid(n: Node, id: Uuid)
    requires Overtaken(n, id)
    ensures id in n.runner.jobs && ValidRecords(n.runner.jobs) && ValidJob(n.runner.jobs[id].state)
  {
    hide ValidJob, Load;
  }

  /** A start that lost the race runs no body: the record takes what is stored. */
  lemma OvertakenDoesNotStart(n: Node, id: Uuid, now: Time)
    requires Overtaken(n, id) && n.runner.worker.Idle? && n.runner.queue != []
    requires n.runner.queue[0] == id && n.runner.jobs[id].state.status.Pending?
    requires var s := n.runner.jobs[id].state;
             PendingLeavesRoom(s) && Timely(s, now) && IdsBelow(s, n.runner.nextId)
    ensures var stored := n.runner.jobs[id].(state := Load(n.db, id).value);
            && BeginNode(n, now)
               == n.(runner := n.runner.(queue := n.runner.queue[1..], nextId := n.runner.nextId + 1,
                                         jobs := n.runner.jobs[id := stored]))
  {
    hide Persist, ApplyEvent, ValidJob, Timely, Load, PendingLeavesRoom, IdsBelow, BareEvent;
    var s := n.runner.jobs[id].state;
    PendingStarts(s, now, n.runner.nextId);
    PersistLoses(n, n.runner.(queue := n.runner.queue[1..], nextId := n.runner.nextId + 1), id,
                 BareEvent(s, Started, now, Some(n.runner.nextId)));
  }

  // ---------------------------------------------------------------- submissions

  lemma FreshIdUnused(db: Db, s: Job, src: Source, id: Uuid)
    requires ValidJob(s)
    ensures RecoverState(db, s, src.(freshId := id)) == RecoverState(db, s, src)
  {
    hide ApplyStored, ValidJob;
  }

  lemma SourceIsGood(r: Runner, s: Job, src: Source)
    requires JobSound(r, s) && r.clock <= src.first <= src.second
    ensures ValidJob(s) && PendingLeavesRoom(s) && GoodSource(s, src.(freshId := r.nextId))
  {
    hide ValidJob, PendingLeavesRoom;
  }

  /** A stored job that is asked for again is recovered by events of its own, and always can be. */
  lemma RepeatRecovers(db: Db, s: Job, src: Source)
    requires s.jobId in db.jobs && Load(db, s.jobId) == Ok(s)
    requires ValidJob(s) && PendingLeavesRoom(s) && GoodSource(s, src)
    ensures var (db', r) := RecoverState(db, s, src);
            && r.Ok? && r.value.jobId == s.jobId && db'.jobs.Keys == db.jobs.Keys
            && Load(db', s.jobId) == Ok(r.value)
            && (!Active(s) && !InterruptedWithRoom(s) ==> r == Ok(s) && db' == db)
  {
    hide Load, ApplyStored, ApplyEvent, Saved, ValidJob, PendingLeavesRoom, Timely, StepsTo;
    match s.status {
      case CancelRequested =>
        RunningHasAttempt(s);
        var t := CancellationAccepted(s, src.first);
        StoredStepSaves(db, s, BareEvent(s, FinishedCancelled, src.first,
                                         Some(Last(s.attempts).attemptId)), t);
      case Running =>
        RecoverConverges(db, s, src);
        LoadedIsValid(RecoverState(db, s, src).0, s.jobId);
      case Pending =>
        RecoverConverges(db, s, src);
        LoadedIsValid(RecoverState(db, s, src).0, s.jobId);
      case _ =>
        if InterruptedWithRoom(s) {
          LaterIsTimely(s, src);
          var t := RetryAccepted(s, src.second);
          StoredStepSaves(db, s, BareEvent(s, RetryRequested, src.second, None), t);
        }
    }
  }

  /** The request asks for the job `s`. */
  predicate AsksFor(q: Request, s: Job) {
    && s.kind == q.kind && s.taskVersion == q.taskVersion && s.workspaceId == q.workspaceId
    && s.payload == q.payload && s.idempotencyKey == q.idempotencyKey
  }

  ghost predicate Owns(n: Node, id: Uuid, key: string) {
    id in n.db.jobs && Load(n.db, id).Ok? && Load(n.db, id).value.idempotencyKey == key
  }

  lemma OwnerInMemory(n: Node, id: Uuid, key: string)
    requires NodeSound(n) && Owns(n, id, key)
    ensures key in n.runner.index <==> id in n.runner.jobs
    ensures key in n.runner.index ==>
              n.runner.index[key] == id && n.runner.jobs[id].state == Load(n.db, id).value
  {
    hide Load, ValidJob, RecordsSound, QueueSound, PendingQueued, WorkerSound, BodiesMatch, Stored,
      JobSound;
    if key in n.runner.index && n.runner.index[key] != id {
      KeysDiffer(n.db, id, n.runner.index[key]);
    }
  }

  lemma NobodyInMemory(n: Node, key: string)
    requires NodeSound(n) && forall id :: !Owns(n, id, key)
    ensures key !in n.runner.index
  {
    hide NodeSound, Owns;
    if key in n.runner.index { InMemoryOwns(n, key); }
  }

  lemma InMemoryOwns(n: Node, key: string)
    requires NodeSound(n) && key in n.runner.index
    ensures Owns(n, n.runner.index[key], key)
  {
    hide Load, ValidJob, RecordsSound, QueueSound, PendingQueued, WorkerSound, BodiesMatch, Stored,
      JobSound;
  }

  /** The answer to a request whose key some stored job has. */
  lemma RepeatServed(n: Node, q: Request, src: Source, now: Time, id: Uuid)
    requires NodeSound(n) && n.runner.clock <= now <= src.first <= src.second
    requires !n.runner.closed && Acceptable(q) && Owns(n, id, q.idempotencyKey)
    ensures var m := n.(runner := n.runner.(clock := src.second));
            var (n', a) := SubmitNode(m, q, now, src);
            var s := Load(n.db, id).value;
            if !AsksFor(q, s) then
              a == Err(Refused(KeyConflict)) && n'.db == n.db
              && n'.runner == m.runner.(nextId := n.runner.nextId + 1)
            else
              && a.Ok? && a.value.jobId == id && n'.db.jobs.Keys == n.db.jobs.Keys
              && Load(n'.db, id) == Ok(a.value)
              && (id in n.runner.jobs || (!Active(s) && !InterruptedWithRoom(s)) ==>
                    a == Ok(s) && n'.db == n.db)
              && (id !in n.runner.jobs && a.value.status.Pending? ==>
                    id in n'.runner.jobs && n'.runner.queue == n.runner.queue + [id])
  {
    hide NodeSound, Load, ValidJob, Candidate, CreateResult, RecoverState, SameJob, GoodSource,
      PendingLeavesRoom, JobSound, RequestedAs, InterruptedWithRoom;
    CandidateIs(q, n.runner.nextId, now);
    OwnerInMemory(n, id, q.idempotencyKey);
    var s := Load(n.db, id).value;
    var candidate := Candidate(q, n.runner.nextId, now).value;
    CandidateAsks(q, n.runner.nextId, now, candidate, s);
    StoredJobSound(n, id);
    if id !in n.runner.jobs {
      OwnerAnswers(n, candidate, id);
      if AsksFor(q, s) {
        SourceIsGood(n.runner, s, src);
        FreshIdUnused(n.db, s, src, n.runner.nextId);
        RepeatRecovers(n.db, s, src.(freshId := n.runner.nextId));
      }
    }
  }

  lemma CandidateAsks(q: Request, id: Uuid, now: Time, candidate: Job, s: Job)
    requires RequestedAs(q, id, now, candidate)
    ensures SameJob(s, candidate) <==> AsksFor(q, s)
    ensures candidate.kind == q.kind && candidate.workspaceId == q.workspaceId
    ensures candidate.taskVersion == q.taskVersion && candidate.payload == q.payload
    ensures candidate.idempotencyKey == q.idempotencyKey && candidate.jobId == id
  {
  }

  lemma StoredJobSound(n: Node, id: Uuid)
    requires NodeSound(n) && id in n.db.jobs
    ensures Load(n.db, id).Ok? && JobSound(n.runner, Load(n.db, id).value)
    ensures Load(n.db, id).value.jobId == id
  {
    hide Sound, Mirrors, Stored, Load, JobSound;
    LoadedIsValid(n.db, id);
  }

  lemma OwnerAnswers(n: Node, candidate: Job, id: Uuid)
    requires NodeSound(n) && NewJob(candidate) && Owns(n, id, candidate.idempotencyKey)
    ensures CreateResult(n.db, candidate)
         == (n.db, if SameJob(Load(n.db, id).value, candidate) then Load(n.db, id)
                   else Err(IdentityConflict))
  {
    hide Sound, Mirrors, Stored, Load, JobSound, CreateResult, SameJob, NewJob;
    StoredConstraints(n.db);
    CreateAnswers(n.db, candidate);
  }

  /** The answer to a request with a key no stored job has: exactly its job is stored and queued. */
  lemma NewServed(n: Node, q: Request, src: Source, now: Time)
    requires NodeSound(n) && n.runner.clock <= now <= src.first <= src.second
    requires !n.runner.closed && Acceptable(q) && forall id :: !Owns(n, id, q.idempotencyKey)
    ensures var m := n.(runner := n.runner.(clock := src.second));
            var (n', a) := SubmitNode(m, q, now, src);
            && a.Ok? && RequestedAs(q, n.runner.nextId, now, a.value)
            && n'.runner == Queued(m.runner.(nextId := n.runner.nextId + 1), a.value)
            && n'.db.jobs.Keys == n.db.jobs.Keys + {n.runner.nextId}
            && Load(n'.db, n.runner.nextId) == Ok(a.value)
            && forall id :: id in n.db.jobs ==> Load(n'.db, id) == Load(n.db, id)
  {
    hide NodeSound, Load, ValidJob, Candidate, CreateResult, RequestedAs, ApplyStored, Acceptable;
    CandidateIs(q, n.runner.nextId, now);
    NobodyInMemory(n, q.idempotencyKey);
    NextIsNew(n);
    var candidate := Candidate(q, n.runner.nextId, now).value;
    CandidateAsks(q, n.runner.nextId, now, candidate, candidate);
    UnownedAnswers(n, candidate);
    PendingIsRecovered(CreateResult(n.db, candidate).0, candidate, src);
  }

  lemma PendingIsRecovered(db: Db, s: Job, src: Source)
    requires ValidJob(s) && NewJob(s)
    ensures RecoverState(db, s, src) == (db, Ok(s)) && s.status.Pending?
  {
    hide ApplyStored;
  }

  lemma UnownedAnswers(n: Node, candidate: Job)
    requires NodeSound(n) && NewJob(candidate) && candidate.jobId !in n.db.jobs
    requires forall id :: !Owns(n, id, candidate.idempotencyKey)
    ensures var (db', r) := CreateResult(n.db, candidate);
            && r == Ok(candidate) && db'.jobs.Keys == n.db.jobs.Keys + {candidate.jobId}
            && Load(db', candidate.jobId) == Ok(candidate)
            && forall id :: id in n.db.jobs ==> Load(db', id) == Load(n.db, id)
  {
    hide Sound, Mirrors, Stored, Load, JobSound, CreateResult, SameJob, NewJob;
    StoredConstraints(n.db);
    CreateAnswers(n.db, candidate);
    forall id | id in n.db.jobs
      ensures Load(n.db, id).value.idempotencyKey != candidate.idempotencyKey
    {
      assert !Owns(n, id, candidate.idempotencyKey);
    }
  }

  /**
    Submitting to the runner with a store. A closed runner and a request that is not allowed are
    refused; a key that is stored answers the one job that has it, recovered if it was left over,
    or is refused when that job is another; a new key stores and queues exactly the job described.
   */
  lemma SubmitServed(n: Node, q: Request, src: Source, now: Time)
    requires NodeSound(n) && n.runner.clock <= now <= src.first <= src.second
    ensures var m := n.(runner := n.runner.(clock := src.second));
            var (n', a) := SubmitNode(m, q, now, src);
            && (n.runner.closed ==> a == Err(Refused(RunnerClosed)) && n' == m)
            && (!n.runner.closed && !Acceptable(q) ==>
                  a == Err(Refused(Rejected(ValidationFailed))) && n' == m)
            && (!n.runner.closed && Acceptable(q) ==>
                  if exists id :: Owns(n, id, q.idempotencyKey) then
                    n'.db.jobs.Keys == n.db.jobs.Keys
                    && forall id :: Owns(n, id, q.idempotencyKey) ==>
                         if AsksFor(q, Load(n.db, id).value) then a.Ok? && a.value.jobId == id
                         else a == Err(Refused(KeyConflict))
                  else a.Ok? && RequestedAs(q, n.runner.nextId, now, a.value))
  {
    hide NodeSound, Load, ValidJob, Candidate, SubmitNode, RequestedAs, Acceptable, AsksFor,
      InterruptedWithRoom;
    if n.runner.closed || !Acceptable(q) {
      RefusedServed(n, q, src, now);
    } else if id :| Owns(n, id, q.idempotencyKey) {
      RepeatServed(n, q, src, now, id);
      forall other | Owns(n, other, q.idempotencyKey) ensures other == id {
        StoreIsStored(n);
        if other != id { KeysDiffer(n.db, id, other); }
      }
    } else {
      NewServed(n, q, src, now);
    }
  }

  lemma RefusedServed(n: Node, q: Request, src: Source, now: Time)
    requires n.runner.closed || !Acceptable(q)
    ensures var m := n.(runner := n.runner.(clock := src.second));
            SubmitNode(m, q, now, src)
            == (m, Err(Refused(if n.runner.closed then RunnerClosed else Rejected(ValidationFailed))))
  {
    hide Candidate, Acceptable;
    CandidateIs(q, n.runner.nextId, now);
  }
}
