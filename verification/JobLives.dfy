/**
  The life of a runner and its store over any number of processes: calls, the starts and ends of
  task bodies, scans, and deaths at any save. One process at a time has the store to itself.
 */
module JobLives {
  import opened Common
  import opened JobSystem
  import opened JobRuns
  import opened JobStore
  import opened JobWriters
  import opened JobRunner
  import opened JobScheduling
  import opened JobRecovery
  import opened JobRestarts
  import opened JobPersistence

  // ---------------------------------------------------------------- what every life keeps

  /** Calls of writers can have left this store: so each stored job is the end of one legal run. */
  ghost predicate Stored(db: Db) {
    exists calls :: Execute(EMPTY, calls).db == db
  }

  /** A stored job belongs to the past, and its bodies are those of its attempts. */
  ghost predicate JobSound(r: Runner, s: Job) {
    && RecordSound(s, r.clock, r.nextId) && s.jobId < r.nextId
    && BodiesOf(r.bodies, s.jobId) == Without(AttemptIds(s.attempts), r.spared)
  }

  ghost predicate StoreSound(n: Node) {
    && Stored(n.db)
    && (forall id :: id in n.db.jobs ==> Load(n.db, id).Ok? && JobSound(n.runner, Load(n.db, id).value))
    && (forall i :: 0 <= i < |n.runner.bodies| ==> n.runner.bodies[i].0 < n.runner.nextId)
    && (forall id :: id in n.runner.spared ==> id < n.runner.nextId)
  }

  /** What is in memory is what is stored. */
  ghost predicate Mirrors(n: Node) {
    forall id :: id in n.runner.jobs ==>
      id in n.db.jobs && Load(n.db, id) == Ok(n.runner.jobs[id].state)
  }

  ghost predicate NodeSound(n: Node) {
    Sound(n.runner) && StoreSound(n) && Mirrors(n)
  }

  // ---------------------------------------------------------------- the store's side of a step

  lemma StoredHolds(db: Db, id: Uuid) returns (sys: System)
    requires Stored(db) && id in db.jobs
    ensures sys.db == db && Consistent(sys)
    ensures Load(db, id).Ok? && Held(sys, Load(db, id).value)
    ensures ValidJob(Load(db, id).value) && Load(db, id).value.jobId == id
    ensures forall call :: Stored(Step(sys, call).db)
  {
    hide Consistent, Load, Held, ValidJob, Step, Stored, Execute;
    sys := StoredSystem(db);
    StoredIsRecoverable(sys, id);
  }

  lemma StoredSystem(db: Db) returns (sys: System)
    requires Stored(db)
    ensures sys.db == db && Consistent(sys)
    ensures forall call :: Stored(Step(sys, call).db)
  {
    hide Consistent, Execute, Step;
    var calls :| Execute(EMPTY, calls).db == db;
    sys := Execute(EMPTY, calls);
    AlwaysConsistent(calls);
    forall call ensures Stored(Step(sys, call).db) {
      ExecuteNext(EMPTY, calls, call);
    }
  }

  /** An accepted event over the stored state is saved, and nothing else in the store moves. */
  lemma SaveMovesStore(db: Db, s: Job, e: Event, t: Job)
    requires Stored(db) && s.jobId in db.jobs && Load(db, s.jobId) == Ok(s)
    requires ValidJob(s) && ApplyEvent(s, e) == Ok(t)
    ensures t.jobId == s.jobId && ApplyStored(db, s, e) == (Saved(db, t), Ok(t))
    ensures Stored(Saved(db, t)) && OnlyMoved(db, Saved(db, t), s.jobId, t)
  {
    hide Consistent, Load, Held, ValidJob, ApplyEvent, ApplyStored, Saved, Step, StepsTo, Stored;
    StoredStepSaves(db, s, e, t);
    var sys := StoredHolds(db, s.jobId);
    RevisionIsPlace(sys, s);
    SaveIsStep(sys, s, e);
  }

  /** The log of bodies once attempt `e` of job `id` has started, if it has, with a body. */
  function Logged(r: Runner, id: Uuid, e: Event): seq<(Uuid, Uuid)> {
    if e.kind.Started? && e.attemptId.Some? && e.attemptId.value !in r.spared
    then r.bodies + [(id, e.attemptId.value)] else r.bodies
  }

  lemma EventKeepsJobSound(r: Runner, r': Runner, s: Job, e: Event, t: Job)
    requires JobSound(r, s) && ApplyEvent(s, e) == Ok(t)
    requires r.clock <= r'.clock && e.occurredAt <= r'.clock && r.nextId <= r'.nextId
    requires e.kind.Started? ==> e.attemptId.Some? && e.attemptId.value < r'.nextId
    requires r'.spared == r.spared && r'.bodies == Logged(r, s.jobId, e)
    ensures JobSound(r', t)
  {
    hide ApplyEvent, ValidJob, StepsTo, BodiesOf, Without, PendingLeavesRoom, AttemptIds;
    RecordStaysSound(s, r.clock, r'.clock, r.nextId, r'.nextId);
    EventKeepsRecord(s, e, t, r'.clock, r'.nextId);
    EventEffect(s, e, t);
    if e.kind.Started? {
      WithoutNext(AttemptIds(s.attempts), e.attemptId.value, r.spared);
      BodiesExtend(r.bodies, (s.jobId, e.attemptId.value), s.jobId);
    }
  }

  lemma RecordStaysSound(s: Job, clock: Time, clock': Time, bound: nat, bound': nat)
    requires RecordSound(s, clock, bound) && clock <= clock' && bound <= bound'
    ensures RecordSound(s, clock', bound')
  {
    hide ValidJob, PendingLeavesRoom;
  }

  lemma OtherStaysSound(r: Runner, r': Runner, s: Job, id: Uuid, e: Event)
    requires JobSound(r, s) && s.jobId != id
    requires r.clock <= r'.clock && r.nextId <= r'.nextId
    requires r'.spared == r.spared && r'.bodies == Logged(r, id, e)
    ensures JobSound(r', s)
  {
    hide ValidJob, PendingLeavesRoom, BodiesOf, Without, AttemptIds, RecordSound;
    RecordStaysSound(s, r.clock, r'.clock, r.nextId, r'.nextId);
    if e.attemptId.Some? {
      BodiesExtend(r.bodies, (id, e.attemptId.value), s.jobId);
    }
  }

  /** A saved event keeps the store sound, whoever made it. */
  lemma SaveKeepsStore(n: Node, n': Node, s: Job, e: Event, t: Job)
    requires StoreSound(n) && s.jobId in n.db.jobs && Load(n.db, s.jobId) == Ok(s)
    requires ValidJob(s) && ApplyEvent(s, e) == Ok(t) && t.jobId in n.db.jobs
    requires n'.db == Saved(n.db, t)
    requires n.runner.clock <= n'.runner.clock && e.occurredAt <= n'.runner.clock
    requires n.runner.nextId <= n'.runner.nextId
    requires e.kind.Started? ==> e.attemptId.Some? && e.attemptId.value < n'.runner.nextId
    requires n'.runner.spared == n.runner.spared && n'.runner.bodies == Logged(n.runner, s.jobId, e)
    ensures StoreSound(n') && OnlyMoved(n.db, n'.db, s.jobId, t)
    ensures ApplyStored(n.db, s, e) == (n'.db, Ok(t))
  {
    hide Stored, Load, ValidJob, ApplyEvent, ApplyStored, Saved, JobSound;
    SaveMovesStore(n.db, s, e, t);
    EventKeepsJobSound(n.runner, n'.runner, s, e, t);
    forall id | id in n'.db.jobs
      ensures Load(n'.db, id).Ok? && JobSound(n'.runner, Load(n'.db, id).value)
    {
      if id != s.jobId {
        LoadedIsValid(n.db, id);
        OtherStaysSound(n.runner, n'.runner, Load(n.db, id).value, s.jobId, e);
      }
    }
    JobIsOld(n.runner, s);
  }

  lemma JobIsOld(r: Runner, s: Job)
    requires JobSound(r, s)
    ensures s.jobId < r.nextId
  {
  }

  /** Nothing saved: only time and identities move on. */
  lemma StoreStays(n: Node, n': Node)
    requires StoreSound(n) && n'.db == n.db
    requires n.runner.clock <= n'.runner.clock && n.runner.nextId <= n'.runner.nextId
    requires n'.runner.spared == n.runner.spared && n'.runner.bodies == n.runner.bodies
    ensures StoreSound(n')
  {
    hide Stored, Load, ValidJob, PendingLeavesRoom, BodiesOf, Without, AttemptIds;
  }

  // ---------------------------------------------------------------- registering a stored job

  /** A record for `s` under its id and its key; queue and schedule are looked at apart. */
  predicate Enters(r: Runner, s: Job, r': Runner) {
    && r'.jobs == r.jobs[s.jobId := Record(s, false)]
    && r'.index == r.index[s.idempotencyKey := s.jobId]
    && r'.clock == r.clock && r'.nextId == r.nextId
    && r'.bodies == r.bodies && r'.spared == r.spared
    && r'.worker == r.worker && r'.dropped == r.dropped && r'.closed == r.closed
  }

  ghost predicate Enterable(r: Runner, s: Job) {
    Sound(r) && JobSound(r, s) && s.jobId !in r.jobs && s.idempotencyKey !in r.index
  }

  lemma EnterRecords(r: Runner, s: Job, r': Runner)
    requires Enterable(r, s) && Enters(r, s, r')
    ensures RecordsSound(r') && IndexInverse(r') && BodiesMatch(r')
  {
    hide ValidJob, Timely, PendingLeavesRoom, IdsBelow, BodiesOf, Without, AttemptIds, QueueSound,
      PendingQueued, WorkerSound;
  }

  lemma QueueSchedule(r: Runner, s: Job)
    requires Enterable(r, s) && s.status.Pending?
    ensures QueueSound(Queued(r, s)) && PendingQueued(Queued(r, s)) && WorkerSound(Queued(r, s))
  {
    hide ValidJob, RecordsSound, BodiesMatch, IndexInverse, JobSound;
    assert Queued(r, s).queue[|r.queue|] == s.jobId;
    assert forall id :: id in r.queue ==> id in Queued(r, s).queue;
  }

  lemma QueuedKeepsSound(r: Runner, s: Job)
    requires Enterable(r, s) && s.status.Pending?
    ensures Sound(Queued(r, s))
  {
    hide RecordsSound, BodiesMatch, IndexInverse, QueueSound, PendingQueued, WorkerSound, JobSound;
    EnterRecords(r, s, Queued(r, s));
    QueueSchedule(r, s);
  }

  function AdoptedAs(r: Runner, s: Job): Runner {
    r.(jobs := r.jobs[s.jobId := Record(s, false)], index := r.index[s.idempotencyKey := s.jobId],
       parked := if s.status.Pending? then r.parked + {s.jobId} else r.parked,
       stuck := if Active(s) then r.stuck + {s.jobId} else r.stuck)
  }

  lemma AdoptSchedule(r: Runner, s: Job)
    requires Enterable(r, s)
    ensures QueueSound(AdoptedAs(r, s)) && PendingQueued(AdoptedAs(r, s))
    ensures WorkerSound(AdoptedAs(r, s))
  {
    hide ValidJob, RecordsSound, BodiesMatch, IndexInverse, JobSound;
  }

  lemma AdoptedKeepsSound(r: Runner, s: Job)
    requires Enterable(r, s)
    ensures Sound(AdoptedAs(r, s))
  {
    hide RecordsSound, BodiesMatch, IndexInverse, QueueSound, PendingQueued, WorkerSound, JobSound;
    EnterRecords(r, s, AdoptedAs(r, s));
    AdoptSchedule(r, s);
  }

  /** A stored job that is not registered has a key that is not registered either. */
  lemma KeyIsFree(n: Node, id: Uuid)
    requires NodeSound(n) && id in n.db.jobs && id !in n.runner.jobs
    ensures Load(n.db, id).Ok? && ValidJob(Load(n.db, id).value) && Load(n.db, id).value.jobId == id
    ensures Enterable(n.runner, Load(n.db, id).value)
  {
    hide Load, ValidJob, QueueSound, PendingQueued, WorkerSound, BodiesMatch, JobSound, RecordsSound,
      Stored;
    LoadedIsValid(n.db, id);
    var key := Load(n.db, id).value.idempotencyKey;
    if key in n.runner.index {
      var other := n.runner.index[key];
      KeysDiffer(n.db, id, other);
    }
  }

  lemma KeysDiffer(db: Db, id: Uuid, other: Uuid)
    requires Stored(db) && id in db.jobs && other in db.jobs && id != other
    requires Load(db, id).Ok? && Load(db, other).Ok?
    ensures Load(db, id).value.idempotencyKey != Load(db, other).value.idempotencyKey
  {
    hide Load, Stored, ValidJob;
    StoredConstraints(db);
    LoadedKey(db, id);
    LoadedKey(db, other);
  }

  lemma LoadedKey(db: Db, id: Uuid)
    requires Load(db, id).Ok?
    ensures id in db.jobs && Load(db, id).value.idempotencyKey == db.jobs[id].idempotencyKey
  {
  }

  lemma QueuedKeepsNode(n: Node, s: Job)
    requires NodeSound(n) && s.jobId in n.db.jobs && s.jobId !in n.runner.jobs
    requires Load(n.db, s.jobId) == Ok(s) && s.status.Pending?
    ensures NodeSound(n.(runner := Queued(n.runner, s)))
  {
    hide Sound, StoreSound, Load, Enterable;
    KeyIsFree(n, s.jobId);
    QueuedKeepsSound(n.runner, s);
    var n' := n.(runner := Queued(n.runner, s));
    StoreStays(n, n');
  }

  lemma AdoptKeepsNode(n: Node, id: Uuid)
    requires NodeSound(n)
    ensures NodeSound(Adopted(n, id).0)
  {
    hide Sound, StoreSound, Load, Enterable, ValidJob;
    if id !in n.runner.jobs && id in n.db.jobs {
      KeyIsFree(n, id);
      var s := Load(n.db, id).value;
      AdoptedKeepsSound(n.runner, s);
      assert Adopted(n, id).0 == n.(runner := AdoptedAs(n.runner, s)) by { SoundIsValid(n.runner); }
      StoreStays(n, Adopted(n, id).0);
    } else {
      SoundIsValid(n.runner);
    }
  }

  lemma SoundIsValid(r: Runner)
    requires Sound(r)
    ensures ValidRecords(r.jobs)
  {
    hide ValidJob;
  }

  // ---------------------------------------------------------------- calls on registered jobs

  /** A registered job is stored as it stands in memory. */
  lemma RegisteredIsStored(n: Node, id: Uuid)
    requires NodeSound(n) && id in n.runner.jobs
    ensures ValidRecords(n.runner.jobs)
    ensures var s := n.runner.jobs[id].state;
            && s.jobId == id && ValidJob(s) && id in n.db.jobs && Load(n.db, id) == Ok(s)
            && Timely(s, n.runner.clock) && IdsBelow(s, n.runner.nextId)
  {
    hide ValidJob, Load, QueueSound, PendingQueued, WorkerSound, BodiesMatch, StoreSound, Timely,
      IdsBelow;
  }

  /** The process saves without ever losing a race, whatever else of its memory `r` changes. */
  lemma PersistIs(n: Node, r: Runner, id: Uuid, e: Event)
    requires NodeSound(n) && r.jobs == n.runner.jobs && id in r.jobs && ValidRecords(r.jobs)
    ensures var s := r.jobs[id].state;
            && (ApplyEvent(s, e).Ok? ==>
                  var t := ApplyEvent(s, e).value;
                  && t.jobId == id && id in n.db.jobs
                  && Persist(n.(runner := r), id, e)
                     == (Node(r.(jobs := r.jobs[id := r.jobs[id].(state := t)]), Saved(n.db, t)), Ok(t)))
            && (ApplyEvent(s, e).Err? ==>
                  Persist(n.(runner := r), id, e)
                  == (n.(runner := r), Err(Transition(ApplyEvent(s, e).error))))
  {
    hide Sound, Mirrors, Stored, ValidJob, Load, ApplyEvent, Saved, JobSound, SaveResult;
    RegisteredIsStored(n, id);
    var s := r.jobs[id].state;
    if ApplyEvent(s, e).Ok? {
      SaveMovesStore(n.db, s, e, ApplyEvent(s, e).value);
    }
  }

  /** The record carries the new state, or is forgotten. */
  predicate TakesOver(jobs: map<Uuid, Record>, jobs': map<Uuid, Record>, id: Uuid, t: Job) {
    || jobs' == jobs - {id}
    || (id in jobs' && jobs'[id].state == t && jobs' == jobs[id := jobs'[id]])
  }

  /** An event on a registered job, once its runner is known to stay sound. */
  lemma SaveKeepsNode(n: Node, r': Runner, id: Uuid, e: Event, t: Job)
    requires NodeSound(n) && id in n.runner.jobs && ValidJob(n.runner.jobs[id].state)
    requires ApplyEvent(n.runner.jobs[id].state, e) == Ok(t) && t.jobId in n.db.jobs
    requires Sound(r') && TakesOver(n.runner.jobs, r'.jobs, id, t)
    requires n.runner.clock <= r'.clock && e.occurredAt <= r'.clock
    requires n.runner.nextId <= r'.nextId
    requires e.kind.Started? ==> e.attemptId.Some? && e.attemptId.value < r'.nextId
    requires r'.spared == n.runner.spared && r'.bodies == Logged(n.runner, id, e)
    ensures NodeSound(Node(r', Saved(n.db, t)))
  {
    hide Sound, ValidJob, Load, ApplyEvent, ApplyStored, Saved, StoreSound;
    RegisteredIsStored(n, id);
    SaveKeepsStore(n, Node(r', Saved(n.db, t)), n.runner.jobs[id].state, e, t);
  }

  /** Memory alone moves: the store stays as it is. */
  lemma MemoryKeepsNode(n: Node, r': Runner)
    requires NodeSound(n) && Sound(r') && r'.jobs == n.runner.jobs
    requires n.runner.clock <= r'.clock && n.runner.nextId <= r'.nextId
    requires r'.spared == n.runner.spared && r'.bodies == n.runner.bodies
    ensures NodeSound(n.(runner := r'))
  {
    hide Sound, Load, StoreSound;
    StoreStays(n, n.(runner := r'));
  }

  lemma CancelKeepsNode(n: Node, id: Uuid, now: Time)
    requires NodeSound(n) && n.runner.clock == now && ValidRecords(n.runner.jobs)
    ensures NodeSound(CancelNode(n, id, now).0)
  {
    hide NodeSound, Adopted, Persist, ApplyEvent, Saved, ValidJob, Sound;
    AdoptKeepsNode(n, id);
    var m := Adopted(n, id).0;
    if Adopted(n, id).1.None? {
      AdoptKeepsClock(n, id);
      var s := m.runner.jobs[id].state;
      var e := BareEvent(s, CancellationRequested, now, None);
      PersistIs(m, m.runner, id, e);
      if !Terminal(s.status) && !s.status.CancelRequested? && ApplyEvent(s, e).Ok? {
        NodeIsSound(m);
        CancelKeepsSound(m.runner, id, now);
        var t := ApplyEvent(s, e).value;
        var taken := m.runner.jobs[id := m.runner.jobs[id].(state := t)];
        assert taken[id := Record(t, true)] == m.runner.jobs[id := Record(t, true)];
        SaveKeepsNode(m, CancelStep(m.runner, id, now).0, id, e, ApplyEvent(s, e).value);
      }
    }
  }

  lemma NodeIsSound(n: Node)
    requires NodeSound(n)
    ensures Sound(n.runner) && ValidRecords(n.runner.jobs)
  {
    hide Sound, StoreSound, Mirrors;
    SoundIsValid(n.runner);
  }

  lemma AdoptKeepsClock(n: Node, id: Uuid)
    requires ValidRecords(n.runner.jobs)
    ensures var r := Adopted(n, id).0.runner;
            && r.clock == n.runner.clock && r.nextId == n.runner.nextId && r.closed == n.runner.closed
            && n.runner.stuck <= r.stuck
  {
    hide Load, ValidJob;
  }

  lemma RetryKeepsNode(n: Node, id: Uuid, now: Time)
    requires NodeSound(n) && n.runner.clock == now && ValidRecords(n.runner.jobs)
    ensures NodeSound(RetryNode(n, id, now).0)
  {
    hide NodeSound, Adopted, Persist, ApplyEvent, Saved, ValidJob, Sound;
    AdoptKeepsNode(n, id);
    var m := Adopted(n, id).0;
    if Adopted(n, id).1.None? {
      AdoptKeepsClock(n, id);
      var s := m.runner.jobs[id].state;
      var e := BareEvent(s, RetryRequested, now, None);
      PersistIs(m, m.runner, id, e);
      if s.status.Failed? && s.attempts != [] && Last(s.attempts).retryable
         && |s.attempts| < s.maxAttempts && ApplyEvent(s, e).Ok?
      {
        NodeIsSound(m);
        RetryKeepsSound(m.runner, id, now);
        var t := ApplyEvent(s, e).value;
        assert m.runner.jobs[id := m.runner.jobs[id].(state := t)] - {id} == m.runner.jobs - {id};
        SaveKeepsNode(m, RetryStep(m.runner, id, now).0, id, e, ApplyEvent(s, e).value);
      }
    }
  }

  lemma BeginKeepsNode(n: Node, now: Time)
    requires NodeSound(n) && n.runner.clock == now && ValidRecords(n.runner.jobs)
    requires n.runner.worker.Idle? && n.runner.queue != []
    ensures NodeSound(BeginNode(n, now))
  {
    hide NodeSound, Persist, ApplyEvent, Saved, ValidJob, Sound, Load;
    NodeIsSound(n);
    BeginKeepsSound(n.runner, now);
    var r := n.runner;
    var id := r.queue[0];
    if id !in r.jobs || !r.jobs[id].state.status.Pending? {
      MemoryKeepsNode(n, BeginStep(r, now));
    } else {
      var m := n.(runner := r.(queue := r.queue[1..], nextId := r.nextId + 1));
      var e := BareEvent(r.jobs[id].state, Started, now, Some(r.nextId));
      PersistIs(n, m.runner, id, e);
      NextIsNew(n);
      if ApplyEvent(r.jobs[id].state, e).Ok? {
        SaveKeepsNode(n, BeginStep(r, now), id, e, ApplyEvent(r.jobs[id].state, e).value);
      } else {
        MemoryKeepsNode(n, BeginStep(r, now));
      }
    }
  }

  lemma ReportKeepsNode(n: Node, completed: int, total: Option<int>, phase: string, now: Time)
    requires NodeSound(n) && n.runner.clock == now && ValidRecords(n.runner.jobs)
    requires n.runner.worker.Busy?
    ensures NodeSound(ReportNode(n, completed, total, phase, now).0)
  {
    hide NodeSound, Persist, ApplyEvent, Saved, ValidJob, Sound;
    var r := n.runner;
    var id := r.worker.jobId;
    if id in r.jobs {
      var e := ProgressEvent(r.jobs[id].state, now, r.worker.attemptId, completed, total, phase);
      PersistIs(n, n.runner, id, e);
      if ApplyEvent(r.jobs[id].state, e).Ok? {
        NodeIsSound(n);
        ReportKeepsSound(r, completed, total, phase, now);
        SaveKeepsNode(n, ReportStep(r, completed, total, phase, now).0, id, e,
                      ApplyEvent(r.jobs[id].state, e).value);
      }
    }
  }

  lemma EndKeepsNode(n: Node, end: TaskEnd, now: Time)
    requires NodeSound(n) && n.runner.clock == now && ValidRecords(n.runner.jobs)
    requires n.runner.worker.Busy?
    ensures NodeSound(EndNode(n, end, now).0)
  {
    hide NodeSound, Persist, ApplyEvent, Saved, ValidJob, Sound, EndEvent;
    var r := n.runner;
    var id := r.worker.jobId;
    NodeIsSound(n);
    EndKeepsSound(r, end, now);
    if id in r.jobs {
      var e := EndEvent(r.jobs[id].state, end, now, r.worker.attemptId);
      EndEventIs(r.jobs[id].state, end, now, r.worker.attemptId);
      PersistIs(n, r.(worker := Idle), id, e);
      if ApplyEvent(r.jobs[id].state, e).Ok? {
        SaveKeepsNode(n, EndStep(r, end, now).0, id, e, ApplyEvent(r.jobs[id].state, e).value);
      } else {
        MemoryKeepsNode(n, EndStep(r, end, now).0);
      }
    } else {
      MemoryKeepsNode(n, EndStep(r, end, now).0);
    }
  }

  // ---------------------------------------------------------------- submissions

  /** An event of a recovery, saved over a stored job that no record in memory stands for. */
  lemma RecoveryKeepsNode(n: Node, s: Job, e: Event)
    requires NodeSound(n) && s.jobId in n.db.jobs && s.jobId !in n.runner.jobs
    requires Load(n.db, s.jobId) == Ok(s) && ValidJob(s) && e.occurredAt <= n.runner.clock
    requires e.kind.Started? ==> e.attemptId.Some? && e.attemptId.value in n.runner.spared
    ensures var (db', a) := ApplyStored(n.db, s, e);
            && NodeSound(n.(db := db'))
            && !Conflict(a)
            && (a.Err? ==> db' == n.db)
            && (a.Ok? ==> a.value.jobId == s.jobId && OnlyMoved(n.db, db', s.jobId, a.value))
  {
    hide Sound, StoreSound, Load, ValidJob, ApplyEvent, Saved, SaveResult;
    if ApplyEvent(s, e).Ok? {
      var t := ApplyEvent(s, e).value;
      RecoverySaves(n, s, e, t);
    }
  }

  lemma RecoverySaves(n: Node, s: Job, e: Event, t: Job)
    requires NodeSound(n) && s.jobId in n.db.jobs && s.jobId !in n.runner.jobs
    requires Load(n.db, s.jobId) == Ok(s) && ValidJob(s) && e.occurredAt <= n.runner.clock
    requires e.kind.Started? ==> e.attemptId.Some? && e.attemptId.value in n.runner.spared
    requires ApplyEvent(s, e) == Ok(t)
    ensures t.jobId == s.jobId && ApplyStored(n.db, s, e) == (Saved(n.db, t), Ok(t))
    ensures OnlyMoved(n.db, Saved(n.db, t), s.jobId, t)
    ensures NodeSound(n.(db := Saved(n.db, t)))
  {
    hide Sound, Stored, Load, ValidJob, ApplyEvent, ApplyStored, Saved, JobSound;
    SaveMovesStore(n.db, s, e, t);
    SaveKeepsStore(n, n.(db := Saved(n.db, t)), s, e, t);
  }

  /** The row of a new job, or the stored job its key belongs to; neither is registered. */
  lemma CreateKeepsNode(n: Node, candidate: Job)
    requires NodeSound(n) && ValidJob(candidate) && NewJob(candidate)
    requires candidate.jobId == n.runner.nextId && candidate.createdAt <= n.runner.clock
    requires candidate.idempotencyKey !in n.runner.index
    ensures var (db', made) := CreateRow(n.db, candidate);
            && NodeSound(Node(n.runner.(nextId := n.runner.nextId + 1), db'))
            && (made.Ok? ==> made.value.jobId in db'.jobs && made.value.jobId !in n.runner.jobs
                             && Load(db', made.value.jobId) == made)
  {
    hide Sound, Stored, Load, ValidJob, CreateRow, JobSound;
    NextIsNew(n);
    CreatedRow(n.db, candidate);
    var (db', made) := CreateRow(n.db, candidate);
    var n' := Node(n.runner.(nextId := n.runner.nextId + 1), db');
    MintKeepsSound(n.runner);
    forall id | id in db'.jobs
      ensures Load(db', id).Ok? && JobSound(n'.runner, Load(db', id).value)
    {
      if id in n.db.jobs {
        assert Load(db', id) == Load(n.db, id);
        NextKeepsJob(n.runner, Load(n.db, id).value);
      } else {
        NewJobSound(n, candidate);
      }
    }
    if made.Ok? {
      KeyOwnerIsFree(n, db', candidate, made.value);
    }
  }

  lemma NextIsNew(n: Node)
    requires NodeSound(n)
    ensures n.runner.nextId !in n.db.jobs && n.runner.nextId !in n.runner.spared
  {
    hide Sound, Mirrors, Stored, Load, ValidJob, JobSound;
    var id := n.runner.nextId;
    if id in n.db.jobs {
      LoadedIsValid(n.db, id);
      JobIsOld(n.runner, Load(n.db, id).value);
    }
  }

  lemma NextKeepsJob(r: Runner, s: Job)
    requires JobSound(r, s)
    ensures JobSound(r.(nextId := r.nextId + 1), s)
  {
    hide ValidJob, PendingLeavesRoom, BodiesOf, Without, AttemptIds;
  }

  lemma NewJobSound(n: Node, s: Job)
    requires StoreSound(n) && ValidJob(s) && NewJob(s)
    requires s.jobId == n.runner.nextId && s.createdAt <= n.runner.clock
    ensures JobSound(n.runner.(nextId := n.runner.nextId + 1), s)
  {
    hide Stored, Load;
    NoBodies(n.runner.bodies, n.runner.nextId);
    FreshIsSound(s, n.runner.clock, n.runner.nextId + 1);
    assert AttemptIds(s.attempts) == [];
    hide ValidJob;
  }

  lemma StoredConstraints(db: Db)
    requires Stored(db)
    ensures Constraints(db)
  {
    hide Constraints, GoodHistory, Step, Stored;
    var sys := StoredSystem(db);
  }

  lemma CreatedRow(db: Db, candidate: Job)
    requires Stored(db) && ValidJob(candidate) && NewJob(candidate) && candidate.jobId !in db.jobs
    ensures var (db', made) := CreateRow(db, candidate);
            && Stored(db')
            && (forall id :: id in db.jobs ==> id in db'.jobs && Load(db', id) == Load(db, id))
            && (forall id :: id in db'.jobs && id !in db.jobs ==>
                  id == candidate.jobId && made == Ok(candidate) && Load(db', id) == made)
            && (made.Ok? && db' == db ==>
                  && made.value.jobId in db.jobs && Load(db, made.value.jobId) == made
                  && made.value.idempotencyKey == candidate.idempotencyKey)
            && (made.Ok? && db' != db ==> made == Ok(candidate) && candidate.jobId in db'.jobs)
  {
    hide Consistent, Load, ValidJob, CreateResult, Constraints, Stored;
    StoredConstraints(db);
    CreateRoundTrips(db, candidate);
    var sys := StoredSystem(db);
    assert Step(sys, Create(candidate)).db == CreateRow(db, candidate).0;
    var (db', made) := CreateRow(db, candidate);
    if made.Ok? && db' == db {
      var id :| id in db.jobs && Load(db, id) == made
                && db.jobs[id].idempotencyKey == candidate.idempotencyKey;
      LoadedIsValid(db, id);
      LoadedKey(db, id);
    }
  }

  lemma KeyOwnerIsFree(n: Node, db': Db, candidate: Job, s: Job)
    requires NodeSound(n) && candidate.idempotencyKey !in n.runner.index
    requires candidate.jobId == n.runner.nextId
    requires s == candidate || (s.jobId in n.db.jobs && Load(n.db, s.jobId) == Ok(s)
                                && s.idempotencyKey == candidate.idempotencyKey)
    ensures s.jobId !in n.runner.jobs
  {
    hide Load, ValidJob, QueueSound, PendingQueued, WorkerSound, BodiesMatch, Stored;
  }

  /** A stored job is recovered by events that leave memory alone. */
  lemma CloseKeepsNode(n: Node, s: Job, now: Time)
    requires NodeSound(n) && s.jobId in n.db.jobs && s.jobId !in n.runner.jobs
    requires Load(n.db, s.jobId) == Ok(s) && ValidJob(s) && now <= n.runner.clock
    ensures var (db', a) := CloseLeftover(n.db, s, now);
            && NodeSound(n.(db := db'))
            && (a.Ok? ==> a.value.jobId == s.jobId && s.jobId in db'.jobs
                          && Load(db', s.jobId) == Ok(a.value))
  {
    hide NodeSound, Load, ValidJob, ApplyStored;
    if s.status.Running? {
      RunningHasAttempt(s);
      RecoveryKeepsNode(n, s, FailureEvent(s, FinishedInterrupted, now, Last(s.attempts).attemptId,
                                           "worker_interrupted", true));
    } else if s.status.CancelRequested? {
      RunningHasAttempt(s);
      RecoveryKeepsNode(n, s, BareEvent(s, FinishedCancelled, now, Some(Last(s.attempts).attemptId)));
    }
  }

  lemma RecoverKeepsNode(n: Node, s: Job, src: Source)
    requires NodeSound(n) && s.jobId in n.db.jobs && s.jobId !in n.runner.jobs
    requires Load(n.db, s.jobId) == Ok(s) && ValidJob(s)
    requires src.first <= n.runner.clock && src.second <= n.runner.clock
    ensures var (db', a) := RecoverState(n.db, s, src);
            && NodeSound(n.(db := db'))
            && (a.Ok? ==> a.value.jobId == s.jobId && s.jobId in db'.jobs
                          && Load(db', s.jobId) == Ok(a.value))
  {
    hide NodeSound, Load, ValidJob, ApplyStored, CloseLeftover, InterruptedWithRoom;
    CloseKeepsNode(n, s, src.first);
    var (db', a) := CloseLeftover(n.db, s, src.first);
    if a.Ok? && !s.status.CancelRequested? && InterruptedWithRoom(a.value) {
      RecoveryKeepsNode(n.(db := db'), a.value, BareEvent(a.value, RetryRequested, src.second, None));
    }
  }

  lemma SubmitKeepsNode(n: Node, q: Request, now: Time, src: Source)
    requires NodeSound(n) && now <= n.runner.clock
    requires src.first <= n.runner.clock && src.second <= n.runner.clock
    ensures NodeSound(SubmitNode(n, q, now, src).0)
  {
    hide NodeSound, Candidate, CreateRow, RecoverState, Load, ValidJob;
    var r := n.runner;
    var built := Candidate(q, r.nextId, now);
    if !r.closed && built.Ok? {
      if q.idempotencyKey in r.index {
        NodeIsSound(n);
        MintKeepsSound(r);
        MemoryKeepsNode(n, r.(nextId := r.nextId + 1));
      } else {
        CandidateIsNew(q, r.nextId, now);
        CreateKeepsNode(n, built.value);
        var (db', made) := CreateRow(n.db, built.value);
        var m := Node(r.(nextId := r.nextId + 1), db');
        if made.Ok? {
          RecoverKeepsNode(m, made.value, src);
          var (db'', recovered) := RecoverState(db', made.value, src);
          if recovered.Ok? && recovered.value.status.Pending? {
            QueuedKeepsNode(m.(db := db''), recovered.value);
          }
        }
      }
    }
  }

  lemma CandidateIsNew(q: Request, id: Uuid, now: Time)
    requires Candidate(q, id, now).Ok?
    ensures var s := Candidate(q, id, now).value;
            && ValidJob(s) && NewJob(s) && s.jobId == id && s.createdAt == now
            && s.idempotencyKey == q.idempotencyKey
  {
  }

  // ---------------------------------------------------------------- scans

  /** A scan over what is stored, with its own clock readings and identities. */
  ghost predicate ScanFits(n: Node, task: ScanTask, done: Time) {
    && ListsUnfinished(n.db, task.listed) && Ready(task, START)
    && task.known == n.runner.jobs.Keys
    && n.runner.clock <= done
    && forall i :: 0 <= i < |task.listed| ==>
         && task.srcs(i).freshId == n.runner.nextId + i
         && n.runner.clock <= task.srcs(i).first <= task.srcs(i).second <= done
  }

  function ScanOf(db: Db, sc: Scanner): Scan {
    Scan(db, sc.reported, sc.enqueued, sc.aborted)
  }

  /** The process while its scan stands at `sc`. */
  function Amid(n: Node, task: ScanTask, done: Time, db: Db, sc: Scanner): Node {
    Scanned(n, ScanOf(db, sc), |task.listed|, done)
  }

  /** The snapshots still to come, and what the scan holds, are what is stored. */
  ghost predicate UpToDate(task: ScanTask, db: Db, sc: Scanner) {
    && (forall k :: sc.n <= k < |task.listed| && (k == sc.n ==> sc.stage.Fresh?) ==>
          Registered(task.known, sc.enqueued, task.listed[k].jobId)
          || Load(db, task.listed[k].jobId) == Ok(task.listed[k]))
    && (sc.stage.Retrying? || sc.stage.Failing? ==>
          && sc.n < |task.listed| && sc.stage.held.jobId == task.listed[sc.n].jobId
          && !Registered(task.known, sc.enqueued, sc.stage.held.jobId)
          && Load(db, sc.stage.held.jobId) == Ok(sc.stage.held))
    && !sc.stage.Reloading?
  }

  ghost predicate ScanSound(n: Node, task: ScanTask, done: Time, db: Db, sc: Scanner) {
    NodeSound(Amid(n, task, done, db, sc)) && Ready(task, sc) && UpToDate(task, db, sc)
  }

  lemma {:induction false} WithoutMore(ids: seq<Uuid>, spared: set<Uuid>, more: set<Uuid>)
    requires forall i :: 0 <= i < |ids| ==> ids[i] !in more
    ensures Without(ids, spared + more) == Without(ids, spared)
  {
    hide Without;
    if ids == [] {
      NothingWithout(spared);
      NothingWithout(spared + more);
    } else {
      var rest := ids[..|ids| - 1];
      WithoutMore(rest, spared, more);
      WithoutNext(rest, Last(ids), spared);
      WithoutNext(rest, Last(ids), spared + more);
      assert ids == rest + [Last(ids)];
    }
  }

  /** Identities set aside are no job's yet. */
  function SetAside(r: Runner, size: nat, done: Time): Runner {
    r.(clock := done, nextId := r.nextId + size, spared := r.spared + IdsFrom(r.nextId, size))
  }

  lemma AsideKeepsJob(r: Runner, s: Job, size: nat, done: Time)
    requires JobSound(r, s) && r.clock <= done
    ensures JobSound(SetAside(r, size, done), s)
  {
    hide ValidJob, PendingLeavesRoom, BodiesOf, Without;
    WithoutMore(AttemptIds(s.attempts), r.spared, IdsFrom(r.nextId, size));
  }

  lemma AsideKeepsSound(r: Runner, size: nat, done: Time)
    requires Sound(r) && r.clock <= done
    ensures Sound(SetAside(r, size, done))
  {
    hide ValidJob, PendingLeavesRoom, BodiesOf, Without, QueueSound, PendingQueued, WorkerSound,
      IndexInverse, AttemptIds;
    AsideKeepsSchedule(r, size, done);
    var r' := SetAside(r, size, done);
    forall id | id in r'.jobs
      ensures BodiesOf(r'.bodies, id) == Without(AttemptIds(r'.jobs[id].state.attempts), r'.spared)
    {
      AsideKeepsBodies(r, r.jobs[id].state, size);
    }
  }

  lemma AsideKeepsBodies(r: Runner, s: Job, size: nat)
    requires IdsBelow(s, r.nextId)
    ensures Without(AttemptIds(s.attempts), r.spared + IdsFrom(r.nextId, size))
         == Without(AttemptIds(s.attempts), r.spared)
  {
    WithoutMore(AttemptIds(s.attempts), r.spared, IdsFrom(r.nextId, size));
  }

  lemma AsideKeepsSchedule(r: Runner, size: nat, done: Time)
    requires IndexInverse(r) && QueueSound(r) && PendingQueued(r) && WorkerSound(r)
    ensures var r' := SetAside(r, size, done);
            IndexInverse(r') && QueueSound(r') && PendingQueued(r') && WorkerSound(r')
  {
  }

  lemma AsideKeepsNode(n: Node, size: nat, done: Time)
    requires NodeSound(n) && n.runner.clock <= done
    ensures NodeSound(n.(runner := SetAside(n.runner, size, done)))
  {
    hide Sound, Stored, Load, JobSound;
    AsideKeepsSound(n.runner, size, done);
    var n' := n.(runner := SetAside(n.runner, size, done));
    forall id | id in n'.db.jobs ensures JobSound(n'.runner, Load(n'.db, id).value) {
      AsideKeepsJob(n.runner, Load(n.db, id).value, size, done);
    }
  }

  lemma ScanBegins(n: Node, task: ScanTask, done: Time)
    requires NodeSound(n) && ScanFits(n, task, done)
    ensures ScanSound(n, task, done, n.db, START)
  {
    hide NodeSound, Load, ValidJob, JobsWith, IndexWith, IdList;
    AsideKeepsNode(n, |task.listed|, done);
    NothingEnqueued(n.runner.jobs, n.runner.index);
    assert Amid(n, task, done, n.db, START) == n.(runner := SetAside(n.runner, |task.listed|, done));
    ListedValid(n.db, task.listed);
    forall k | 0 <= k < |task.listed|
      ensures Load(n.db, task.listed[k].jobId) == Ok(task.listed[k])
              && !Terminal(task.listed[k].status)
    {
      ListedIsStored(n.db, task.listed, k);
    }
  }

  /** What the scan saves next is an event over what is stored for a job not registered. */
  lemma NextSaveFits(n: Node, task: ScanTask, done: Time, db: Db, sc: Scanner)
    requires ScanFits(n, task, done) && ScanSound(n, task, done, db, sc) && !Over(task, sc)
    requires NextSave(task, sc).Some?
    ensures var (s, e) := NextSave(task, sc).value;
            var m := Amid(n, task, done, db, sc);
            && s.jobId == task.listed[sc.n].jobId && ValidJob(s)
            && s.jobId in db.jobs && s.jobId !in m.runner.jobs && Load(db, s.jobId) == Ok(s)
            && e.occurredAt <= m.runner.clock
            && (e.kind.Started? ==> e.attemptId.Some? && e.attemptId.value in m.runner.spared)
  {
    hide NodeSound, ValidJob, JobsWith, IndexWith, IdList, Registered, ListsUnfinished, Load;
    var s := NextSave(task, sc).value.0;
    RegisteredIsKnown(n.runner.jobs, sc.enqueued, s.jobId);
    LoadedIsStored(db, s.jobId);
  }

  lemma LoadedIsStored(db: Db, id: Uuid)
    ensures Load(db, id).Ok? ==> id in db.jobs
  {
  }

  /** The scan queues a job it left pending. */
  lemma ReportKeepsScan(n: Node, task: ScanTask, done: Time, db: Db, sc: Scanner, t: Job)
    requires ScanFits(n, task, done) && Ready(task, sc) && !Over(task, sc) && sc.aborted.None?
    requires NodeSound(Amid(n, task, done, db, sc))
    requires t.jobId == task.listed[sc.n].jobId && Load(db, t.jobId) == Ok(t)
    requires forall k :: sc.n < k < |task.listed| ==>
               Registered(task.known, sc.enqueued, task.listed[k].jobId)
               || Load(db, task.listed[k].jobId) == Ok(task.listed[k])
    ensures ScanSound(n, task, done, db, Reported(task, sc, t))
  {
    hide NodeSound, ValidJob, JobsWith, IndexWith, IdList, ListsUnfinished, Load;
    var m := Amid(n, task, done, db, sc);
    var sc' := Reported(task, sc, t);
    if sc'.enqueued != sc.enqueued {
      RegisteredIsKnown(n.runner.jobs, sc.enqueued, t.jobId);
      LoadedIsStored(db, t.jobId);
      QueuedKeepsNode(m, t);
      EnqueuedExtend(n.runner.jobs, n.runner.index, sc.enqueued, t);
      assert m.runner.queue + [t.jobId] == n.runner.queue + (IdList(sc.enqueued) + [t.jobId]);
      assert Amid(n, task, done, db, sc') == m.(runner := Queued(m.runner, t));
      forall k | sc.n < k < |task.listed| && Registered(task.known, sc.enqueued, task.listed[k].jobId)
        ensures Registered(task.known, sc'.enqueued, task.listed[k].jobId)
      {
        StaysRegistered(task.known, sc.enqueued, t, task.listed[k].jobId);
      }
    }
  }

  lemma StaysRegistered(known: set<Uuid>, enqueued: seq<Job>, t: Job, id: Uuid)
    requires Registered(known, enqueued, id)
    ensures Registered(known, enqueued + [t], id)
  {
    if id !in known {
      var i :| 0 <= i < |enqueued| && enqueued[i].jobId == id;
      assert (enqueued + [t])[i].jobId == id;
    }
  }

  lemma ScanStepKeeps(n: Node, task: ScanTask, done: Time, db: Db, sc: Scanner)
    requires ScanFits(n, task, done) && ScanSound(n, task, done, db, sc) && !Over(task, sc)
    ensures var (db', sc') := ScanStep(task, db, sc); ScanSound(n, task, done, db', sc')
  {
    hide NodeSound, ValidJob, Amid, Load, ListsUnfinished, NextSave, Answer, Passed, ApplyStored,
      UpToDate;
    if NextSave(task, sc).Some? {
      SaveKeepsScan(n, task, done, db, sc);
    } else {
      PassKeepsScan(n, task, done, db, sc);
    }
  }

  lemma PassKeepsScan(n: Node, task: ScanTask, done: Time, db: Db, sc: Scanner)
    requires ScanFits(n, task, done) && ScanSound(n, task, done, db, sc) && !Over(task, sc)
    requires NextSave(task, sc).None?
    ensures ScanSound(n, task, done, db, Passed(task, db, sc))
  {
    hide NodeSound, ValidJob, Load, ListsUnfinished, JobsWith, IndexWith, IdList, Registered;
    var s := task.listed[sc.n];
    if !Registered(task.known, sc.enqueued, s.jobId) {
      ReportKeepsScan(n, task, done, db, sc, s);
    }
  }

  lemma SaveKeepsScan(n: Node, task: ScanTask, done: Time, db: Db, sc: Scanner)
    requires ScanFits(n, task, done) && ScanSound(n, task, done, db, sc) && !Over(task, sc)
    requires NextSave(task, sc).Some?
    ensures var (db', sc') := ScanStep(task, db, sc); ScanSound(n, task, done, db', sc')
  {
    hide NodeSound, ValidJob, Load, ListsUnfinished, JobsWith, IndexWith, IdList, Registered, NextSave,
      ApplyStored, Conflict, InterruptedWithRoom;
    NextSaveFits(n, task, done, db, sc);
    var (s, e) := NextSave(task, sc).value;
    var m := Amid(n, task, done, db, sc);
    RecoveryKeepsNode(m, s, e);
    var (db', r) := ApplyStored(db, s, e);
    assert Amid(n, task, done, db', sc) == m.(db := db');
    if r.Ok? {
      LaterStayCurrent(n, task, done, db, db', sc, r.value);
      NotRegistered(n, task, sc, s.jobId);
      var sc' := Answer(task, sc, r);
      if sc'.n != sc.n {
        ReportKeepsScan(n, task, done, db', sc, r.value);
      }
    }
  }

  lemma NotRegistered(n: Node, task: ScanTask, sc: Scanner, id: Uuid)
    requires task.known == n.runner.jobs.Keys && id !in JobsWith(n.runner.jobs, sc.enqueued)
    ensures !Registered(task.known, sc.enqueued, id)
  {
    RegisteredIsKnown(n.runner.jobs, sc.enqueued, id);
  }

  /** Saving one job leaves the snapshots of the later ones current. */
  lemma LaterStayCurrent(n: Node, task: ScanTask, done: Time, db: Db, db': Db, sc: Scanner, t: Job)
    requires ScanFits(n, task, done) && UpToDate(task, db, sc) && sc.n < |task.listed|
    requires OnlyMoved(db, db', task.listed[sc.n].jobId, t)
    ensures Load(db', task.listed[sc.n].jobId) == Ok(t)
    ensures forall k :: sc.n < k < |task.listed| ==>
              Registered(task.known, sc.enqueued, task.listed[k].jobId)
              || Load(db', task.listed[k].jobId) == Ok(task.listed[k])
  {
    hide ListsUnfinished, Load, Registered;
    forall k | sc.n < k < |task.listed|
      ensures Registered(task.known, sc.enqueued, task.listed[k].jobId)
              || Load(db', task.listed[k].jobId) == Ok(task.listed[k])
    {
      Distinct(n.db, task.listed, sc.n, k);
    }
  }

  /** The first `limit` steps of a scan, or all of them. */
  function ScanFor(task: ScanTask, db: Db, sc: Scanner, limit: nat): (r: (Db, Scanner))
    requires Ready(task, sc)
    ensures Ready(task, r.1)
    decreases limit
  {
    if limit == 0 || Over(task, sc) then (db, sc)
    else
      var (db', sc') := ScanStep(task, db, sc);
      ScanFor(task, db', sc', limit - 1)
  }

  lemma {:induction false} ScanForKeeps(n: Node, task: ScanTask, done: Time, db: Db, sc: Scanner,
                                        limit: nat)
    requires ScanFits(n, task, done) && ScanSound(n, task, done, db, sc)
    ensures var (db', sc') := ScanFor(task, db, sc, limit); ScanSound(n, task, done, db', sc')
    decreases limit
  {
    hide ScanFits, NodeSound, ScanStep, UpToDate, Amid;
    if limit > 0 && !Over(task, sc) {
      ScanStepKeeps(n, task, done, db, sc);
      var (db', sc') := ScanStep(task, db, sc);
      ScanForKeeps(n, task, done, db', sc', limit - 1);
    }
  }

  lemma {:induction false} RunScanKeeps(n: Node, task: ScanTask, done: Time, db: Db, sc: Scanner)
    requires ScanFits(n, task, done) && ScanSound(n, task, done, db, sc)
    ensures var (db', sc') := RunScan(task, db, sc); ScanSound(n, task, done, db', sc')
    decreases StepsLeft(task, sc)
  {
    hide ScanFits, NodeSound, ScanStep, UpToDate, Amid;
    if !Over(task, sc) {
      ScanStepKeeps(n, task, done, db, sc);
      var (db', sc') := ScanStep(task, db, sc);
      RunScanKeeps(n, task, done, db', sc');
    }
  }

  lemma ScanKeepsNode(n: Node, task: ScanTask, done: Time)
    requires NodeSound(n) && ScanFits(n, task, done)
    ensures Ready(task, START)
    ensures var scan := ScanUpTo(n.db, task.listed, |task.listed|, task.known, task.canRun, task.srcs);
            NodeSound(Scanned(n, scan, |task.listed|, done))
  {
    hide ScanFits, NodeSound, RunScan, UpToDate, ScanUpTo, JobsWith, IndexWith, IdList;
    ScanBegins(n, task, done);
    RunScanKeeps(n, task, done, n.db, START);
    ScannerIsScan(task, n.db);
  }

  // ---------------------------------------------------------------- lives

  /** A new process over the same store: nothing in memory, but no identity is drawn twice. */
  function Reborn(n: Node): Node {
    var r := n.runner;
    n.(runner := NewRunner(r.clock).(nextId := r.nextId, bodies := r.bodies, spared := r.spared))
  }

  /**
    What can happen next: a call or a step of the worker, a scan, or the death of the process,
    between calls or inside one, after any of the saves that call makes. Of the calls only a
    submission and a scan save more than once.
   */
  datatype LifeStep =
    | Calls(op: Op, src: Source)
    | Scans(task: ScanTask, done: Time)
    | Dies
    | DiesSubmitting(request: Request, src: Source, saves: nat)
    | DiesScanning(task: ScanTask, done: Time, steps: nat)

  ghost predicate CanHappen(n: Node, step: LifeStep, now: Time) {
    match step
    case Calls(op, src) => Enabled(n.runner, op, now) && now <= src.first <= src.second
    case Scans(task, done) => !n.runner.closed && ScanFits(n, task, done)
    case Dies => true
    case DiesSubmitting(_, src, _) => n.runner.clock <= now <= src.first <= src.second
    case DiesScanning(task, done, _) => !n.runner.closed && ScanFits(n, task, done)
  }

  ghost function Called(n: Node, op: Op, src: Source, now: Time): Node
    requires Enabled(n.runner, op, now)
  {
    var m := n.(runner := n.runner.(clock := if op.Submit? then src.second else now));
    match op
    case Submit(q) => SubmitNode(m, q, now, src).0
    case Cancel(id) => CancelNode(m, id, now).0
    case Retry(id) => RetryNode(m, id, now).0
    case Shutdown(wait) => m.(runner := ShutdownStep(m.runner, wait))
    case BeginTask => BeginNode(m, now)
    case ReportUnits(completed, total, phase) => ReportNode(m, completed, total, phase, now).0
    case EndTask(end) => EndNode(m, end, now).0
  }

  /** The store after the first saves of a submission: the row, then the end of a leftover attempt. */
  ghost function SubmittedFor(n: Node, q: Request, now: Time, src: Source, saves: nat): Db {
    var built := Candidate(q, n.runner.nextId, now);
    if saves == 0 || n.runner.closed || built.Err? || q.idempotencyKey in n.runner.index then n.db
    else
      var (db', made) := CreateRow(n.db, built.value);
      if saves == 1 || made.Err? then db' else CloseLeftover(db', made.value, src.first).0
  }

  ghost function After(n: Node, step: LifeStep, now: Time): Node
    requires CanHappen(n, step, now)
  {
    match step
    case Calls(op, src) => Called(n, op, src, now)
    case Scans(task, done) =>
      Scanned(n, ScanUpTo(n.db, task.listed, |task.listed|, task.known, task.canRun, task.srcs),
              |task.listed|, done)
    case Dies => Reborn(n)
    case DiesSubmitting(q, src, saves) =>
      Reborn(Node(n.runner.(clock := src.second, nextId := n.runner.nextId + 1),
                  SubmittedFor(n, q, now, src, saves)))
    case DiesScanning(task, done, steps) =>
      var (db', sc) := ScanFor(task, n.db, START, steps);
      Reborn(Amid(n, task, done, db', sc))
  }

  /** `steps[i]` at `times[i]` takes `nodes[i]` to `nodes[i + 1]`; the store is empty at first. */
  ghost predicate IsLife(nodes: seq<Node>, steps: seq<LifeStep>, times: seq<Time>) {
    && |nodes| == |steps| + 1 == |times| + 1
    && (exists start :: nodes[0] == Node(NewRunner(start), Db(map[], map[])))
    && forall i :: 0 <= i < |steps| ==>
         CanHappen(nodes[i], steps[i], times[i]) && nodes[i + 1] == After(nodes[i], steps[i], times[i])
  }

  lemma ClockKeepsNode(n: Node, now: Time)
    requires NodeSound(n) && n.runner.clock <= now
    ensures NodeSound(n.(runner := n.runner.(clock := now)))
  {
    hide NodeSound, Sound;
    NodeIsSound(n);
    LaterClock(n.runner, now);
    MemoryKeepsNode(n, n.runner.(clock := now));
  }

  lemma CallKeepsNode(n: Node, op: Op, src: Source, now: Time)
    requires NodeSound(n) && Enabled(n.runner, op, now) && now <= src.first <= src.second
    ensures NodeSound(Called(n, op, src, now))
  {
    hide NodeSound, Sound, SubmitNode, CancelNode, RetryNode, BeginNode, ReportNode, EndNode,
      ShutdownStep, ValidJob;
    var m := n.(runner := n.runner.(clock := if op.Submit? then src.second else now));
    ClockKeepsNode(n, m.runner.clock);
    match op
    case Submit(q) => SubmitKeepsNode(m, q, now, src);
    case Cancel(id) => CancelKeepsNode(m, id, now);
    case Retry(id) => RetryKeepsNode(m, id, now);
    case Shutdown(wait) => ShutdownKeepsNode(m, wait);
    case BeginTask => BeginKeepsNode(m, now);
    case ReportUnits(completed, total, phase) => ReportKeepsNode(m, completed, total, phase, now);
    case EndTask(end) => EndKeepsNode(m, end, now);
  }

  lemma ShutdownKeepsNode(n: Node, wait: bool)
    requires NodeSound(n)
    ensures NodeSound(n.(runner := ShutdownStep(n.runner, wait)))
  {
    hide NodeSound, Sound;
    NodeIsSound(n);
    ShutdownKeepsSound(n.runner, wait);
    MemoryKeepsNode(n, ShutdownStep(n.runner, wait));
  }

  lemma DeathKeepsNode(n: Node)
    requires NodeSound(n)
    ensures NodeSound(Reborn(n))
  {
    hide Stored, Load, JobSound;
    StoreStays(n, Reborn(n));
  }

  lemma MintKeepsNode(n: Node)
    requires NodeSound(n)
    ensures NodeSound(n.(runner := n.runner.(nextId := n.runner.nextId + 1)))
  {
    hide NodeSound, Sound;
    NodeIsSound(n);
    MintKeepsSound(n.runner);
    MemoryKeepsNode(n, n.runner.(nextId := n.runner.nextId + 1));
  }

  lemma SubmittingKeepsNode(n: Node, q: Request, now: Time, src: Source, saves: nat)
    requires NodeSound(n) && now <= n.runner.clock && src.first <= n.runner.clock
    ensures NodeSound(Node(n.runner.(nextId := n.runner.nextId + 1),
                           SubmittedFor(n, q, now, src, saves)))
  {
    hide NodeSound, Candidate, CreateRow, CloseLeftover, Load, ValidJob, Sound;
    MintKeepsNode(n);
    var built := Candidate(q, n.runner.nextId, now);
    if built.Ok? && q.idempotencyKey !in n.runner.index {
      CandidateIsNew(q, n.runner.nextId, now);
      CreateKeepsNode(n, built.value);
      var (db', made) := CreateRow(n.db, built.value);
      if made.Ok? {
        CloseKeepsNode(Node(n.runner.(nextId := n.runner.nextId + 1), db'), made.value, src.first);
      }
    }
  }

  lemma StepKeepsNode(n: Node, step: LifeStep, now: Time)
    requires NodeSound(n) && CanHappen(n, step, now)
    ensures NodeSound(After(n, step, now))
  {
    hide NodeSound, ScanFits, Enabled, Called, SubmittedFor, ScanFor, ScanUpTo, Amid, Scanned, Reborn,
      ListsUnfinished, ValidJob, UpToDate;
    match step
    case Calls(op, src) => CallKeepsNode(n, op, src, now);
    case Scans(task, done) => ScanKeepsNode(n, task, done);
    case Dies => DeathKeepsNode(n);
    case DiesSubmitting(q, src, saves) =>
      ClockKeepsNode(n, src.second);
      SubmittedForIgnoresClock(n, q, now, src, saves);
      SubmittingKeepsNode(n.(runner := n.runner.(clock := src.second)), q, now, src, saves);
      DeathKeepsNode(Node(n.runner.(clock := src.second, nextId := n.runner.nextId + 1),
                          SubmittedFor(n, q, now, src, saves)));
    case DiesScanning(task, done, steps) =>
      ScanBegins(n, task, done);
      ScanForKeeps(n, task, done, n.db, START, steps);
      var (db', sc) := ScanFor(task, n.db, START, steps);
      DeathKeepsNode(Amid(n, task, done, db', sc));
  }

  lemma SubmittedForIgnoresClock(n: Node, q: Request, now: Time, src: Source, saves: nat)
    ensures SubmittedFor(n.(runner := n.runner.(clock := src.second)), q, now, src, saves)
         == SubmittedFor(n, q, now, src, saves)
  {
  }

  lemma FirstNodeSound(start: Time)
    ensures NodeSound(Node(NewRunner(start), Db(map[], map[])))
  {
    NewRunnerSound(start);
    assert Execute(EMPTY, []).db == Db(map[], map[]);
  }

  /**
    In every life, wherever its processes died: what is in memory is what is stored; each stored
    job is the end of one legal run and can be recovered; the index and the records are mutually
    inverse; the queue, the worker and the log of bodies fit the jobs.
   */
  lemma {:induction false} LivesSound(nodes: seq<Node>, steps: seq<LifeStep>, times: seq<Time>, i: nat)
    requires IsLife(nodes, steps, times) && i < |nodes|
    ensures NodeSound(nodes[i])
  {
    hide NodeSound, CanHappen, After;
    if i == 0 {
      var start :| nodes[0] == Node(NewRunner(start), Db(map[], map[]));
      FirstNodeSound(start);
    } else {
      LivesSound(nodes, steps, times, i - 1);
      StepKeepsNode(nodes[i - 1], steps[i - 1], times[i - 1]);
    }
  }

  /**
    Over all processes together the body of a job's task is started at most once for each attempt,
    for no other attempt, and so at most `maxAttempts` times.
   */
  lemma BodiesOnce(n: Node, id: Uuid)
    requires NodeSound(n) && id in n.db.jobs
    ensures Load(n.db, id).Ok?
    ensures var s, started := Load(n.db, id).value, BodiesOf(n.runner.bodies, id);
            && |started| <= |s.attempts| <= s.maxAttempts
            && (forall i :: 0 <= i < |started| ==> started[i] in AttemptIds(s.attempts))
            && (forall i, k :: 0 <= i < k < |started| ==> started[i] != started[k])
  {
    hide Sound, Stored, Mirrors, Load, ValidJob;
    LoadedIsValid(n.db, id);
    var s := Load(n.db, id).value;
    AttemptsDiffer(s);
    WithoutKeeps(AttemptIds(s.attempts), n.runner.spared);
  }

  lemma AttemptsDiffer(s: Job)
    requires ValidJob(s)
    ensures |s.attempts| <= s.maxAttempts
    ensures forall i, k :: 0 <= i < k < |AttemptIds(s.attempts)| ==>
              AttemptIds(s.attempts)[i] != AttemptIds(s.attempts)[k]
  {
    assert ValidAttempts(s);
  }

  // ---------------------------------------------------------------- nothing is lost

  /** Every unfinished job of the store has its record, and none was registered without an entry. */
  ghost predicate Covered(n: Node) {
    && n.runner.parked == {}
    && forall id :: id in n.db.jobs && Load(n.db, id).Ok? && !Terminal(Load(n.db, id).value.status) ==>
         id in n.runner.jobs
  }

  /**
    While that holds and the runner is open, every pending job waits in the queue, and every active
    one is the job whose body runs, unless its finish was refused.
   */
  lemma NothingIsLost(n: Node, id: Uuid)
    requires NodeSound(n) && Covered(n) && !n.runner.closed && id in n.db.jobs
    ensures Load(n.db, id).Ok?
    ensures var s := Load(n.db, id).value;
            && (s.status.Pending? ==> id in n.runner.queue)
            && (Active(s) ==> (n.runner.worker.Busy? && n.runner.worker.jobId == id)
                              || id in n.runner.stuck)
  {
    hide Load, ValidJob, RecordsSound, BodiesMatch, JobSound, Stored;
  }

  lemma SourcesAreGood(n: Node, task: ScanTask, done: Time, i: nat)
    requires NodeSound(n) && ScanFits(n, task, done) && i < |task.listed|
    ensures ValidJob(task.listed[i]) && PendingLeavesRoom(task.listed[i])
    ensures GoodSource(task.listed[i], task.srcs(i))
  {
    hide Sound, Stored, Mirrors, Load, ValidJob, PendingLeavesRoom, ListsUnfinished;
    var s := task.listed[i];
    ListedIsStored(n.db, task.listed, i);
    LoadedIsStored(n.db, s.jobId);
    assert JobSound(n.runner, s);
  }

  lemma RebornIsUndisturbed(n: Node, task: ScanTask, done: Time)
    requires NodeSound(n) && n.runner.jobs == map[] && ScanFits(n, task, done)
    ensures Undisturbed(n.db, task.listed, task.known, task.srcs)
  {
    hide NodeSound, Load, ValidJob, PendingLeavesRoom, GoodSource, ListsUnfinished;
    forall i | 0 <= i < |task.listed|
      ensures ValidJob(task.listed[i]) && PendingLeavesRoom(task.listed[i])
              && GoodSource(task.listed[i], task.srcs(i))
    {
      SourcesAreGood(n, task, done, i);
    }
  }

  /**
    However the last process died, one scan of the next recovers all it left, stranded jobs
    included: no stored job is active any more, exactly the pending ones wait in the queue, in the
    order of the scan, and nothing unfinished is without a record.
   */
  lemma RestartRecovers(n: Node, task: ScanTask, done: Time)
    requires NodeSound(n) && ScanFits(Reborn(n), task, done)
    ensures Ready(task, START)
    ensures var scan := ScanUpTo(n.db, task.listed, |task.listed|, task.known, task.canRun, task.srcs);
            var n' := Scanned(Reborn(n), scan, |task.listed|, done);
            && ScanProgress(n.db, task.listed, |task.listed|, task.canRun, scan)
            && NodeSound(n') && Covered(n') && n'.runner.worker.Idle? && n'.runner.stuck == {}
            && n'.runner.queue == IdList(Pendings(scan.reported))
            && (forall id :: id in n'.db.jobs ==>
                  Load(n'.db, id).Ok? && !Active(Load(n'.db, id).value))
  {
    hide NodeSound, Load, ScanFits, ScanUpTo, ScanProgress, Undisturbed, JobsWith, IndexWith, IdList,
      ListsUnfinished, GoodSource;
    var m := Reborn(n);
    DeathKeepsNode(n);
    ScanKeepsNode(m, task, done);
    RebornIsUndisturbed(m, task, done);
    ScanConverges(n.db, task.listed, |task.listed|, task.known, task.canRun, task.srcs);
    var scan := ScanUpTo(n.db, task.listed, |task.listed|, task.known, task.canRun, task.srcs);
    QueuedAreReported(n.db, task, scan);
    ScanLists(m, task, done);
    var n' := Scanned(m, scan, |task.listed|, done);
    forall id | id in n'.db.jobs ensures Load(n'.db, id).Ok? && !Active(Load(n'.db, id).value) {
      StoredLoads(n', id);
      NothingLeftActive(n.db, task.listed, task.known, task.canRun, task.srcs, id);
    }
    forall id | id in n'.db.jobs && !Terminal(Load(n'.db, id).value.status)
      ensures id in n'.runner.jobs
    {
      UnfinishedIsQueued(n.db, task, scan, id);
      RegisteredIsKnown(m.runner.jobs, scan.enqueued, id);
    }
  }

  lemma ScanLists(n: Node, task: ScanTask, done: Time)
    requires ScanFits(n, task, done)
    ensures ListsUnfinished(n.db, task.listed) && task.known == n.runner.jobs.Keys
  {
  }

  lemma StoredLoads(n: Node, id: Uuid)
    requires NodeSound(n) && id in n.db.jobs
    ensures Load(n.db, id).Ok?
  {
    hide Sound, Stored, Mirrors, JobSound, Load;
  }

  lemma QueuedAreReported(db: Db, task: ScanTask, scan: Scan)
    requires ScanProgress(db, task.listed, |task.listed|, task.canRun, scan)
    ensures scan.enqueued == Pendings(scan.reported) && scan.aborted.None?
  {
    hide Load;
  }

  lemma {:induction false} PendingIsListed(states: seq<Job>, i: nat)
    requires i < |states| && states[i].status.Pending?
    ensures states[i] in Pendings(states)
  {
    var n := |states| - 1;
    if i < n {
      PendingIsListed(states[..n], i);
    }
  }

  /** A job still unfinished after an undisturbed scan is one the scan queued. */
  lemma UnfinishedIsQueued(db: Db, task: ScanTask, scan: Scan, id: Uuid)
    requires ListsUnfinished(db, task.listed)
    requires ScanProgress(db, task.listed, |task.listed|, task.canRun, scan)
    requires Load(scan.db, id).Ok? && !Terminal(Load(scan.db, id).value.status)
    requires !Active(Load(scan.db, id).value)
    ensures JobRecovery.Registered({}, scan.enqueued, id)
  {
    hide Load, OldestFirst, PendingLeavesRoom, ReachedLegally, Destination, Pendings;
    if i :| 0 <= i < |task.listed| && task.listed[i].jobId == id {
      PendingIsListed(scan.reported, i);
      var k :| 0 <= k < |scan.enqueued| && scan.enqueued[k] == scan.reported[i];
      assert scan.enqueued[k].jobId == id;
    } else {
      assert Load(scan.db, id) == Load(db, id);
      StoredStatus(db, id);
    }
  }

  // ---------------------------------------------------------------- what calls keep covered

  /** The step moves at most job `id` in the store, and that one has its record. */
  ghost predicate OneMoves(n: Node, n': Node, id: Uuid) {
    && n'.runner.parked == n.runner.parked && n.runner.jobs.Keys <= n'.runner.jobs.Keys
    && (n'.db == n.db || (id in n'.runner.jobs && exists t :: OnlyMoved(n.db, n'.db, id, t)))
  }

  lemma OneMovesCovered(n: Node, n': Node, id: Uuid)
    requires Covered(n) && OneMoves(n, n', id)
    ensures Covered(n')
  {
    hide Load;
  }

  /** What an unregistered job is, once everything unfinished is registered. */
  lemma AdoptsTheFinished(n: Node, id: Uuid)
    requires NodeSound(n) && Covered(n)
    ensures ValidRecords(n.runner.jobs)
    ensures var m := Adopted(n, id).0;
            && m.db == n.db && m.runner.parked == n.runner.parked && m.runner.stuck == n.runner.stuck
            && m.runner.closed == n.runner.closed && n.runner.jobs.Keys <= m.runner.jobs.Keys
  {
    hide NodeSound, Load, ValidJob;
    NodeIsSound(n);
    if id !in n.runner.jobs && id in n.db.jobs {
      StoredLoads(n, id);
    }
  }

  lemma PersistMovesOne(n: Node, id: Uuid, e: Event)
    requires NodeSound(n) && id in n.runner.jobs && ValidRecords(n.runner.jobs)
    ensures OneMoves(n, Persist(n, id, e).0, id)
    ensures Persist(n, id, e).0.runner.jobs.Keys == n.runner.jobs.Keys
  {
    hide NodeSound, ApplyEvent, Saved, ValidJob, Persist, OnlyMoved, Load;
    PersistIs(n, n.runner, id, e);
    RegisteredIsStored(n, id);
    var s := n.runner.jobs[id].state;
    if ApplyEvent(s, e).Ok? {
      StoreIsStored(n);
      SaveMovesStore(n.db, s, e, ApplyEvent(s, e).value);
    }
  }

  lemma StoreIsStored(n: Node)
    requires NodeSound(n)
    ensures Stored(n.db)
  {
    hide Sound, Stored, Mirrors, Load, JobSound;
  }

  lemma CancelCovered(n: Node, id: Uuid, now: Time)
    requires NodeSound(n) && Covered(n) && ValidRecords(n.runner.jobs)
    ensures Covered(CancelNode(n, id, now).0)
  {
    hide NodeSound, Covered, Adopted, Persist, ValidJob, OnlyMoved;
    AdoptKeepsNode(n, id);
    AdoptsTheFinished(n, id);
    var m := Adopted(n, id).0;
    OneMovesCovered(n, m, id);
    if Adopted(n, id).1.None? {
      var s := m.runner.jobs[id].state;
      PersistMovesOne(m, id, BareEvent(s, CancellationRequested, now, None));
      OneMovesCovered(m, CancelNode(n, id, now).0, id);
    }
  }

  lemma RetryCovered(n: Node, id: Uuid, now: Time)
    requires NodeSound(n) && Covered(n) && ValidRecords(n.runner.jobs) && !n.runner.closed
    ensures Covered(RetryNode(n, id, now).0)
  {
    hide NodeSound, Covered, Adopted, Persist, ValidJob, OnlyMoved;
    AdoptKeepsNode(n, id);
    AdoptsTheFinished(n, id);
    var m := Adopted(n, id).0;
    OneMovesCovered(n, m, id);
    if Adopted(n, id).1.None? {
      var s := m.runner.jobs[id].state;
      var e := BareEvent(s, RetryRequested, now, None);
      PersistMovesOne(m, id, e);
      PersistKeepsClosed(m, id, e);
      OneMovesCovered(m, RetryNode(n, id, now).0, id);
    }
  }

  lemma PersistKeepsClosed(n: Node, id: Uuid, e: Event)
    requires id in n.runner.jobs && ValidRecords(n.runner.jobs)
    ensures Persist(n, id, e).0.runner.closed == n.runner.closed
    ensures Persist(n, id, e).0.runner.stuck == n.runner.stuck
  {
    hide ApplyStored, ValidJob;
  }

  lemma WorkerCovered(n: Node, op: Op, now: Time)
    requires NodeSound(n) && Covered(n) && Enabled(n.runner, op, now) && n.runner.clock == now
    requires op.BeginTask? || op.ReportUnits? || op.EndTask?
    ensures match op
            case BeginTask => Covered(BeginNode(n, now))
            case ReportUnits(completed, total, phase) =>
              Covered(ReportNode(n, completed, total, phase, now).0)
            case EndTask(end) => Covered(EndNode(n, end, now).0)
            case _ => true
  {
    hide NodeSound, Covered, Persist, ValidJob, OnlyMoved, ApplyEvent, Saved, Load, EndEvent;
    match op
    case BeginTask =>
      var r := n.runner;
      var id := r.queue[0];
      if id in r.jobs {
        var e := BareEvent(r.jobs[id].state, Started, now, Some(r.nextId));
        PersistIs(n, r.(queue := r.queue[1..], nextId := r.nextId + 1), id, e);
        PersistIs(n, r, id, e);
        PersistMovesOne(n, id, e);
      }
      OneMovesCovered(n, BeginNode(n, now), id);
    case ReportUnits(completed, total, phase) =>
      var r := n.runner;
      var id := r.worker.jobId;
      if id in r.jobs {
        PersistMovesOne(n, id, ProgressEvent(r.jobs[id].state, now, r.worker.attemptId, completed,
                                             total, phase));
      }
      OneMovesCovered(n, ReportNode(n, completed, total, phase, now).0, id);
    case EndTask(end) =>
      var r := n.runner;
      var id := r.worker.jobId;
      if id in r.jobs {
        var e := EndEvent(r.jobs[id].state, end, now, r.worker.attemptId);
        PersistIs(n, r.(worker := Idle), id, e);
        PersistIs(n, r, id, e);
        PersistMovesOne(n, id, e);
      }
      OneMovesCovered(n, EndNode(n, end, now).0, id);
  }

  /** A finished job that is recovered stays finished or waits again. */
  lemma FinishedRecovers(db: Db, s: Job, src: Source)
    requires Stored(db) && s.jobId in db.jobs && Load(db, s.jobId) == Ok(s) && ValidJob(s)
    requires Terminal(s.status) || s.status.Pending?
    ensures var (db', a) := RecoverState(db, s, src);
            && (a.Err? ==> db' == db)
            && (a.Ok? ==> (a.value == s && db' == db)
                          || (a.value.status.Pending? && a.value.jobId == s.jobId
                              && OnlyMoved(db, db', s.jobId, a.value)))
    ensures s.status.Pending? ==> RecoverState(db, s, src) == (db, Ok(s))
  {
    hide Load, ValidJob, ApplyEvent, Saved, OnlyMoved, Stored, SaveResult;
    if InterruptedWithRoom(s) {
      var e := BareEvent(s, RetryRequested, src.second, None);
      if ApplyEvent(s, e).Ok? {
        var t := ApplyEvent(s, e).value;
        SaveMovesStore(db, s, e, t);
        EventEffect(s, e, t);
      }
    }
  }

  lemma SubmitCovered(n: Node, q: Request, now: Time, src: Source)
    requires NodeSound(n) && Covered(n) && now <= n.runner.clock
    ensures Covered(SubmitNode(n, q, now, src).0)
  {
    hide NodeSound, Candidate, CreateRow, RecoverState, Load, ValidJob, OnlyMoved;
    var r := n.runner;
    var built := Candidate(q, r.nextId, now);
    if !r.closed && built.Ok? && q.idempotencyKey !in r.index {
      CandidateIsNew(q, r.nextId, now);
      CreateKeepsNode(n, built.value);
      StoreIsStored(n);
      NextIsNew(n);
      CreatedRow(n.db, built.value);
      var (db', made) := CreateRow(n.db, built.value);
      if made.Ok? {
        var m := Node(r.(nextId := r.nextId + 1), db');
        StoreIsStored(m);
        LoadedIsValid(db', made.value.jobId);
        FinishedRecovers(db', made.value, src);
        RecoveredIsCovered(n, db', made.value, src, RecoverState(db', made.value, src).0);
      }
    }
  }

  /** The one job a submission may leave unfinished is the one it registers. */
  lemma RecoveredIsCovered(n: Node, db': Db, s: Job, src: Source, db'': Db)
    requires Covered(n)
    requires forall id :: id in db'.jobs && id != s.jobId ==> id in n.db.jobs && Load(db', id) == Load(n.db, id)
    requires db'' == db' || exists t :: OnlyMoved(db', db'', s.jobId, t)
    ensures forall id :: id in db''.jobs && id != s.jobId && Load(db'', id).Ok? ==>
              Terminal(Load(db'', id).value.status) || id in n.runner.jobs
  {
    hide Load;
  }

  /** Time alone changes nothing that is covered. */
  lemma ClockCovered(n: Node, now: Time)
    requires Covered(n)
    ensures Covered(n.(runner := n.runner.(clock := now)))
  {
    hide Load;
  }

  lemma CallCovered(n: Node, op: Op, src: Source, now: Time)
    requires NodeSound(n) && Covered(n) && !n.runner.closed
    requires Enabled(n.runner, op, now) && now <= src.first <= src.second
    ensures Covered(Called(n, op, src, now))
  {
    hide NodeSound, Covered, SubmitNode, CancelNode, RetryNode, BeginNode, ReportNode, EndNode, ValidJob;
    var m := n.(runner := n.runner.(clock := if op.Submit? then src.second else now));
    ClockKeepsNode(n, m.runner.clock);
    ClockCovered(n, m.runner.clock);
    match op
    case Submit(q) => SubmitCovered(m, q, now, src);
    case Cancel(id) => CancelCovered(m, id, now);
    case Retry(id) => RetryCovered(m, id, now);
    case Shutdown(wait) => ShutdownCovered(m, wait);
    case BeginTask => WorkerCovered(m, op, now);
    case ReportUnits(completed, total, phase) => WorkerCovered(m, op, now);
    case EndTask(end) => WorkerCovered(m, op, now);
  }

  lemma ShutdownCovered(n: Node, wait: bool)
    requires Covered(n)
    ensures Covered(n.(runner := ShutdownStep(n.runner, wait)))
  {
    hide Load;
  }

  /** A scan finds nothing to do where every unfinished job is registered. */
  lemma {:induction false} ScanOfKnown(db: Db, task: ScanTask, size: nat)
    requires Ready(task, START) && size <= |task.listed|
    requires forall i :: 0 <= i < |task.listed| ==> task.listed[i].jobId in task.known
    ensures ScanUpTo(db, task.listed, size, task.known, task.canRun, task.srcs) == Scan(db, [], [], None)
  {
    hide ValidJob, ScanOne;
    if size > 0 {
      ScanOfKnown(db, task, size - 1);
    }
  }

  lemma ScanCovered(n: Node, task: ScanTask, done: Time)
    requires NodeSound(n) && Covered(n) && ScanFits(n, task, done)
    ensures var scan := ScanUpTo(n.db, task.listed, |task.listed|, task.known, task.canRun, task.srcs);
            Covered(Scanned(n, scan, |task.listed|, done))
  {
    hide NodeSound, Load, ValidJob, ScanUpTo, ListsUnfinished, JobsWith, IndexWith, IdList;
    forall i | 0 <= i < |task.listed| ensures task.listed[i].jobId in task.known {
      ListedIsStored(n.db, task.listed, i);
      LoadedIsStored(n.db, task.listed[i].jobId);
    }
    ScanOfKnown(n.db, task, |task.listed|);
    NothingEnqueued(n.runner.jobs, n.runner.index);
  }

  /**
    From its first completed scan until it is shut down, whatever is called, a process loses no
    job: `NothingIsLost` goes on to hold.
   */
  lemma {:induction false} CoveredStays(nodes: seq<Node>, steps: seq<LifeStep>, times: seq<Time>,
                                        i: nat, k: nat)
    requires IsLife(nodes, steps, times) && i <= k < |nodes| && Covered(nodes[i])
    requires forall j :: i <= j < k ==> (steps[j].Calls? || steps[j].Scans?) && !nodes[j].runner.closed
    ensures NodeSound(nodes[k]) && Covered(nodes[k])
    decreases k
  {
    hide NodeSound, Covered, Called, ScanFits, ScanUpTo, Scanned, Enabled;
    LivesSound(nodes, steps, times, k);
    if i < k {
      CoveredStays(nodes, steps, times, i, k - 1);
      match steps[k - 1]
      case Calls(op, src) => CallCovered(nodes[k - 1], op, src, times[k - 1]);
      case Scans(task, done) => ScanCovered(nodes[k - 1], task, done);
    }
  }

  // ---------------------------------------------------------------- what an early action does

  lemma CallKeepsStuck(n: Node, op: Op, src: Source, now: Time)
    requires Enabled(n.runner, op, now)
    ensures n.runner.stuck <= Called(n, op, src, now).runner.stuck
  {
    hide Adopted, Persist, Candidate, CreateRow, RecoverState, ValidJob, Load, Conflict;
    var m := n.(runner := n.runner.(clock := if op.Submit? then src.second else now));
    match op
    case Submit(q) =>
    case Cancel(id) =>
      AdoptKeepsClock(m, id);
      if Adopted(m, id).1.None? {
        PersistsKeepStuck(Adopted(m, id).0, id);
      }
    case Retry(id) =>
      AdoptKeepsClock(m, id);
      if Adopted(m, id).1.None? {
        PersistsKeepStuck(Adopted(m, id).0, id);
      }
    case Shutdown(wait) =>
    case BeginTask =>
      var id := m.runner.queue[0];
      if id in m.runner.jobs {
        PersistsKeepStuck(m.(runner := m.runner.(queue := m.runner.queue[1..],
                                                 nextId := m.runner.nextId + 1)), id);
      }
    case ReportUnits(completed, total, phase) =>
      if m.runner.worker.jobId in m.runner.jobs { PersistsKeepStuck(m, m.runner.worker.jobId); }
    case EndTask(end) =>
      if m.runner.worker.jobId in m.runner.jobs {
        PersistsKeepStuck(m.(runner := m.runner.(worker := Idle)), m.runner.worker.jobId);
      }
  }

  lemma PersistsKeepStuck(n: Node, id: Uuid)
    requires id in n.runner.jobs && ValidRecords(n.runner.jobs)
    ensures forall e :: Persist(n, id, e).0.runner.stuck == n.runner.stuck
  {
    hide ApplyStored, ValidJob;
  }

  /**
    An action on a job a lost worker left active, made before a scan has come to it, takes it from
    every scan of this process: it has a record from then on, but no worker.
   */
  lemma EarlyActionStrands(n: Node, id: Uuid, op: Op, src: Source, now: Time)
    requires NodeSound(n) && CanHappen(n, Calls(op, src), now)
    requires id in n.db.jobs && id !in n.runner.jobs && Active(Load(n.db, id).value)
    requires op == Cancel(id) || op == Retry(id)
    ensures id in After(n, Calls(op, src), now).runner.stuck
  {
    hide NodeSound, Persist, ValidJob, Load, Conflict;
    StoredLoads(n, id);
    var m := n.(runner := n.runner.(clock := now));
    LoadedIsValid(m.db, id);
    PersistsKeepStuck(Adopted(m, id).0, id);
  }

  /** A job that is active without a worker stays so, also in the store, until the process dies. */
  lemma {:induction false} StuckUntilDeath(nodes: seq<Node>, steps: seq<LifeStep>, times: seq<Time>,
                                           i: nat, k: nat)
    requires IsLife(nodes, steps, times) && i <= k < |nodes|
    requires forall j :: i <= j < k ==> steps[j].Calls? || steps[j].Scans?
    ensures nodes[i].runner.stuck <= nodes[k].runner.stuck
    ensures forall id :: id in nodes[i].runner.stuck ==>
              && id in nodes[k].db.jobs && Load(nodes[k].db, id).Ok?
              && Active(Load(nodes[k].db, id).value)
    decreases k
  {
    hide NodeSound, Called, ScanUpTo, ScanFits, Enabled, Load;
    LivesSound(nodes, steps, times, k);
    if i < k {
      StuckUntilDeath(nodes, steps, times, i, k - 1);
      if steps[k - 1].Calls? {
        CallKeepsStuck(nodes[k - 1], steps[k - 1].op, steps[k - 1].src, times[k - 1]);
      }
    }
    StuckIsActive(nodes[k]);
  }

  lemma StuckIsActive(n: Node)
    requires NodeSound(n)
    ensures forall id :: id in n.runner.stuck ==>
              id in n.db.jobs && Load(n.db, id).Ok? && Active(Load(n.db, id).value)
  {
    hide RecordsSound, IndexInverse, QueueSound, PendingQueued, BodiesMatch, StoreSound, Load;
  }
}
