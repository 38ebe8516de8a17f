/** What the single-worker runner keeps over every history of its steps. */
module JobScheduling {
  import opened Common
  import opened JobSystem
  import opened JobRuns
  import opened JobRunner

  /** The jobs and the idempotency index are mutually inverse. */
  ghost predicate IndexInverse(r: Runner) {
    && (forall id :: id in r.jobs ==>
          && r.jobs[id].state.jobId == id
          && r.jobs[id].state.idempotencyKey in r.index
          && r.index[r.jobs[id].state.idempotencyKey] == id)
    && (forall key :: key in r.index ==>
          && r.index[key] in r.jobs
          && r.jobs[r.index[key]].state.idempotencyKey == key)
  }

  /** The queue holds each job at most once, and only jobs that wait or were cancelled waiting. */
  ghost predicate QueueSound(r: Runner) {
    && (forall i, k :: 0 <= i < k < |r.queue| ==> r.queue[i] != r.queue[k])
    && (forall i :: 0 <= i < |r.queue| ==>
          && r.queue[i] in r.jobs
          && (r.jobs[r.queue[i]].state.status.Pending? || r.jobs[r.queue[i]].state.status.Cancelled?))
  }

  /** Unless the queue was dropped by a shutdown, every pending job that is not parked is in it. */
  ghost predicate PendingQueued(r: Runner) {
    && (r.dropped ==> r.closed)
    && (!r.dropped ==>
          forall id :: id in r.jobs && r.jobs[id].state.status.Pending? && id !in r.parked ==>
            id in r.queue)
  }

  /** Apart from jobs whose finish was refused, a job is active exactly while the worker has it. */
  ghost predicate WorkerSound(r: Runner) {
    && (r.worker.Busy? ==>
          && r.worker.jobId in r.jobs
          && r.worker.jobId !in r.stuck
          && Active(r.jobs[r.worker.jobId].state)
          && r.jobs[r.worker.jobId].state.attempts != []
          && Last(r.jobs[r.worker.jobId].state.attempts).attemptId == r.worker.attemptId)
    && (forall id :: id in r.jobs && Active(r.jobs[id].state) && id !in r.stuck ==>
          r.worker.Busy? && r.worker.jobId == id)
    && (forall id :: id in r.stuck ==> id in r.jobs && Active(r.jobs[id].state))
  }

  /** The attempts of job `id` whose bodies were started, in order. */
  function BodiesOf(bodies: seq<(Uuid, Uuid)>, id: Uuid): seq<Uuid> {
    if bodies == [] then []
    else
      var rest := BodiesOf(bodies[..|bodies| - 1], id);
      if Last(bodies).0 == id then rest + [Last(bodies).1] else rest
  }

  function Without(ids: seq<Uuid>, spared: set<Uuid>): seq<Uuid> {
    if ids == [] then []
    else Without(ids[..|ids| - 1], spared) + (if Last(ids) in spared then [] else [Last(ids)])
  }

  /**
    Each attempt of a job, unless it was started without a body, had its body started once, in
    order, and nothing else was started.
   */
  ghost predicate BodiesMatch(r: Runner) {
    && (forall id :: id in r.jobs ==>
          BodiesOf(r.bodies, id) == Without(AttemptIds(r.jobs[id].state.attempts), r.spared))
    && (forall i :: 0 <= i < |r.bodies| ==> r.bodies[i].0 < r.nextId)
    && (forall id :: id in r.spared ==> id < r.nextId)
  }

  /** Each record is a valid job built from identities and clock readings of the past. */
  ghost predicate RecordsSound(r: Runner) {
    && ValidRecords(r.jobs)
    && forall id :: id in r.jobs ==>
         && id < r.nextId
         && Timely(r.jobs[id].state, r.clock)
         && IdsBelow(r.jobs[id].state, r.nextId)
         && PendingLeavesRoom(r.jobs[id].state)
  }

  ghost predicate Sound(r: Runner) {
    RecordsSound(r) && IndexInverse(r) && QueueSound(r) && PendingQueued(r) && WorkerSound(r)
    && BodiesMatch(r)
  }

  // ---------------------------------------------------------------- building blocks

  lemma LaterClock(r: Runner, now: Time)
    requires Sound(r) && r.clock <= now
    ensures Sound(r.(clock := now))
  {
    hide ValidJob;
  }

  /** `r'` differs from `r` in one record, which moved by one accepted event. */
  predicate Moved(r: Runner, r': Runner, id: Uuid, e: Event, t: Job) {
    && id in r.jobs && ValidJob(r.jobs[id].state) && ApplyEvent(r.jobs[id].state, e) == Ok(t)
    && id in r'.jobs && r'.jobs[id].state == t
    && r'.jobs == r.jobs[id := r'.jobs[id]]
    && r'.index == r.index && r'.clock == r.clock && r.nextId <= r'.nextId
    && e.occurredAt == r.clock
    && (e.kind.Started? ==> e.attemptId.Some? && e.attemptId.value < r'.nextId)
  }

  /** A record as `RecordsSound` wants it. */
  ghost predicate RecordSound(s: Job, clock: Time, bound: nat) {
    ValidJob(s) && Timely(s, clock) && IdsBelow(s, bound) && PendingLeavesRoom(s)
  }

  lemma IdsStayBelow(s: Job, e: Event, t: Job, bound: nat)
    requires e.kind.Started? ==>
               && e.attemptId.Some? && e.attemptId.value < bound
               && AttemptIds(t.attempts) == AttemptIds(s.attempts) + [e.attemptId.value]
    requires !e.kind.Started? ==> AttemptIds(t.attempts) == AttemptIds(s.attempts)
    requires IdsBelow(s, bound)
    ensures IdsBelow(t, bound)
  {
    forall i | 0 <= i < |t.attempts| ensures t.attempts[i].attemptId < bound {
      assert t.attempts[i].attemptId == AttemptIds(t.attempts)[i];
      assert i < |s.attempts| ==> AttemptIds(s.attempts)[i] == s.attempts[i].attemptId;
    }
  }

  lemma EventKeepsRecord(s: Job, e: Event, t: Job, clock: Time, bound: nat)
    requires RecordSound(s, clock, bound) && ApplyEvent(s, e) == Ok(t)
    requires e.occurredAt <= clock
    requires e.kind.Started? ==> e.attemptId.Some? && e.attemptId.value < bound
    ensures RecordSound(t, clock, bound)
    ensures t.jobId == s.jobId && t.idempotencyKey == s.idempotencyKey
  {
    hide ApplyEvent, StepsTo, ValidJob, Timely, PendingLeavesRoom, IdsBelow, AttemptIds;
    EventEffect(s, e, t);
    IdsStayBelow(s, e, t, bound);
  }

  lemma MovedKeepsRecords(r: Runner, r': Runner, id: Uuid, e: Event, t: Job)
    requires RecordsSound(r) && IndexInverse(r) && Moved(r, r', id, e, t)
    ensures RecordsSound(r') && IndexInverse(r')
  {
    hide ApplyEvent, ValidJob, Timely, PendingLeavesRoom;
    EventKeepsRecord(r.jobs[id].state, e, t, r.clock, r'.nextId);
  }

  lemma WithoutNext(ids: seq<Uuid>, id: Uuid, spared: set<Uuid>)
    ensures Without(ids + [id], spared) == Without(ids, spared) + (if id in spared then [] else [id])
  {
    assert (ids + [id])[..|ids|] == ids;
  }

  /** What is left of distinct identities is distinct, in their order, and no longer. */
  lemma {:induction false} WithoutKeeps(ids: seq<Uuid>, spared: set<Uuid>)
    requires forall i, k :: 0 <= i < k < |ids| ==> ids[i] != ids[k]
    ensures |Without(ids, spared)| <= |ids|
    ensures forall i :: 0 <= i < |Without(ids, spared)| ==> Without(ids, spared)[i] in ids
    ensures forall i, k :: 0 <= i < k < |Without(ids, spared)| ==>
              Without(ids, spared)[i] != Without(ids, spared)[k]
  {
    if ids != [] {
      var rest := ids[..|ids| - 1];
      WithoutKeeps(rest, spared);
      assert forall i :: 0 <= i < |Without(rest, spared)| ==> Without(rest, spared)[i] != Last(ids);
    }
  }

  lemma {:induction false} WithoutNone(ids: seq<Uuid>)
    ensures Without(ids, {}) == ids
  {
    hide Without;
    if ids == [] {
      NothingWithout({});
    } else {
      var rest := ids[..|ids| - 1];
      WithoutNone(rest);
      WithoutNext(rest, Last(ids), {});
      assert ids == rest + [Last(ids)];
    }
  }

  lemma NothingWithout(spared: set<Uuid>)
    ensures Without([], spared) == []
  {
  }

  lemma BodiesExtend(bodies: seq<(Uuid, Uuid)>, body: (Uuid, Uuid), id: Uuid)
    ensures BodiesOf(bodies + [body], id)
         == BodiesOf(bodies, id) + (if body.0 == id then [body.1] else [])
  {
    assert (bodies + [body])[..|bodies|] == bodies;
  }

  lemma {:induction false} NoBodies(bodies: seq<(Uuid, Uuid)>, id: Uuid)
    requires forall i :: 0 <= i < |bodies| ==> bodies[i].0 != id
    ensures BodiesOf(bodies, id) == []
  {
    if bodies != [] {
      NoBodies(bodies[..|bodies| - 1], id);
    }
  }

  // ---------------------------------------------------------------- every step keeps it sound

  function Enrolled(r: Runner, s: Job): Runner {
    r.(nextId := r.nextId + 1, jobs := r.jobs[s.jobId := Record(s, false)],
       index := r.index[s.idempotencyKey := s.jobId], queue := r.queue + [s.jobId])
  }

  ghost predicate Registrable(r: Runner, s: Job) {
    && Sound(r) && !r.closed && s.idempotencyKey !in r.index
    && ValidJob(s) && s.status.Pending? && s.attempts == []
    && s.jobId == r.nextId && s.createdAt == r.clock
  }

  lemma RegisterRecords(r: Runner, s: Job)
    requires Registrable(r, s)
    ensures RecordsSound(Enrolled(r, s))
  {
    hide ValidJob, Timely, PendingLeavesRoom, BodiesMatch, IndexInverse, QueueSound, PendingQueued,
      WorkerSound;
    FreshIsSound(s, r.clock, r.nextId + 1);
  }

  lemma FreshIsSound(s: Job, clock: Time, bound: nat)
    requires ValidJob(s) && s.attempts == [] && s.createdAt <= clock
    ensures RecordSound(s, clock, bound)
  {
    assert 1 <= s.maxAttempts;
    hide ValidJob;
  }

  lemma RegisterBodies(r: Runner, s: Job)
    requires Registrable(r, s)
    ensures BodiesMatch(Enrolled(r, s))
  {
    hide ValidJob, IndexInverse, QueueSound, PendingQueued, WorkerSound, Timely, IdsBelow;
    NoBodies(r.bodies, r.nextId);
    assert AttemptIds([]) == [];
  }

  lemma RegisterSchedule(r: Runner, s: Job)
    requires Registrable(r, s)
    ensures QueueSound(Enrolled(r, s)) && PendingQueued(Enrolled(r, s))
    ensures WorkerSound(Enrolled(r, s))
  {
    hide ValidJob, BodiesMatch, IndexInverse, Timely, IdsBelow;
  }

  lemma RegisterIndex(r: Runner, s: Job)
    requires Registrable(r, s)
    ensures IndexInverse(Enrolled(r, s))
  {
    hide ValidJob, BodiesMatch, QueueSound, PendingQueued, WorkerSound, Timely, IdsBelow;
  }

  lemma RegisterKeepsSound(r: Runner, s: Job)
    requires Registrable(r, s)
    ensures Sound(Enrolled(r, s))
  {
    RegisterRecords(r, s);
    RegisterBodies(r, s);
    RegisterIndex(r, s);
    RegisterSchedule(r, s);
  }

  lemma MintKeepsSound(r: Runner)
    requires Sound(r)
    ensures Sound(r.(nextId := r.nextId + 1))
  {
    hide ValidJob;
  }

  lemma SubmitKeepsSound(r: Runner, q: Request, now: Time)
    requires Sound(r) && now == r.clock
    ensures Sound(SubmitStep(r, q, now).0)
  {
    hide Sound;
    MintKeepsSound(r);
    var candidate := Candidate(q, r.nextId, now);
    if !r.closed && candidate.Ok? && q.idempotencyKey !in r.index {
      RegisterKeepsSound(r, candidate.value);
    }
  }

  /** Replacing a record whose job stays where it is in the schedule, or is cancelled waiting. */
  lemma SettleKeepsSound(r: Runner, id: Uuid, rec: Record)
    requires Sound(r) && id in r.jobs
    requires var s, t := r.jobs[id].state, rec.state;
             && AttemptIds(t.attempts) == AttemptIds(s.attempts)
             && (Active(s) <==> Active(t))
             && !(t.status.Pending?) && (s.status.Pending? ==> t.status.Cancelled?)
             && !s.status.Cancelled?
    requires var r' := r.(jobs := r.jobs[id := rec]); RecordsSound(r') && IndexInverse(r')
    ensures Sound(r.(jobs := r.jobs[id := rec]))
  {
    hide RecordsSound, IndexInverse, ValidJob, WorkerSound, AttemptIds;
    SettleKeepsWorker(r, id, rec);
  }

  lemma SettleKeepsWorker(r: Runner, id: Uuid, rec: Record)
    requires WorkerSound(r) && id in r.jobs
    requires AttemptIds(rec.state.attempts) == AttemptIds(r.jobs[id].state.attempts)
    requires Active(r.jobs[id].state) <==> Active(rec.state)
    ensures WorkerSound(r.(jobs := r.jobs[id := rec]))
  {
    hide AttemptIds;
    LastId(r.jobs[id].state, rec.state);
  }

  lemma CancelKeepsSound(r: Runner, id: Uuid, now: Time)
    requires Sound(r) && now == r.clock
    ensures Sound(CancelStep(r, id, now).0)
  {
    hide ApplyEvent, ValidJob, StepsTo, IndexInverse, QueueSound, PendingQueued, WorkerSound,
      BodiesMatch, Timely, IdsBelow, PendingLeavesRoom, AttemptIds;
    var r' := CancelStep(r, id, now).0;
    if r' != r {
      var e := BareEvent(r.jobs[id].state, CancellationRequested, now, None);
      var t := r'.jobs[id].state;
      assert Moved(r, r', id, e, t);
      MovedKeepsRecords(r, r', id, e, t);
      EventEffect(r.jobs[id].state, e, t);
      SettleKeepsSound(r, id, Record(t, true));
    }
  }

  lemma LastId(s: Job, t: Job)
    requires AttemptIds(s.attempts) == AttemptIds(t.attempts)
    ensures s.attempts == [] <==> t.attempts == []
    ensures s.attempts != [] ==> Last(s.attempts).attemptId == Last(t.attempts).attemptId
  {
    if s.attempts != [] {
      assert Last(s.attempts).attemptId == Last(AttemptIds(s.attempts));
      assert Last(t.attempts).attemptId == Last(AttemptIds(t.attempts));
    }
  }

  function Forgotten(r: Runner, id: Uuid): Runner
    requires id in r.jobs
  {
    r.(jobs := r.jobs - {id}, index := r.index - {r.jobs[id].state.idempotencyKey})
  }

  lemma ForgetKeepsRecords(r: Runner, id: Uuid)
    requires RecordsSound(r) && IndexInverse(r) && BodiesMatch(r) && id in r.jobs
    ensures RecordsSound(Forgotten(r, id)) && IndexInverse(Forgotten(r, id))
    ensures BodiesMatch(Forgotten(r, id))
  {
    hide ValidJob, Timely, IdsBelow, PendingLeavesRoom, BodiesOf, AttemptIds;
  }

  lemma ForgetKeepsQueue(r: Runner, id: Uuid)
    requires QueueSound(r) && PendingQueued(r) && id in r.jobs && r.jobs[id].state.status.Failed?
    ensures QueueSound(Forgotten(r, id)) && PendingQueued(Forgotten(r, id))
  {
  }

  lemma ForgetKeepsWorker(r: Runner, id: Uuid)
    requires WorkerSound(r) && id in r.jobs && r.jobs[id].state.status.Failed?
    ensures WorkerSound(Forgotten(r, id))
  {
  }

  /** Dropping the record of a failed job, as a retry does once the executor is gone. */
  lemma ForgetKeepsSound(r: Runner, id: Uuid)
    requires Sound(r) && id in r.jobs && r.jobs[id].state.status.Failed?
    ensures Sound(Forgotten(r, id))
  {
    hide RecordsSound, IndexInverse, QueueSound, PendingQueued, WorkerSound, BodiesMatch;
    ForgetKeepsRecords(r, id);
    ForgetKeepsQueue(r, id);
    ForgetKeepsWorker(r, id);
  }

  function Requeued(r: Runner, id: Uuid, t: Job): Runner
    requires id in r.jobs
  {
    r.(jobs := r.jobs[id := r.jobs[id].(state := t)], queue := r.queue + [id])
  }

  lemma RequeueKeepsQueue(r: Runner, id: Uuid, t: Job)
    requires QueueSound(r) && PendingQueued(r)
    requires id in r.jobs && r.jobs[id].state.status.Failed? && t.status.Pending?
    ensures QueueSound(Requeued(r, id, t)) && PendingQueued(Requeued(r, id, t))
  {
    assert Requeued(r, id, t).queue[|r.queue|] == id;
    assert forall other :: other in r.queue ==> other in Requeued(r, id, t).queue;
  }

  lemma RequeueKeepsWorker(r: Runner, id: Uuid, t: Job)
    requires WorkerSound(r) && id in r.jobs && r.jobs[id].state.status.Failed? && t.status.Pending?
    ensures WorkerSound(Requeued(r, id, t))
  {
  }

  lemma RequeueKeepsSound(r: Runner, id: Uuid, t: Job)
    requires Sound(r) && id in r.jobs && r.jobs[id].state.status.Failed? && t.status.Pending?
    requires AttemptIds(t.attempts) == AttemptIds(r.jobs[id].state.attempts)
    requires RecordsSound(Requeued(r, id, t)) && IndexInverse(Requeued(r, id, t))
    ensures Sound(Requeued(r, id, t))
  {
    hide RecordsSound, IndexInverse, QueueSound, PendingQueued, WorkerSound, AttemptIds, BodiesOf,
      Without;
    RequeueKeepsQueue(r, id, t);
    RequeueKeepsWorker(r, id, t);
  }

  lemma RetryKeepsSound(r: Runner, id: Uuid, now: Time)
    requires Sound(r) && now == r.clock
    ensures Sound(RetryStep(r, id, now).0)
  {
    hide TransitionJob, Lifecycle, StepsTo;
    var r' := RetryStep(r, id, now).0;
    if r' != r {
      var e := BareEvent(r.jobs[id].state, RetryRequested, now, None);
      var t := ApplyEvent(r.jobs[id].state, e).value;
      EventEffect(r.jobs[id].state, e, t);
      if r.closed {
        ForgetKeepsSound(r, id);
      } else {
        MovedKeepsRecords(r, r', id, e, t);
        RequeueKeepsSound(r, id, t);
      }
    }
  }

  /** The head of the queue is taken and turns out not to be pending any more. */
  lemma SkipKeepsSound(r: Runner)
    requires Sound(r) && r.queue != [] && !r.jobs[r.queue[0]].state.status.Pending?
    ensures Sound(r.(queue := r.queue[1..]))
  {
    hide ValidJob, BodiesOf;
    forall other | other in r.queue && other != r.queue[0] ensures other in r.queue[1..] {
      var i :| 0 <= i < |r.queue| && r.queue[i] == other;
      assert r.queue[1..][i - 1] == other;
    }
  }

  /** The head of the queue is taken and its attempt starts. */
  ghost predicate Startable(r: Runner, t: Job) {
    && Sound(r) && r.worker.Idle? && r.queue != []
    && r.jobs[r.queue[0]].state.status.Pending? && t.status.Running?
    && AttemptIds(t.attempts) == AttemptIds(r.jobs[r.queue[0]].state.attempts) + [r.nextId]
  }

  lemma StartSchedule(r: Runner, t: Job)
    requires Startable(r, t)
    ensures QueueSound(Begun(r, t)) && PendingQueued(Begun(r, t)) && WorkerSound(Begun(r, t))
  {
    hide RecordsSound, IndexInverse, ValidJob, BodiesMatch;
    var id, r' := r.queue[0], Begun(r, t);
    assert Last(t.attempts).attemptId == Last(AttemptIds(t.attempts)) == r.nextId;
    forall other | other in r.queue && other != id ensures other in r'.queue {
      var i :| 0 <= i < |r.queue| && r.queue[i] == other;
      assert r'.queue[i - 1] == other;
    }
    assert id !in r.stuck;
  }

  lemma StartBodies(r: Runner, t: Job)
    requires Startable(r, t)
    ensures BodiesMatch(Begun(r, t))
  {
    hide IndexInverse, ValidJob, PendingQueued, WorkerSound, AttemptIds, BodiesOf, Timely, IdsBelow;
    var id := r.queue[0];
    var r' := Begun(r, t);
    WithoutNext(AttemptIds(r.jobs[id].state.attempts), r.nextId, r.spared);
    forall other | other in r'.jobs
      ensures BodiesOf(r'.bodies, other)
           == Without(AttemptIds(r'.jobs[other].state.attempts), r'.spared)
    {
      BodiesExtend(r.bodies, (id, r.nextId), other);
    }
  }

  function Begun(r: Runner, t: Job): Runner
    requires r.queue != [] && r.queue[0] in r.jobs
  {
    var id := r.queue[0];
    r.(queue := r.queue[1..], jobs := r.jobs[id := r.jobs[id].(state := t)],
       nextId := r.nextId + 1, worker := Busy(id, r.nextId), bodies := r.bodies + [(id, r.nextId)])
  }

  lemma BeginKeepsSound(r: Runner, now: Time)
    requires Sound(r) && now == r.clock && r.worker.Idle? && r.queue != []
    ensures Sound(BeginStep(r, now))
  {
    hide TransitionJob, Lifecycle, StepsTo, IndexInverse, PendingQueued, WorkerSound, BodiesMatch;
    var id := r.queue[0];
    var s := r.jobs[id].state;
    if s.status.Pending? {
      var e := BareEvent(s, Started, now, Some(r.nextId));
      PendingStarts(s, now, r.nextId);
      var t := ApplyEvent(s, e).value;
      EventEffect(s, e, t);
      assert Moved(r, Begun(r, t), id, e, t);
      MovedKeepsRecords(r, Begun(r, t), id, e, t);
      StartSchedule(r, t);
      StartBodies(r, t);
    } else {
      SkipKeepsSound(r);
    }
  }

  /** With room left, a fresh identity and a clock that has not gone back, a start is accepted. */
  lemma PendingStarts(s: Job, now: Time, id: Uuid)
    requires ValidJob(s) && s.status.Pending? && PendingLeavesRoom(s)
    requires Timely(s, now) && IdsBelow(s, id)
    ensures ApplyEvent(s, BareEvent(s, Started, now, Some(id))).Ok?
  {
    TransitionAcceptsExactly(s, BareEvent(s, Started, now, Some(id)));
  }

  lemma ReportKeepsSound(r: Runner, completed: int, total: Option<int>, phase: string, now: Time)
    requires Sound(r) && now == r.clock && r.worker.Busy?
    ensures Sound(ReportStep(r, completed, total, phase, now).0)
  {
    hide TransitionJob, Lifecycle, StepsTo;
    var r' := ReportStep(r, completed, total, phase, now).0;
    var id := r.worker.jobId;
    if r' != r {
      hide IndexInverse, QueueSound, PendingQueued, BodiesMatch;
      var s := r.jobs[id].state;
      var e := ProgressEvent(s, now, r.worker.attemptId, completed, total, phase);
      var t := r'.jobs[id].state;
      assert Moved(r, r', id, e, t);
      MovedKeepsRecords(r, r', id, e, t);
      EventEffect(s, e, t);
      SettleKeepsSound(r, id, r.jobs[id].(state := t));
    }
  }

  lemma EndAccepted(r: Runner, t: Job)
    requires Sound(r) && r.worker.Busy? && Terminal(t.status)
    requires var id := r.worker.jobId;
             var r' := r.(worker := Idle, jobs := r.jobs[id := r.jobs[id].(state := t)]);
             && AttemptIds(t.attempts) == AttemptIds(r.jobs[id].state.attempts)
             && RecordsSound(r') && IndexInverse(r')
    ensures Sound(r.(worker := Idle, jobs := r.jobs[r.worker.jobId :=
                                                    r.jobs[r.worker.jobId].(state := t)]))
  {
    hide RecordsSound, IndexInverse;
  }

  lemma EndRefused(r: Runner)
    requires Sound(r) && r.worker.Busy?
    ensures Sound(r.(worker := Idle, stuck := r.stuck + {r.worker.jobId}))
  {
    hide ValidJob;
  }

  lemma EndKeepsSound(r: Runner, end: TaskEnd, now: Time)
    requires Sound(r) && now == r.clock && r.worker.Busy?
    ensures Sound(EndStep(r, end, now).0)
  {
    hide ApplyEvent, ValidJob, StepsTo, QueueSound, PendingQueued, BodiesMatch, IndexInverse, EndEvent,
      Timely, IdsBelow, AttemptIds, PendingLeavesRoom;
    var (r', answer) := EndStep(r, end, now);
    if answer.Ok? {
      var id := r.worker.jobId;
      var e := EndEvent(r.jobs[id].state, end, now, r.worker.attemptId);
      EndEventIs(r.jobs[id].state, end, now, r.worker.attemptId);
      var t := r'.jobs[id].state;
      MovedKeepsRecords(r, r', id, e, t);
      EventEffect(r.jobs[id].state, e, t);
      EndAccepted(r, t);
    } else {
      EndRefused(r);
    }
  }

  lemma EndEventIs(s: Job, end: TaskEnd, now: Time, attemptId: Uuid)
    ensures var e := EndEvent(s, end, now, attemptId);
            && Finishes(e.kind) && Terminal(Outcome(e.kind).1) && !e.kind.Started?
            && e.occurredAt == now
  {
  }

  lemma ShutdownKeepsSound(r: Runner, wait: bool)
    requires Sound(r)
    ensures Sound(ShutdownStep(r, wait))
  {
    hide ValidJob;
  }

  lemma StepKeepsSound(r: Runner, op: Op, now: Time)
    requires Sound(r) && Enabled(r, op, now)
    ensures Sound(Do(r, op, now))
  {
    hide SubmitStep, CancelStep, RetryStep, BeginStep, ReportStep, EndStep, ValidJob;
    LaterClock(r, now);
    var at := r.(clock := now);
    match op
    case Submit(q) => SubmitKeepsSound(at, q, now);
    case Cancel(id) => CancelKeepsSound(at, id, now);
    case Retry(id) => RetryKeepsSound(at, id, now);
    case Shutdown(wait) => ShutdownKeepsSound(at, wait);
    case BeginTask => BeginKeepsSound(at, now);
    case ReportUnits(completed, total, phase) => ReportKeepsSound(at, completed, total, phase, now);
    case EndTask(end) => EndKeepsSound(at, end, now);
  }

  // ---------------------------------------------------------------- over whole histories

  lemma NewRunnerSound(start: Time)
    ensures Sound(NewRunner(start))
  {
  }

  lemma NothingSetAside(r: Runner, op: Op, now: Time)
    requires Enabled(r, op, now)
    ensures Do(r, op, now).parked == r.parked && Do(r, op, now).spared == r.spared
  {
    hide ApplyEvent, Candidate, ValidJob;
  }

  /**
    In every history: the index and the jobs stay mutually inverse; each pending job has exactly
    one queue entry unless a shutdown dropped the queue; at most one job is active, the worker's,
    apart from jobs whose finish was refused; and each attempt had its body started exactly once.
   */
  lemma {:induction false} HistoriesSound(rs: seq<Runner>, ops: seq<Op>, times: seq<Time>, i: nat)
    requires IsExecution(rs, ops, times) && i < |rs|
    ensures Sound(rs[i]) && rs[i].parked == {} && rs[i].spared == {}
    ensures forall id :: id in rs[i].jobs ==>
              BodiesOf(rs[i].bodies, id) == AttemptIds(rs[i].jobs[id].state.attempts)
  {
    if i == 0 {
      var start :| rs[0] == NewRunner(start);
      NewRunnerSound(start);
    } else {
      HistoriesSound(rs, ops, times, i - 1);
      StepKeepsSound(rs[i - 1], ops[i - 1], times[i - 1]);
      NothingSetAside(rs[i - 1], ops[i - 1], times[i - 1]);
    }
    forall id | id in rs[i].jobs
      ensures BodiesOf(rs[i].bodies, id) == AttemptIds(rs[i].jobs[id].state.attempts)
    {
      WithoutNone(AttemptIds(rs[i].jobs[id].state.attempts));
    }
  }

  /** The task body runs once per attempt, under distinct identities, at most `maxAttempts` times. */
  lemma BodiesBounded(r: Runner, id: Uuid)
    requires Sound(r) && id in r.jobs
    ensures |BodiesOf(r.bodies, id)| <= r.jobs[id].state.maxAttempts
    ensures forall i, k :: 0 <= i < k < |BodiesOf(r.bodies, id)| ==>
              BodiesOf(r.bodies, id)[i] != BodiesOf(r.bodies, id)[k]
  {
    var s := r.jobs[id].state;
    assert ValidAttempts(s);
    WithoutKeeps(AttemptIds(s.attempts), r.spared);
  }

  lemma EndAcceptance(s: Job, end: TaskEnd, now: Time, attemptId: Uuid)
    requires ValidJob(s) && Active(s) && Timely(s, now)
    requires s.attempts != [] && Last(s.attempts).attemptId == attemptId
    ensures ApplyEvent(s, EndEvent(s, end, now, attemptId)).Err? <==>
            end.RaisedCancelled? && s.status.Running?
    ensures ApplyEvent(s, EndEvent(s, end, now, attemptId)).Ok? ==>
              Terminal(ApplyEvent(s, EndEvent(s, end, now, attemptId)).value.status)
  {
    var e := EndEvent(s, end, now, attemptId);
    TransitionAcceptsExactly(s, e);
    if ApplyEvent(s, e).Ok? {
      EventEffect(s, e, ApplyEvent(s, e).value);
    }
  }

  /**
    The finish of a body is refused exactly when the task says it was cancelled while its job is
    still running: no cancellation is open, and what it was told came from a flag left over.
   */
  lemma EndRefusedExactly(r: Runner, end: TaskEnd, now: Time)
    requires Sound(r) && Enabled(r, EndTask(end), now)
    ensures EndStep(r, end, now).1.Err? <==>
            end.RaisedCancelled? && r.jobs[r.worker.jobId].state.status.Running?
    ensures EndStep(r, end, now).1.Err? ==> r.jobs[r.worker.jobId].cancelSet
    ensures EndStep(r, end, now).1.Ok? ==>
              Terminal(EndStep(r, end, now).0.jobs[r.worker.jobId].state.status)
  {
    hide ApplyEvent, EndEvent, ValidJob, IndexInverse, QueueSound, PendingQueued, BodiesMatch;
    EndAcceptance(r.jobs[r.worker.jobId].state, end, now, r.worker.attemptId);
  }

  /** The runner would accept a retry of this job. */
  predicate Retryable(r: Runner, id: Uuid) {
    && !r.closed && id in r.jobs
    && var s := r.jobs[id].state;
       && s.status.Failed? && s.attempts != [] && Last(s.attempts).retryable
       && |s.attempts| < s.maxAttempts
  }

  /** No accepted retry of a record whose cancellation flag is set. */
  predicate CleanRetry(r: Runner, op: Op) {
    op.Retry? && Retryable(r, op.jobId) ==> !r.jobs[op.jobId].cancelSet
  }

  /** A set flag belongs to a job that is being cancelled or is over, and no job is stranded. */
  ghost predicate FlagsSpent(r: Runner) {
    && r.stuck == {}
    && forall id :: id in r.jobs && r.jobs[id].cancelSet ==>
         !r.jobs[id].state.status.Pending? && !r.jobs[id].state.status.Running?
  }

  /** An event that is not a retry of a flagged job keeps a record's flag spent. */
  lemma EventKeepsFlag(s: Job, e: Event, flag: bool)
    requires ValidJob(s) && ApplyEvent(s, e).Ok?
    requires flag ==> !s.status.Pending? && !s.status.Running? && !e.kind.RetryRequested?
    ensures var t := ApplyEvent(s, e).value;
            flag || e.kind.CancellationRequested? ==> !t.status.Pending? && !t.status.Running?
  {
    EventEffect(s, e, ApplyEvent(s, e).value);
  }

  lemma StepKeepsFlags(r: Runner, op: Op, now: Time)
    requires Sound(r) && FlagsSpent(r) && Enabled(r, op, now) && CleanRetry(r, op)
    ensures FlagsSpent(Do(r, op, now))
  {
    hide SubmitStep, CancelStep, RetryStep, BeginStep, ReportStep, EndStep, ValidJob, FlagsSpent;
    LaterClock(r, now);
    var at := r.(clock := now);
    ClockKeepsFlags(r, now);
    match op
    case Submit(q) => SubmitKeepsFlags(at, q, now);
    case Cancel(id) => CancelKeepsFlags(at, id, now);
    case Retry(id) => RetryKeepsFlags(at, id, now);
    case Shutdown(wait) => ShutdownKeepsFlags(at, wait);
    case BeginTask => BeginKeepsFlags(at, now);
    case ReportUnits(completed, total, phase) => ReportKeepsFlags(at, completed, total, phase, now);
    case EndTask(end) => EndKeepsFlags(at, end, now);
  }

  lemma ClockKeepsFlags(r: Runner, now: Time)
    requires FlagsSpent(r)
    ensures FlagsSpent(r.(clock := now))
  {
  }

  lemma ShutdownKeepsFlags(r: Runner, wait: bool)
    requires FlagsSpent(r)
    ensures FlagsSpent(ShutdownStep(r, wait))
  {
  }

  lemma CancelKeepsFlags(r: Runner, id: Uuid, now: Time)
    requires ValidRecords(r.jobs) && FlagsSpent(r)
    ensures FlagsSpent(CancelStep(r, id, now).0)
  {
    hide ApplyEvent, ValidJob;
    if id in r.jobs {
      var s := r.jobs[id].state;
      var e := BareEvent(s, CancellationRequested, now, None);
      if !Terminal(s.status) && !s.status.CancelRequested? && ApplyEvent(s, e).Ok? {
        EventKeepsFlag(s, e, false);
      }
    }
  }

  lemma RetryKeepsFlags(r: Runner, id: Uuid, now: Time)
    requires ValidRecords(r.jobs) && FlagsSpent(r) && CleanRetry(r, Retry(id))
    ensures FlagsSpent(RetryStep(r, id, now).0)
  {
    hide ApplyEvent, ValidJob;
  }

  lemma BeginKeepsFlags(r: Runner, now: Time)
    requires ValidRecords(r.jobs) && FlagsSpent(r) && r.worker.Idle? && r.queue != []
    ensures FlagsSpent(BeginStep(r, now))
  {
    hide ApplyEvent, ValidJob;
  }

  lemma ReportKeepsFlags(r: Runner, completed: int, total: Option<int>, phase: string, now: Time)
    requires ValidRecords(r.jobs) && FlagsSpent(r) && r.worker.Busy?
    ensures FlagsSpent(ReportStep(r, completed, total, phase, now).0)
  {
    hide ApplyEvent, ValidJob;
    var id := r.worker.jobId;
    if id in r.jobs {
      var e := ProgressEvent(r.jobs[id].state, now, r.worker.attemptId, completed, total, phase);
      if ApplyEvent(r.jobs[id].state, e).Ok? {
        EventKeepsFlag(r.jobs[id].state, e, r.jobs[id].cancelSet);
      }
    }
  }

  /** Without leftover flags the finish is always accepted. */
  lemma EndKeepsFlags(r: Runner, end: TaskEnd, now: Time)
    requires Sound(r) && FlagsSpent(r) && Enabled(r, EndTask(end), now)
    ensures FlagsSpent(EndStep(r, end, now).0)
  {
    hide ApplyEvent, EndEvent, ValidJob, IndexInverse, QueueSound, PendingQueued, BodiesMatch;
    EndRefusedExactly(r, end, now);
  }

  lemma SubmitKeepsFlags(r: Runner, q: Request, now: Time)
    requires FlagsSpent(r)
    ensures FlagsSpent(SubmitStep(r, q, now).0)
  {
    hide Lifecycle;
  }

  /**
    In every history without such a retry no job is ever stranded: whenever a body ends, the
    finish is accepted and its attempt is closed.
   */
  lemma {:induction false} CleanHistoriesStrandNothing(
    rs: seq<Runner>, ops: seq<Op>, times: seq<Time>, i: nat)
    requires IsExecution(rs, ops, times) && i < |rs|
    requires forall k :: 0 <= k < |ops| ==> CleanRetry(rs[k], ops[k])
    ensures Sound(rs[i]) && FlagsSpent(rs[i])
    ensures rs[i].worker.Idle? ==> forall id :: id in rs[i].jobs ==> !Active(rs[i].jobs[id].state)
    ensures i < |ops| && ops[i].EndTask? ==>
              EndStep(rs[i], ops[i].end, times[i]).1.Ok?
  {
    hide ApplyEvent, ValidJob, IndexInverse, QueueSound, PendingQueued, BodiesMatch, Do, CleanRetry;
    HistoriesSound(rs, ops, times, i);
    if 0 < i {
      CleanHistoriesStrandNothing(rs, ops, times, i - 1);
      StepKeepsFlags(rs[i - 1], ops[i - 1], times[i - 1]);
    }
    if i < |ops| && ops[i].EndTask? {
      EndRefusedExactly(rs[i], ops[i].end, times[i]);
    }
  }
}
