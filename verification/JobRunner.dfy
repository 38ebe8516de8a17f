/**
  The single-worker runner without a store: jobs and their idempotency index, a queue drained by
  one worker, cooperative cancellation and retry.

  Every public call, and the start and the end of each task body, runs under one lock, so a
  history of the runner is a sequence of such steps in any order. `Do` gives each step's effect on
  the runner's state; the class performs the same steps in place.
 */
module JobRunner {
  import opened Common
  import opened JobSystem
  import opened JobRuns

  datatype RunnerError =
    | RunnerClosed
    | JobNotFound
    | KeyConflict
    | CancelNotAllowed
    | RetryRefused
    | StateChanged
    | ExecutorDown
    | Rejected(error: JobError)

  /** A registered job and its cancellation flag, which nothing ever clears. */
  datatype Record = Record(state: Job, cancelSet: bool)

  datatype Worker = Idle | Busy(jobId: Uuid, attemptId: Uuid)

  /** How a task body can end: by itself, or by an exception of the tasks' own or any other. */
  datatype TaskEnd =
    | Returned
    | RaisedCancelled
    | RaisedError(code: string, again: bool)
    | RaisedOther

  datatype Request = Request(
    kind: JobKind,
    taskVersion: string,
    workspaceId: int,
    payload: Payload,
    idempotencyKey: string,
    maxAttempts: int)

  /**
    The runner's fields, and what is only remembered for reasoning: the latest clock reading, the
    next fresh identity, the task bodies started so far, the jobs that are active without a body,
    the pending ones that were registered without a queue entry, and the identities set aside for
    attempts that are started without a body. The last two stay empty without a store.
   */
  datatype Runner = Runner(
    jobs: map<Uuid, Record>,
    index: map<string, Uuid>,
    queue: seq<Uuid>,
    worker: Worker,
    closed: bool,
    dropped: bool,
    clock: Time,
    nextId: nat,
    bodies: seq<(Uuid, Uuid)>,
    stuck: set<Uuid>,
    parked: set<Uuid>,
    spared: set<Uuid>)

  /** One step of the runner, at the instant `now`. */
  datatype Op =
    | Submit(request: Request)
    | Cancel(jobId: Uuid)
    | Retry(jobId: Uuid)
    | Shutdown(wait: bool)
    | BeginTask
    | ReportUnits(completed: int, total: Option<int>, phase: string)
    | EndTask(end: TaskEnd)

  // ---------------------------------------------------------------- events

  function BareEvent(s: Job, kind: EventKind, now: Time, attemptId: Option<Uuid>): Event {
    Event(s.jobId, s.revision + 1, kind, now, attemptId, None, None, None, None, None)
  }

  function EndEvent(s: Job, end: TaskEnd, now: Time, attemptId: Uuid): Event {
    match end
    case Returned => BareEvent(s, FinishedOk, now, Some(attemptId))
    case RaisedCancelled => BareEvent(s, FinishedCancelled, now, Some(attemptId))
    case RaisedError(code, again) =>
      BareEvent(s, FinishedFailed, now, Some(attemptId)).(errorCode := Some(code),
                                                          retryable := Some(again))
    case RaisedOther =>
      BareEvent(s, FinishedFailed, now, Some(attemptId)).(errorCode := Some("job_task_failed"),
                                                          retryable := Some(false))
  }

  function ProgressEvent(s: Job, now: Time, attemptId: Uuid, completed: int, total: Option<int>,
                         phase: string): Event
  {
    BareEvent(s, ProgressReported, now, Some(attemptId)).(completedUnits := Some(completed),
                                                          totalUnits := total,
                                                          phaseCode := Some(phase))
  }

  /** Builds the event and applies it; a malformed event is refused like an illegal one. */
  function ApplyEvent(s: Job, e: Event): Result<Job, JobError>
    requires ValidJob(s)
  {
    if ValidEvent(e) then TransitionJob(s, e) else Err(ValidationFailed)
  }

  function Candidate(q: Request, id: Uuid, now: Time): Result<Job, JobError> {
    BuildJob(Job(id, q.kind, q.taskVersion, q.workspaceId, q.payload, None, q.idempotencyKey,
                 Pending, q.maxAttempts, 0, now, None, None, None, []))
  }

  // ---------------------------------------------------------------- steps

  predicate ValidRecords(jobs: map<Uuid, Record>) {
    forall id :: id in jobs ==> ValidJob(jobs[id].state)
  }

  function SubmitStep(r: Runner, q: Request, now: Time): (Runner, Result<Job, RunnerError>) {
    if r.closed then (r, Err(RunnerClosed))
    else match Candidate(q, r.nextId, now)
      case Err(error) => (r, Err(Rejected(error)))
      case Ok(candidate) =>
        var r' := r.(nextId := r.nextId + 1);
        if q.idempotencyKey in r.index then
          if r.index[q.idempotencyKey] !in r.jobs then (r', Err(JobNotFound))
          else
            var existing := r.jobs[r.index[q.idempotencyKey]].state;
            if existing.kind != candidate.kind || existing.workspaceId != candidate.workspaceId
               || existing.taskVersion != candidate.taskVersion
               || existing.payload != candidate.payload
            then (r', Err(KeyConflict)) else (r', Ok(existing))
        else
          (r'.(jobs := r.jobs[candidate.jobId := Record(candidate, false)],
               index := r.index[q.idempotencyKey := candidate.jobId],
               queue := r.queue + [candidate.jobId]),
           Ok(candidate))
  }

  function CancelStep(r: Runner, id: Uuid, now: Time): (Runner, Result<Job, RunnerError>)
    requires ValidRecords(r.jobs)
  {
    if id !in r.jobs then (r, Err(JobNotFound))
    else
      var s := r.jobs[id].state;
      if Terminal(s.status) then (r, Err(CancelNotAllowed))
      else if s.status.CancelRequested? then (r, Ok(s))
      else match ApplyEvent(s, BareEvent(s, CancellationRequested, now, None))
        case Ok(t) => (r.(jobs := r.jobs[id := Record(t, true)]), Ok(t))
        case Err(error) =>
          (r, Err(if error.ValidationFailed? then Rejected(error) else StateChanged))
  }

  function RetryStep(r: Runner, id: Uuid, now: Time): (Runner, Result<Job, RunnerError>)
    requires ValidRecords(r.jobs)
  {
    if id !in r.jobs then (r, Err(JobNotFound))
    else
      var s := r.jobs[id].state;
      if !s.status.Failed? || s.attempts == [] || !Last(s.attempts).retryable
         || s.maxAttempts <= |s.attempts|
      then (r, Err(RetryRefused))
      else match ApplyEvent(s, BareEvent(s, RetryRequested, now, None))
        case Err(error) => (r, Err(Rejected(error)))
        case Ok(t) =>
          if r.closed then
            (r.(jobs := r.jobs - {id}, index := r.index - {t.idempotencyKey}), Err(ExecutorDown))
          else
            (r.(jobs := r.jobs[id := r.jobs[id].(state := t)], queue := r.queue + [id]), Ok(t))
  }

  function ShutdownStep(r: Runner, wait: bool): Runner {
    if r.closed then r
    else r.(closed := true, queue := if wait then r.queue else [], dropped := !wait)
  }

  function BeginStep(r: Runner, now: Time): Runner
    requires ValidRecords(r.jobs) && r.worker.Idle? && r.queue != []
  {
    var id := r.queue[0];
    var r' := r.(queue := r.queue[1..]);
    if id !in r.jobs || !r.jobs[id].state.status.Pending? then r'
    else
      var s := r.jobs[id].state;
      match ApplyEvent(s, BareEvent(s, Started, now, Some(r.nextId)))
      case Err(_) => r'.(nextId := r.nextId + 1)
      case Ok(t) =>
        r'.(jobs := r.jobs[id := r.jobs[id].(state := t)], nextId := r.nextId + 1,
            worker := Busy(id, r.nextId), bodies := r.bodies + [(id, r.nextId)])
  }

  function ReportStep(r: Runner, completed: int, total: Option<int>, phase: string, now: Time)
    : (Runner, Result<Job, RunnerError>)
    requires ValidRecords(r.jobs) && r.worker.Busy?
  {
    var id := r.worker.jobId;
    if id !in r.jobs then (r, Err(JobNotFound))
    else
      var s := r.jobs[id].state;
      match ApplyEvent(s, ProgressEvent(s, now, r.worker.attemptId, completed, total, phase))
      case Err(error) => (r, Err(Rejected(error)))
      case Ok(t) => (r.(jobs := r.jobs[id := r.jobs[id].(state := t)]), Ok(t))
  }

  /** What `raise_if_cancelled` tells the running task. */
  predicate ToldCancelled(r: Runner) {
    && r.worker.Busy? && r.worker.jobId in r.jobs
    && (r.jobs[r.worker.jobId].cancelSet || r.jobs[r.worker.jobId].state.status.CancelRequested?)
  }

  function EndStep(r: Runner, end: TaskEnd, now: Time): (Runner, Result<Job, RunnerError>)
    requires ValidRecords(r.jobs) && r.worker.Busy?
  {
    var id := r.worker.jobId;
    var r' := r.(worker := Idle);
    if id !in r.jobs then (r', Err(JobNotFound))
    else
      var s := r.jobs[id].state;
      match ApplyEvent(s, EndEvent(s, end, now, r.worker.attemptId))
      case Err(error) => (r'.(stuck := r.stuck + {id}), Err(Rejected(error)))
      case Ok(t) => (r'.(jobs := r.jobs[id := r.jobs[id].(state := t)]), Ok(t))
  }

  /** The step can happen: the worker is in the right place and tasks cancel only when told to. */
  predicate Enabled(r: Runner, op: Op, now: Time) {
    && r.clock <= now
    && ValidRecords(r.jobs)
    && match op
       case BeginTask => r.worker.Idle? && r.queue != []
       case ReportUnits(_, _, _) => r.worker.Busy?
       case EndTask(end) => r.worker.Busy? && (end.RaisedCancelled? ==> ToldCancelled(r))
       case _ => true
  }

  function Do(r: Runner, op: Op, now: Time): Runner
    requires Enabled(r, op, now)
  {
    var at := r.(clock := now);
    match op
    case Submit(q) => SubmitStep(at, q, now).0
    case Cancel(id) => CancelStep(at, id, now).0
    case Retry(id) => RetryStep(at, id, now).0
    case Shutdown(wait) => ShutdownStep(at, wait)
    case BeginTask => BeginStep(at, now)
    case ReportUnits(completed, total, phase) => ReportStep(at, completed, total, phase, now).0
    case EndTask(end) => EndStep(at, end, now).0
  }

  function NewRunner(start: Time): Runner {
    Runner(map[], map[], [], Idle, false, false, start, 0, [], {}, {}, {})
  }

  /** `ops[i]` at `times[i]` takes `rs[i]` to `rs[i + 1]`. */
  ghost predicate IsExecution(rs: seq<Runner>, ops: seq<Op>, times: seq<Time>) {
    && |rs| == |ops| + 1 == |times| + 1
    && (exists start :: rs[0] == NewRunner(start))
    && forall i :: 0 <= i < |ops| ==>
         Enabled(rs[i], ops[i], times[i]) && rs[i + 1] == Do(rs[i], ops[i], times[i])
  }

  // ---------------------------------------------------------------- what an event does

  function AttemptIds(attempts: seq<Attempt>): seq<Uuid> {
    seq(|attempts|, i requires 0 <= i < |attempts| => attempts[i].attemptId)
  }

  predicate Timely(s: Job, clock: Time) {
    s.createdAt <= clock && forall i :: 0 <= i < |s.attempts| ==> s.attempts[i].startedAt <= clock
  }

  predicate IdsBelow(s: Job, bound: nat) {
    forall i :: 0 <= i < |s.attempts| ==> s.attempts[i].attemptId < bound
  }

  /** An accepted event leaves each attempt's identity alone, and dates a new one. */
  lemma EventKeepsIds(s: Job, e: Event, t: Job)
    requires StepsTo(s, e, t)
    ensures e.kind.Started? ==>
              AttemptIds(t.attempts) == AttemptIds(s.attempts) + [e.attemptId.value]
    ensures !e.kind.Started? ==> AttemptIds(t.attempts) == AttemptIds(s.attempts)
    ensures forall clock :: Timely(s, clock) && e.occurredAt <= clock ==> Timely(t, clock)
  {
    StepKeepsHistory(s, e, t);
    AttemptsAfter(s, e, t);
    hide TransitionJob, Lifecycle;
    forall i | 0 <= i < |s.attempts|
      ensures t.attempts[i].attemptId == s.attempts[i].attemptId
           && t.attempts[i].startedAt == s.attempts[i].startedAt
    {
      assert Evolves(s.attempts[i], t.attempts[i]);
    }
    if e.kind.Started? {
      StartedAttempt(s, e, t);
    }
  }

  lemma StartedAttempt(s: Job, e: Event, t: Job)
    requires StepsTo(s, e, t) && e.kind.Started?
    ensures |t.attempts| == |s.attempts| + 1
    ensures Last(t.attempts).attemptId == e.attemptId.value
    ensures Last(t.attempts).startedAt == e.occurredAt
  {
    hide Lifecycle;
  }

  /** The facts about an accepted event that scheduling depends on. */
  lemma EventEffect(s: Job, e: Event, t: Job)
    requires ValidJob(s) && ApplyEvent(s, e) == Ok(t)
    ensures StepsTo(s, e, t) && ValidJob(t) && t.jobId == s.jobId
    ensures t.idempotencyKey == s.idempotencyKey && t.maxAttempts == s.maxAttempts
    ensures e.kind.Started? ==>
              && s.status.Pending? && t.status.Running?
              && AttemptIds(t.attempts) == AttemptIds(s.attempts) + [e.attemptId.value]
    ensures !e.kind.Started? ==> AttemptIds(t.attempts) == AttemptIds(s.attempts)
    ensures e.kind.ProgressReported? ==> Active(s) && t.status == s.status
    ensures e.kind.CancellationRequested? ==>
              t.status == (if s.status.Pending? then Cancelled else CancelRequested)
    ensures Finishes(e.kind) ==> Active(s) && t.status == Outcome(e.kind).1
    ensures e.kind.RetryRequested? ==> s.status.Failed? && t.status.Pending?
    ensures PendingLeavesRoom(s) ==> PendingLeavesRoom(t)
    ensures forall clock :: Timely(s, clock) && e.occurredAt <= clock ==> Timely(t, clock)
  {
    TransitionAcceptsExactly(s, e);
    StepKeepsHistory(s, e, t);
    EventKeepsIds(s, e, t);
    hide Timely, AttemptIds, ValidAttempts, ValidProgress;
  }

  // ---------------------------------------------------------------- what a call does to a job

  /** `t` is `s` one revision on, with nothing changed that no event may change. */
  predicate NextOf(s: Job, t: Job) {
    SameDefinition(s, t) && t.revision == s.revision + 1
  }

  /** A new job as its request describes it, waiting. */
  predicate RequestedAs(q: Request, id: Uuid, now: Time, t: Job) {
    && t.jobId == id && t.kind == q.kind && t.taskVersion == q.taskVersion
    && t.workspaceId == q.workspaceId && t.payload == q.payload
    && t.idempotencyKey == q.idempotencyKey && t.maxAttempts == q.maxAttempts
    && t.createdAt == now && t.status.Pending? && t.revision == 0 && t.attempts == []
    && t.cancelRequestedAt.None? && t.finishedAt.None? && t.errorCode.None?
    && t.payloadHash == Some(Digest(q.payload))
  }

  /** The job of a request: its fields are allowed. */
  predicate Acceptable(q: Request) {
    1 <= q.workspaceId && q.payload.workspaceId == q.workspaceId && 1 <= q.maxAttempts <= 10
  }

  /** A running attempt is added. */
  predicate StartedAs(s: Job, attemptId: Uuid, now: Time, t: Job) {
    && NextOf(s, t) && s.status.Pending? && t.status.Running?
    && t.attempts == s.attempts + [Attempt(attemptId, s.jobId, |s.attempts| + 1, AttemptRunning,
                                           Progress(0, None, "starting"), now, None, None, false)]
    && t.cancelRequestedAt == s.cancelRequestedAt && t.finishedAt.None? && t.errorCode.None?
  }

  /** The latest attempt shows what was reported; a total once known stays. */
  predicate ReportedAs(s: Job, completed: int, total: Option<int>, phase: string, t: Job) {
    && NextOf(s, t) && t.status == s.status && OnlyLatestDiffers(s, t)
    && t.cancelRequestedAt == s.cancelRequestedAt && t.finishedAt == s.finishedAt
    && t.errorCode == s.errorCode
    && var before, after := Last(s.attempts), Last(t.attempts);
       && after == before.(progress := after.progress)
       && after.progress.completed == completed && after.progress.phase == phase
       && after.progress.total == if before.progress.total.Some? then before.progress.total else total
  }

  /** A waiting job is cancelled, a running one asked to stop. */
  predicate CancelledAs(s: Job, now: Time, t: Job) {
    && NextOf(s, t) && t.attempts == s.attempts && t.errorCode.None?
    && t.cancelRequestedAt == Some(now)
    && (s.status.Pending? ==> t.status.Cancelled? && t.finishedAt == Some(now))
    && (s.status.Running? ==> t.status.CancelRequested? && t.finishedAt.None?)
  }

  /** A failed job waits again. */
  predicate RetriedAs(s: Job, t: Job) {
    && NextOf(s, t) && s.status.Failed? && t.status.Pending? && t.attempts == s.attempts
    && t.cancelRequestedAt.None? && t.finishedAt.None? && t.errorCode.None?
  }

  /** Job and latest attempt are over at `now`, the way the task's body ended. */
  predicate EndedAs(s: Job, end: TaskEnd, now: Time, t: Job) {
    && NextOf(s, t) && OnlyLatestDiffers(s, t)
    && t.cancelRequestedAt == s.cancelRequestedAt && t.finishedAt == Some(now)
    && var before, after := Last(s.attempts), Last(t.attempts);
       && after.attemptId == before.attemptId && after.startedAt == before.startedAt
       && after.progress == before.progress && after.finishedAt == Some(now)
       && after.errorCode == t.errorCode
       && match end
          case Returned =>
            && t.status.Succeeded? && after.status.AttemptSucceeded?
            && t.errorCode.None? && !after.retryable
          case RaisedCancelled =>
            && t.status.Cancelled? && after.status.AttemptCancelled?
            && t.errorCode.None? && !after.retryable
          case RaisedError(code, again) =>
            && t.status.Failed? && after.status.AttemptFailed?
            && t.errorCode == Some(code) && after.retryable == again
          case RaisedOther =>
            && t.status.Failed? && after.status.AttemptFailed?
            && t.errorCode == Some("job_task_failed") && !after.retryable
  }

  lemma CandidateIs(q: Request, id: Uuid, now: Time)
    ensures Candidate(q, id, now).Ok? <==> Acceptable(q)
    ensures Candidate(q, id, now).Err? ==> Candidate(q, id, now) == Err(ValidationFailed)
    ensures Candidate(q, id, now).Ok? ==>
              && RequestedAs(q, id, now, Candidate(q, id, now).value)
              && ValidJob(Candidate(q, id, now).value) && NewJob(Candidate(q, id, now).value)
  {
  }

  lemma StartIs(s: Job, now: Time, attemptId: Uuid, t: Job)
    requires ValidJob(s) && ApplyEvent(s, BareEvent(s, Started, now, Some(attemptId))) == Ok(t)
    ensures StartedAs(s, attemptId, now, t)
  {
    var e := BareEvent(s, Started, now, Some(attemptId));
    TransitionAcceptsExactly(s, e);
    StepKeepsHistory(s, e, t);
    hide ValidAttempts;
  }

  lemma ReportIs(s: Job, now: Time, attemptId: Uuid, completed: int, total: Option<int>,
                 phase: string, t: Job)
    requires ValidJob(s)
    requires ApplyEvent(s, ProgressEvent(s, now, attemptId, completed, total, phase)) == Ok(t)
    ensures ReportedAs(s, completed, total, phase, t)
  {
    var e := ProgressEvent(s, now, attemptId, completed, total, phase);
    ReportEffect(s, e, t);
    StepKeepsHistory(s, e, t);
    hide TransitionJob, ValidJob;
  }

  lemma CancelIs(s: Job, now: Time, t: Job)
    requires ValidJob(s) && !s.status.CancelRequested?
    requires ApplyEvent(s, BareEvent(s, CancellationRequested, now, None)) == Ok(t)
    ensures CancelledAs(s, now, t)
  {
    var e := BareEvent(s, CancellationRequested, now, None);
    CancelEffect(s, e, t);
    StepKeepsHistory(s, e, t);
    hide Lifecycle;
  }

  lemma RetryIs(s: Job, now: Time, t: Job)
    requires ValidJob(s) && ApplyEvent(s, BareEvent(s, RetryRequested, now, None)) == Ok(t)
    ensures RetriedAs(s, t)
  {
    var e := BareEvent(s, RetryRequested, now, None);
    RetryEffect(s, e, t);
    StepKeepsHistory(s, e, t);
    hide Lifecycle;
  }

  lemma EndIs(s: Job, end: TaskEnd, now: Time, attemptId: Uuid, t: Job)
    requires ValidJob(s) && ApplyEvent(s, EndEvent(s, end, now, attemptId)) == Ok(t)
    ensures EndedAs(s, end, now, t)
  {
    var e := EndEvent(s, end, now, attemptId);
    FinishEffect(s, e, t);
    StepKeepsHistory(s, e, t);
    assert Evolves(s.attempts[|s.attempts| - 1], t.attempts[|t.attempts| - 1]);
    hide TransitionJob, ValidJob;
  }

  // ---------------------------------------------------------------- the runner itself

  class SingleProcessJobRunner {
    var jobs: map<Uuid, Record>
    var index: map<string, Uuid>
    var queue: seq<Uuid>
    var worker: Worker
    var closed: bool
    var nextId: nat
    ghost var dropped: bool
    ghost var clock: Time
    ghost var bodies: seq<(Uuid, Uuid)>
    ghost var stuck: set<Uuid>

    ghost function View(): Runner
      reads this
    {
      Runner(jobs, index, queue, worker, closed, dropped, clock, nextId, bodies, stuck, {}, {})
    }

    constructor (ghost start: Time)
      ensures View() == NewRunner(start)
    {
      jobs, index, queue, worker, closed, nextId := map[], map[], [], Idle, false, 0;
      dropped, clock, bodies, stuck := false, start, [], {};
    }

    method Submit(q: Request, now: Time) returns (r: Result<Job, RunnerError>)
      requires Enabled(View(), Op.Submit(q), now)
      modifies this
      ensures View() == Do(old(View()), Op.Submit(q), now)
      ensures r == SubmitStep(old(View()).(clock := now), q, now).1
      ensures r.Ok? && q.idempotencyKey !in old(index) ==>
                RequestedAs(q, old(nextId), now, r.value) && jobs == old(jobs)[old(nextId) := Record(r.value, false)]
    {
      hide Candidate, ApplyEvent, ValidJob, RequestedAs;
      clock := now;
      CandidateIs(q, nextId, now);
      if closed {
        return Err(RunnerClosed);
      }
      var built := Candidate(q, nextId, now);
      if built.Err? {
        return Err(Rejected(built.error));
      }
      var candidate := built.value;
      nextId := nextId + 1;
      if q.idempotencyKey in index {
        var existingId := index[q.idempotencyKey];
        if existingId !in jobs {
          return Err(JobNotFound);
        }
        var existing := jobs[existingId].state;
        if existing.kind != candidate.kind || existing.workspaceId != candidate.workspaceId
           || existing.taskVersion != candidate.taskVersion
           || existing.payload != candidate.payload
        {
          return Err(KeyConflict);
        }
        return Ok(existing);
      }
      jobs := jobs[candidate.jobId := Record(candidate, false)];
      index := index[q.idempotencyKey := candidate.jobId];
      queue := queue + [candidate.jobId];
      return Ok(candidate);
    }

    method Cancel(id: Uuid, now: Time) returns (r: Result<Job, RunnerError>)
      requires Enabled(View(), Op.Cancel(id), now)
      modifies this
      ensures View() == Do(old(View()), Op.Cancel(id), now)
      ensures r == CancelStep(old(View()).(clock := now), id, now).1
      ensures r.Ok? ==>
                && id in old(jobs)
                && if old(jobs)[id].state.status.CancelRequested? then
                     jobs == old(jobs) && r.value == old(jobs)[id].state
                   else
                     CancelledAs(old(jobs)[id].state, now, r.value)
                     && jobs == old(jobs)[id := Record(r.value, true)]
    {
      hide ApplyEvent, ValidJob, CancelledAs;
      clock := now;
      if id !in jobs {
        return Err(JobNotFound);
      }
      var state := jobs[id].state;
      if Terminal(state.status) {
        return Err(CancelNotAllowed);
      }
      if state.status.CancelRequested? {
        return Ok(state);
      }
      var next := ApplyEvent(state, BareEvent(state, CancellationRequested, now, None));
      if next.Err? {
        return Err(if next.error.ValidationFailed? then Rejected(next.error) else StateChanged);
      }
      CancelIs(state, now, next.value);
      jobs := jobs[id := Record(next.value, true)];
      return Ok(next.value);
    }

    method Retry(id: Uuid, now: Time) returns (r: Result<Job, RunnerError>)
      requires Enabled(View(), Op.Retry(id), now)
      modifies this
      ensures View() == Do(old(View()), Op.Retry(id), now)
      ensures r == RetryStep(old(View()).(clock := now), id, now).1
      ensures r.Ok? ==>
                && id in old(jobs) && RetriedAs(old(jobs)[id].state, r.value)
                && jobs == old(jobs)[id := old(jobs)[id].(state := r.value)]
                && queue == old(queue) + [id]
    {
      hide ApplyEvent, ValidJob, RetriedAs;
      clock := now;
      if id !in jobs {
        return Err(JobNotFound);
      }
      var state := jobs[id].state;
      if !state.status.Failed? || state.attempts == [] || !Last(state.attempts).retryable
         || state.maxAttempts <= |state.attempts|
      {
        return Err(RetryRefused);
      }
      var next := ApplyEvent(state, BareEvent(state, RetryRequested, now, None));
      if next.Err? {
        return Err(Rejected(next.error));
      }
      RetryIs(state, now, next.value);
      jobs := jobs[id := jobs[id].(state := next.value)];
      if closed {
        // The executor refuses the work and the record is forgotten.
        jobs := jobs - {id};
        index := index - {next.value.idempotencyKey};
        assert jobs == old(jobs) - {id};
        return Err(ExecutorDown);
      }
      queue := queue + [id];
      return Ok(next.value);
    }

    method Shutdown(wait: bool, now: Time)
      requires Enabled(View(), Op.Shutdown(wait), now)
      modifies this
      ensures View() == Do(old(View()), Op.Shutdown(wait), now)
      ensures closed && jobs == old(jobs) && worker == old(worker)
      ensures queue == if wait || old(closed) then old(queue) else []
    {
      clock := now;
      if closed {
        return;
      }
      closed := true;
      if !wait {
        queue := [];
      }
      dropped := !wait;
    }

    /** The locked first half of a queue entry: the attempt starts, or the entry is stale. */
    method BeginTask(now: Time)
      requires Enabled(View(), Op.BeginTask, now)
      modifies this
      ensures View() == Do(old(View()), Op.BeginTask, now)
    {
      hide ApplyEvent, ValidJob, BareEvent;
      clock := now;
      var id := queue[0];
      queue := queue[1..];
      if id !in jobs || !jobs[id].state.status.Pending? {
        return;
      }
      var state := jobs[id].state;
      var attemptId := nextId;
      nextId := nextId + 1;
      var next := ApplyEvent(state, BareEvent(state, Started, now, Some(attemptId)));
      if next.Ok? {
        jobs := jobs[id := jobs[id].(state := next.value)];
        worker := Busy(id, attemptId);
        bodies := bodies + [(id, attemptId)];
      }
    }

    method ReportProgress(completed: int, total: Option<int>, phase: string, now: Time)
      returns (r: Result<Job, RunnerError>)
      requires Enabled(View(), ReportUnits(completed, total, phase), now)
      modifies this
      ensures View() == Do(old(View()), ReportUnits(completed, total, phase), now)
      ensures r == ReportStep(old(View()).(clock := now), completed, total, phase, now).1
      ensures r.Ok? ==>
                && worker.jobId in old(jobs)
                && ReportedAs(old(jobs)[worker.jobId].state, completed, total, phase, r.value)
                && jobs == old(jobs)[worker.jobId := old(jobs)[worker.jobId].(state := r.value)]
    {
      hide ApplyEvent, ValidJob, ReportedAs, ProgressEvent;
      clock := now;
      var id := worker.jobId;
      if id !in jobs {
        return Err(JobNotFound);
      }
      var state := jobs[id].state;
      var next := ApplyEvent(state, ProgressEvent(state, now, worker.attemptId, completed, total,
                                                  phase));
      if next.Err? {
        return Err(Rejected(next.error));
      }
      ReportIs(state, now, worker.attemptId, completed, total, phase, next.value);
      jobs := jobs[id := jobs[id].(state := next.value)];
      return Ok(next.value);
    }

    method RaiseIfCancelled() returns (raised: bool)
      requires worker.Busy?
      ensures raised <==> ToldCancelled(View())
    {
      raised := worker.jobId in jobs
                && (jobs[worker.jobId].cancelSet
                    || jobs[worker.jobId].state.status.CancelRequested?);
    }

    /** The locked second half: the way the task body ended is recorded, if it still can be. */
    method FinishAttempt(end: TaskEnd, now: Time) returns (r: Result<Job, RunnerError>)
      requires Enabled(View(), EndTask(end), now)
      modifies this
      ensures View() == Do(old(View()), EndTask(end), now)
      ensures r == EndStep(old(View()).(clock := now), end, now).1
      ensures r.Ok? ==>
                && worker.Idle? && old(worker.jobId) in old(jobs)
                && EndedAs(old(jobs)[old(worker.jobId)].state, end, now, r.value)
                && jobs == old(jobs)[old(worker.jobId) :=
                                     old(jobs)[old(worker.jobId)].(state := r.value)]
    {
      hide ApplyEvent, ValidJob, EndedAs, EndEvent;
      clock := now;
      var id, attemptId := worker.jobId, worker.attemptId;
      worker := Idle;
      if id !in jobs {
        return Err(JobNotFound);
      }
      var state := jobs[id].state;
      var next := ApplyEvent(state, EndEvent(state, end, now, attemptId));
      if next.Err? {
        stuck := stuck + {id};
        return Err(Rejected(next.error));
      }
      EndIs(state, end, now, attemptId, next.value);
      jobs := jobs[id := jobs[id].(state := next.value)];
      return Ok(next.value);
    }
  }
}
