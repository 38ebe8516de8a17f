/**
  What every call of the runner answers and leaves behind, told on the fields of its jobs: which
  requests it refuses and how, and what becomes of the one job it works on.
 */
module JobAnswers {
  import opened Common
  import opened JobSystem
  import opened JobRuns
  import opened JobRunner
  import opened JobScheduling

  /** The call changes at most the record of job `id`, to one with state `t`. */
  predicate OnlyRecord(r: Runner, r': Runner, id: Uuid, rec: Record) {
    r'.jobs == r.jobs[id := rec] && r'.index == r.index && r'.closed == r.closed
  }

  /**
    A request is refused when the runner is closed, when its fields are not allowed, and when its
    key belongs to a job of another kind, workspace, version or payload. A known key answers the
    job it has; a new one registers and queues the job the request describes.
   */
  lemma SubmitAnswers(r: Runner, q: Request, now: Time)
    requires Sound(r) && r.clock == now
    ensures var (r', a) := SubmitStep(r, q, now);
            if r.closed then a == Err(RunnerClosed) && r' == r
            else if !Acceptable(q) then a == Err(Rejected(ValidationFailed)) && r' == r
            else if q.idempotencyKey in r.index then
              && r' == r.(nextId := r.nextId + 1) && r.index[q.idempotencyKey] in r.jobs
              && var s := r.jobs[r.index[q.idempotencyKey]].state;
                 a == if s.kind == q.kind && s.workspaceId == q.workspaceId
                         && s.taskVersion == q.taskVersion && s.payload == q.payload
                      then Ok(s) else Err(KeyConflict)
            else
              && a.Ok? && RequestedAs(q, r.nextId, now, a.value)
              && r' == r.(nextId := r.nextId + 1,
                          jobs := r.jobs[r.nextId := Record(a.value, false)],
                          index := r.index[q.idempotencyKey := r.nextId],
                          queue := r.queue + [r.nextId])
  {
    hide Candidate, ValidJob, RecordsSound, QueueSound, PendingQueued, WorkerSound, BodiesMatch,
      Acceptable;
    CandidateIs(q, r.nextId, now);
  }

  /**
    An unknown job, one that is over, and a retry that waits to start cannot be cancelled; a second
    request changes nothing; any other takes effect at once and sets the flag.
   */
  lemma CancelAnswers(r: Runner, id: Uuid, now: Time)
    requires Sound(r) && r.clock == now
    ensures var (r', a) := CancelStep(r, id, now);
            if id !in r.jobs then a == Err(JobNotFound) && r' == r
            else
              var s := r.jobs[id].state;
              match s.status
              case CancelRequested => a == Ok(s) && r' == r
              case Running =>
                a.Ok? && CancelledAs(s, now, a.value)
                && r' == r.(jobs := r.jobs[id := Record(a.value, true)])
              case Pending =>
                if s.attempts == [] then
                  a.Ok? && CancelledAs(s, now, a.value)
                  && r' == r.(jobs := r.jobs[id := Record(a.value, true)])
                else a == Err(Rejected(ValidationFailed)) && r' == r
              case _ => a == Err(CancelNotAllowed) && r' == r
  {
    hide ValidJob, TransitionJob, IndexInverse, QueueSound, PendingQueued, WorkerSound, BodiesMatch,
      CancelledAs;
    if id in r.jobs {
      var s := r.jobs[id].state;
      if !Terminal(s.status) && !s.status.CancelRequested? {
        CancelOutcome(s, now);
      }
    }
  }

  lemma CancelOutcome(s: Job, now: Time)
    requires ValidJob(s) && Timely(s, now) && (s.status.Pending? || s.status.Running?)
    ensures var a := ApplyEvent(s, BareEvent(s, CancellationRequested, now, None));
            if s.status.Pending? && s.attempts != [] then a == Err(ValidationFailed)
            else a.Ok? && CancelledAs(s, now, a.value)
  {
    var e := BareEvent(s, CancellationRequested, now, None);
    TransitionAcceptsExactly(s, e);
    if ApplyEvent(s, e).Ok? {
      CancelIs(s, now, ApplyEvent(s, e).value);
    }
  }

  /** The condition for a retry, as a caller can check it. */
  predicate MayRetry(s: Job) {
    && s.status.Failed? && s.attempts != [] && Last(s.attempts).retryable
    && |s.attempts| < s.maxAttempts
  }

  /** Exactly a retryable failure with attempts left is queued again; a closed runner forgets it. */
  lemma RetryAnswers(r: Runner, id: Uuid, now: Time)
    requires Sound(r) && r.clock == now
    ensures var (r', a) := RetryStep(r, id, now);
            if id !in r.jobs then a == Err(JobNotFound) && r' == r
            else
              var s := r.jobs[id].state;
              if !MayRetry(s) then a == Err(RetryRefused) && r' == r
              else if r.closed then
                a == Err(ExecutorDown)
                && r' == r.(jobs := r.jobs - {id}, index := r.index - {s.idempotencyKey})
              else
                a.Ok? && RetriedAs(s, a.value)
                && r' == r.(jobs := r.jobs[id := r.jobs[id].(state := a.value)], queue := r.queue + [id])
  {
    hide ValidJob, ApplyEvent, IndexInverse, QueueSound, PendingQueued, WorkerSound, BodiesMatch,
      RetriedAs;
    if id in r.jobs && MayRetry(r.jobs[id].state) {
      RetryOutcome(r.jobs[id].state, now);
    }
  }

  lemma RetryOutcome(s: Job, now: Time)
    requires ValidJob(s) && Timely(s, now) && MayRetry(s)
    ensures var a := ApplyEvent(s, BareEvent(s, RetryRequested, now, None));
            a.Ok? && RetriedAs(s, a.value) && a.value.idempotencyKey == s.idempotencyKey
  {
    var e := BareEvent(s, RetryRequested, now, None);
    TransitionAcceptsExactly(s, e);
    RetryIs(s, now, ApplyEvent(s, e).value);
  }

  /** The head of the queue leaves it; a job still waiting starts its next attempt. */
  lemma BeginAnswers(r: Runner, now: Time)
    requires Sound(r) && r.clock == now && r.worker.Idle? && r.queue != []
    ensures r.queue[0] in r.jobs
    ensures var id := r.queue[0];
            var s, r' := r.jobs[id].state, BeginStep(r, now);
            if !s.status.Pending? then r' == r.(queue := r.queue[1..])
            else
              && id in r'.jobs && StartedAs(s, r.nextId, now, r'.jobs[id].state)
              && r' == r.(queue := r.queue[1..], nextId := r.nextId + 1,
                          jobs := r.jobs[id := r.jobs[id].(state := r'.jobs[id].state)],
                          worker := Busy(id, r.nextId), bodies := r.bodies + [(id, r.nextId)])
  {
    hide ValidJob, ApplyEvent, IndexInverse, PendingQueued, WorkerSound, BodiesMatch, StartedAs,
      Timely, IdsBelow, PendingLeavesRoom;
    var s := r.jobs[r.queue[0]].state;
    if s.status.Pending? {
      PendingStarts(s, now, r.nextId);
      StartIs(s, now, r.nextId,
              ApplyEvent(s, BareEvent(s, Started, now, Some(r.nextId))).value);
    }
  }

  /** When a report is taken: no number negative or falling, no known total contradicted or passed. */
  predicate MayReport(s: Job, completed: int, total: Option<int>) {
    && s.attempts != [] && 0 <= completed && (total.Some? ==> 0 <= total.value)
    && var p := Last(s.attempts).progress;
       && p.completed <= completed
       && (p.total.Some? && total.Some? ==> total == p.total)
       && (p.total.Some? ==> completed <= p.total.value)
       && (total.Some? ==> completed <= total.value)
  }

  /** The running job shows exactly the reports that may be taken. */
  lemma ReportAnswers(r: Runner, completed: int, total: Option<int>, phase: string, now: Time)
    requires Sound(r) && r.clock == now && r.worker.Busy?
    ensures r.worker.jobId in r.jobs
    ensures var id := r.worker.jobId;
            var s, (r', a) := r.jobs[id].state, ReportStep(r, completed, total, phase, now);
            if MayReport(s, completed, total) then
              a.Ok? && ReportedAs(s, completed, total, phase, a.value)
              && r' == r.(jobs := r.jobs[id := r.jobs[id].(state := a.value)])
            else a.Err? && r' == r
  {
    hide ValidJob, ApplyEvent, IndexInverse, QueueSound, PendingQueued, BodiesMatch, ReportedAs,
      MayReport, ProgressEvent;
    ReportOutcome(r.jobs[r.worker.jobId].state, now, r.worker.attemptId, completed, total, phase);
  }

  lemma ReportOutcome(s: Job, now: Time, attemptId: Uuid, completed: int, total: Option<int>,
                      phase: string)
    requires ValidJob(s) && Timely(s, now) && Active(s)
    requires s.attempts != [] && Last(s.attempts).attemptId == attemptId
    ensures var a := ApplyEvent(s, ProgressEvent(s, now, attemptId, completed, total, phase));
            && (a.Ok? <==> MayReport(s, completed, total))
            && (a.Ok? ==> ReportedAs(s, completed, total, phase, a.value))
  {
    var e := ProgressEvent(s, now, attemptId, completed, total, phase);
    if ValidEvent(e) {
      TransitionAcceptsExactly(s, e);
    }
    if ApplyEvent(s, e).Ok? {
      ReportIs(s, now, attemptId, completed, total, phase, ApplyEvent(s, e).value);
    }
  }

  /**
    However a body ends, its job ends the same way, at that moment: it succeeds if the body
    returned, carries the code of an error raised, and is cancelled if the body said so after a
    request. Only a body that says so without one leaves its job as it is.
   */
  lemma EndAnswers(r: Runner, end: TaskEnd, now: Time)
    requires Sound(r) && r.clock == now && Enabled(r, EndTask(end), now)
    ensures r.worker.jobId in r.jobs
    ensures var id := r.worker.jobId;
            var s, r' := r.jobs[id].state, Do(r, EndTask(end), now);
            if end.RaisedCancelled? && !s.status.CancelRequested? then
              r' == r.(worker := Idle, stuck := r.stuck + {id})
            else
              && id in r'.jobs && EndedAs(s, end, now, r'.jobs[id].state)
              && r' == r.(worker := Idle, jobs := r.jobs[id := r.jobs[id].(state := r'.jobs[id].state)])
  {
    hide ValidJob, ApplyEvent, IndexInverse, QueueSound, PendingQueued, BodiesMatch, EndedAs, EndEvent;
    assert r.(clock := now) == r;
    var s := r.jobs[r.worker.jobId].state;
    EndRefusedExactly(r, end, now);
    var a := ApplyEvent(s, EndEvent(s, end, now, r.worker.attemptId));
    if a.Ok? {
      EndIs(s, end, now, r.worker.attemptId, a.value);
    }
  }

  /** While flags are spent the end of every body is taken, and its job is over. */
  lemma CleanEndIsTaken(r: Runner, end: TaskEnd, now: Time)
    requires Sound(r) && FlagsSpent(r) && Enabled(r, EndTask(end), now)
    ensures r.worker.jobId in r.jobs
    ensures var id, r' := r.worker.jobId, Do(r, EndTask(end), now);
            && id in r'.jobs && EndedAs(r.jobs[id].state, end, now, r'.jobs[id].state)
            && r'.worker.Idle? && r'.stuck == {}
  {
    hide RecordsSound, IndexInverse, QueueSound, PendingQueued, BodiesMatch, EndedAs, Do, ValidRecords;
    var at := r.(clock := now);
    LaterClock(r, now);
    SameDo(r, end, now);
    EndAnswers(at, end, now);
  }

  lemma SameDo(r: Runner, end: TaskEnd, now: Time)
    requires Enabled(r, EndTask(end), now)
    ensures Enabled(r.(clock := now), EndTask(end), now)
    ensures Do(r.(clock := now), EndTask(end), now) == Do(r, EndTask(end), now)
  {
    hide EndStep, ValidJob;
  }
}
