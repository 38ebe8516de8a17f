/**
  The background-job state machine: frozen job and attempt records, the lifecycle
  validator every record passes through, and the event-driven transition.

  A record is rebuilt and validated again after every change, so a transition can be
  refused twice over: by one of its own guards, or by the validator.
 */
module JobSystem {
  import opened Common

  datatype JobKind = WorkspaceScan | DocumentIndex

  datatype JobStatus = Pending | Running | CancelRequested | Succeeded | Failed | Cancelled

  datatype AttemptStatus =
    | AttemptRunning
    | AttemptSucceeded
    | AttemptFailed
    | AttemptCancelled
    | AttemptInterrupted

  datatype EventKind =
    | Started
    | ProgressReported
    | CancellationRequested
    | FinishedOk
    | FinishedFailed
    | FinishedCancelled
    | FinishedInterrupted
    | RetryRequested

  datatype JobError =
    | JobMismatch
    | EventSequenceMismatch
    | AttemptMismatch
    | InvalidTransition
    | ProgressRegression
    | RetryNotAllowed
    | ValidationFailed

  /** Task parameters that can be parsed again after a restart. */
  datatype Payload = Payload(workspaceId: int, indexWorkspace: bool)

  /** A digest is an injective token of what was hashed. */
  datatype Digest = Digest(of: Payload)

  datatype Progress = Progress(completed: int, total: Option<int>, phase: string)

  const INITIAL_PROGRESS := Progress(0, None, "starting")

  datatype Attempt = Attempt(
    attemptId: Uuid,
    jobId: Uuid,
    attemptNo: int,
    status: AttemptStatus,
    progress: Progress,
    startedAt: Time,
    finishedAt: Option<Time>,
    errorCode: Option<string>,
    retryable: bool)

  datatype Job = Job(
    jobId: Uuid,
    kind: JobKind,
    taskVersion: string,
    workspaceId: int,
    payload: Payload,
    payloadHash: Option<Digest>,
    idempotencyKey: string,
    status: JobStatus,
    maxAttempts: int,
    revision: int,
    createdAt: Time,
    cancelRequestedAt: Option<Time>,
    finishedAt: Option<Time>,
    errorCode: Option<string>,
    attempts: seq<Attempt>)

  datatype Event = Event(
    jobId: Uuid,
    sequenceNo: int,
    kind: EventKind,
    occurredAt: Time,
    attemptId: Option<Uuid>,
    completedUnits: Option<int>,
    totalUnits: Option<int>,
    phaseCode: Option<string>,
    errorCode: Option<string>,
    retryable: Option<bool>)

  // ---------------------------------------------------------------- validators

  predicate ValidProgress(p: Progress) {
    && 0 <= p.completed
    && (p.total.Some? ==> 0 <= p.total.value && p.completed <= p.total.value)
  }

  predicate ValidAttempt(a: Attempt) {
    && 1 <= a.attemptNo
    && ValidProgress(a.progress)
    && if a.status.AttemptRunning? then
         a.finishedAt.None? && a.errorCode.None? && !a.retryable
       else
         && a.finishedAt.Some?
         && a.startedAt <= a.finishedAt.value
         && (a.errorCode.Some? <==> a.status.AttemptFailed? || a.status.AttemptInterrupted?)
         && (a.status.AttemptInterrupted? ==> a.retryable)
         && (a.status.AttemptSucceeded? || a.status.AttemptCancelled? ==> !a.retryable)
  }

  predicate Terminal(s: JobStatus) {
    s.Succeeded? || s.Failed? || s.Cancelled?
  }

  /** Each attempt belongs to the job, is numbered by its position and starts after the job. */
  predicate ValidAttempts(j: Job) {
    && |j.attempts| <= j.maxAttempts
    && (forall i :: 0 <= i < |j.attempts| ==>
          && ValidAttempt(j.attempts[i])
          && j.attempts[i].jobId == j.jobId
          && j.attempts[i].attemptNo == i + 1
          && j.createdAt <= j.attempts[i].startedAt)
    && (forall i, k :: 0 <= i < k < |j.attempts| ==>
          j.attempts[i].attemptId != j.attempts[k].attemptId)
  }

  /** What the status says about the newest attempt. */
  predicate StatusMatchesLatest(j: Job) {
    match j.status
    case Running => j.attempts != [] && Last(j.attempts).status.AttemptRunning?
    case CancelRequested => j.attempts != [] && Last(j.attempts).status.AttemptRunning?
    case Succeeded => j.attempts != [] && Last(j.attempts).status.AttemptSucceeded?
    case Failed =>
      && j.attempts != []
      && (Last(j.attempts).status.AttemptFailed? || Last(j.attempts).status.AttemptInterrupted?)
      && Last(j.attempts).errorCode == j.errorCode
    case Cancelled => j.attempts != [] ==> Last(j.attempts).status.AttemptCancelled?
    case Pending =>
      j.attempts != [] ==>
        Last(j.attempts).status.AttemptFailed? || Last(j.attempts).status.AttemptInterrupted?
  }

  /** The lifecycle validator, without the digest it fills in. */
  predicate Lifecycle(j: Job) {
    && 1 <= j.workspaceId
    && j.payload.workspaceId == j.workspaceId
    && (j.payloadHash.Some? ==> j.payloadHash.value == Digest(j.payload))
    && 1 <= j.maxAttempts <= 10
    && 0 <= j.revision
    && ValidAttempts(j)
    && (Terminal(j.status) <==> j.finishedAt.Some?)
    && (j.finishedAt.Some? ==> j.createdAt <= j.finishedAt.value)
    && (j.status.Failed? <==> j.errorCode.Some?)
    && (j.cancelRequestedAt.Some? ==> j.createdAt <= j.cancelRequestedAt.value)
    && (j.status.CancelRequested? || j.status.Cancelled? ==> j.cancelRequestedAt.Some?)
    && StatusMatchesLatest(j)
  }

  /** A job record as it exists once built: validated, with its digest filled in. */
  predicate ValidJob(j: Job) {
    Lifecycle(j) && j.payloadHash == Some(Digest(j.payload))
  }

  predicate NamesAttempt(k: EventKind) {
    !k.CancellationRequested? && !k.RetryRequested?
  }

  predicate ValidEvent(e: Event) {
    && 1 <= e.sequenceNo
    && (NamesAttempt(e.kind) <==> e.attemptId.Some?)
    && (e.completedUnits.Some? ==> 0 <= e.completedUnits.value)
    && (e.totalUnits.Some? ==> 0 <= e.totalUnits.value)
    && (if e.kind.ProgressReported?
        then e.completedUnits.Some? && e.phaseCode.Some?
        else e.completedUnits.None? && e.totalUnits.None? && e.phaseCode.None?)
    && (if e.kind.FinishedFailed? || e.kind.FinishedInterrupted?
        then e.errorCode.Some? && e.retryable.Some?
             && (e.kind.FinishedInterrupted? ==> e.retryable.value)
        else e.errorCode.None? && e.retryable.None?)
  }

  // ---------------------------------------------------------------- transition

  /** Rebuilds a record: validates it and fills in the digest. */
  function BuildJob(j: Job): (r: Result<Job, JobError>)
    ensures r.Ok? <==> Lifecycle(j)
    ensures r.Ok? ==> ValidJob(r.value)
  {
    if Lifecycle(j) then Ok(j.(payloadHash := Some(Digest(j.payload)))) else Err(ValidationFailed)
  }

  function TransitionJob(s: Job, e: Event): Result<Job, JobError>
    requires ValidJob(s) && ValidEvent(e)
  {
    if e.jobId != s.jobId then Err(JobMismatch)
    else if e.sequenceNo != s.revision + 1 then Err(EventSequenceMismatch)
    else if e.occurredAt < s.createdAt then Err(InvalidTransition)
    else
      match e.kind
      case Started => StartAttempt(s, e)
      case ProgressReported => ReportProgress(s, e)
      case CancellationRequested => RequestCancellation(s, e)
      case RetryRequested => RequestRetry(s, e)
      case _ => FinishAttempt(s, e)
  }

  function StartAttempt(s: Job, e: Event): Result<Job, JobError>
    requires e.attemptId.Some?
  {
    if !s.status.Pending? then Err(InvalidTransition)
    else if s.maxAttempts <= |s.attempts| then Err(RetryNotAllowed)
    else if exists i :: 0 <= i < |s.attempts| && s.attempts[i].attemptId == e.attemptId.value then
      Err(AttemptMismatch)
    else
      var attempt := Attempt(e.attemptId.value, s.jobId, |s.attempts| + 1, AttemptRunning,
                             INITIAL_PROGRESS, e.occurredAt, None, None, false);
      BuildJob(s.(status := Running, revision := e.sequenceNo, attempts := s.attempts + [attempt]))
  }

  /** The attempt an event about a running attempt must name. */
  function ActiveAttempt(s: Job, e: Event): Result<Attempt, JobError>
    requires ValidJob(s)
  {
    if !s.status.Running? && !s.status.CancelRequested? then Err(InvalidTransition)
    else
      var attempt := Last(s.attempts);
      if !attempt.status.AttemptRunning? || Some(attempt.attemptId) != e.attemptId
      then Err(AttemptMismatch)
      else Ok(attempt)
  }

  function ReplaceLatest(s: Job, a: Attempt): seq<Attempt>
    requires s.attempts != []
  {
    s.attempts[..|s.attempts| - 1] + [a]
  }

  function ReportProgress(s: Job, e: Event): Result<Job, JobError>
    requires ValidJob(s) && ValidEvent(e) && e.kind.ProgressReported?
  {
    match ActiveAttempt(s, e)
    case Err(error) => Err(error)
    case Ok(attempt) =>
      var known := attempt.progress.total;
      if e.completedUnits.value < attempt.progress.completed then Err(ProgressRegression)
      else if known.Some? && e.totalUnits.Some? && e.totalUnits != known then Err(ProgressRegression)
      else
        var progress := Progress(e.completedUnits.value,
                                 if known.Some? then known else e.totalUnits,
                                 e.phaseCode.value);
        if !ValidProgress(progress) then Err(ValidationFailed)
        else BuildJob(s.(revision := e.sequenceNo,
                         attempts := ReplaceLatest(s, attempt.(progress := progress))))
  }

  function RequestCancellation(s: Job, e: Event): Result<Job, JobError> {
    match s.status
    case Pending =>
      BuildJob(s.(status := Cancelled, revision := e.sequenceNo,
                  cancelRequestedAt := Some(e.occurredAt), finishedAt := Some(e.occurredAt)))
    case Running =>
      BuildJob(s.(status := CancelRequested, revision := e.sequenceNo,
                  cancelRequestedAt := Some(e.occurredAt)))
    case CancelRequested => BuildJob(s.(revision := e.sequenceNo))
    case _ => Err(InvalidTransition)
  }

  function Outcome(k: EventKind): (AttemptStatus, JobStatus)
    requires k.FinishedOk? || k.FinishedFailed? || k.FinishedCancelled? || k.FinishedInterrupted?
  {
    match k
    case FinishedOk => (AttemptSucceeded, Succeeded)
    case FinishedFailed => (AttemptFailed, Failed)
    case FinishedCancelled => (AttemptCancelled, Cancelled)
    case FinishedInterrupted => (AttemptInterrupted, Failed)
  }

  predicate Finishes(k: EventKind) {
    k.FinishedOk? || k.FinishedFailed? || k.FinishedCancelled? || k.FinishedInterrupted?
  }

  function FinishAttempt(s: Job, e: Event): Result<Job, JobError>
    requires ValidJob(s) && Finishes(e.kind)
  {
    match ActiveAttempt(s, e)
    case Err(error) => Err(error)
    case Ok(attempt) =>
      if e.occurredAt < attempt.startedAt then Err(InvalidTransition)
      else if e.kind.FinishedCancelled? && !s.status.CancelRequested? then Err(InvalidTransition)
      else
        var (attemptStatus, jobStatus) := Outcome(e.kind);
        var updated := attempt.(status := attemptStatus,
                                finishedAt := Some(e.occurredAt),
                                errorCode := e.errorCode,
                                retryable := e.retryable == Some(true));
        if !ValidAttempt(updated) then Err(ValidationFailed)
        else BuildJob(s.(status := jobStatus, revision := e.sequenceNo,
                         attempts := ReplaceLatest(s, updated),
                         finishedAt := Some(e.occurredAt), errorCode := e.errorCode))
  }

  function RequestRetry(s: Job, e: Event): Result<Job, JobError> {
    if !s.status.Failed? || s.attempts == [] || !Last(s.attempts).retryable
       || s.maxAttempts <= |s.attempts|
    then Err(RetryNotAllowed)
    else BuildJob(s.(status := Pending, revision := e.sequenceNo,
                     cancelRequestedAt := None, finishedAt := None, errorCode := None))
  }

  // ---------------------------------------------------------------- exact acceptance

  predicate Active(s: Job) {
    s.status.Running? || s.status.CancelRequested?
  }

  /** The event is addressed to this job, next in order, and not before the job existed. */
  predicate Addressed(s: Job, e: Event) {
    e.jobId == s.jobId && e.sequenceNo == s.revision + 1 && s.createdAt <= e.occurredAt
  }

  predicate NamesRunning(s: Job, e: Event) {
    Active(s) && s.attempts != [] && Some(Last(s.attempts).attemptId) == e.attemptId
  }

  /** Progress past the total the attempt will have: the one already known, else the reported one. */
  predicate Overshoots(s: Job, e: Event)
    requires s.attempts != [] && e.completedUnits.Some?
  {
    var known := Last(s.attempts).progress.total;
    var total := if known.Some? then known else e.totalUnits;
    total.Some? && total.value < e.completedUnits.value
  }

  predicate KeepsProgress(s: Job, e: Event)
    requires s.attempts != [] && e.completedUnits.Some?
  {
    var p := Last(s.attempts).progress;
    && p.completed <= e.completedUnits.value
    && (p.total.Some? && e.totalUnits.Some? ==> e.totalUnits == p.total)
  }

  /** The condition under which the guards of the transition let the event through. */
  predicate GuardsPass(s: Job, e: Event)
    requires ValidJob(s) && ValidEvent(e)
  {
    Addressed(s, e) &&
    match e.kind
    case Started =>
      && s.status.Pending?
      && |s.attempts| < s.maxAttempts
      && (forall a :: a in s.attempts ==> Some(a.attemptId) != e.attemptId)
    case ProgressReported => NamesRunning(s, e) && KeepsProgress(s, e)
    case CancellationRequested => !Terminal(s.status)
    case FinishedCancelled =>
      NamesRunning(s, e) && s.status.CancelRequested? && Last(s.attempts).startedAt <= e.occurredAt
    case RetryRequested =>
      s.status.Failed? && Last(s.attempts).retryable && |s.attempts| < s.maxAttempts
    case _ => NamesRunning(s, e) && Last(s.attempts).startedAt <= e.occurredAt
  }

  /** The two cases that only the validators refuse. */
  predicate OnlyValidatorRefuses(s: Job, e: Event)
    requires ValidJob(s) && ValidEvent(e)
  {
    || (e.kind.CancellationRequested? && s.status.Pending? && s.attempts != [])
    || (e.kind.ProgressReported? && s.attempts != [] && Overshoots(s, e))
  }

  /**
    A transition succeeds exactly when its guards pass and it is neither the cancellation of a
    retry that is waiting to start nor progress past the total; its result is a valid job again;
    and those two cases are the only ones that pass every guard and still fail validation.
   */
  lemma TransitionAcceptsExactly(s: Job, e: Event)
    requires ValidJob(s) && ValidEvent(e)
    ensures TransitionJob(s, e).Ok? <==> GuardsPass(s, e) && !OnlyValidatorRefuses(s, e)
    ensures TransitionJob(s, e) == Err(ValidationFailed) <==>
            GuardsPass(s, e) && OnlyValidatorRefuses(s, e)
    ensures TransitionJob(s, e).Ok? ==> ValidJob(TransitionJob(s, e).value)
  {
    if Addressed(s, e) {
      match e.kind
      case Started => StartExactly(s, e);
      case ProgressReported => ProgressExactly(s, e);
      case CancellationRequested =>
      case RetryRequested =>
      case _ => FinishExactly(s, e);
    }
  }

  /** What an event about the running attempt is told when it cannot be: no such attempt, or another. */
  predicate RefusedAttempt(s: Job, e: Event, a: Result<Job, JobError>)
    requires ValidJob(s)
  {
    if !Active(s) then a == Err(InvalidTransition)
    else Some(Last(s.attempts).attemptId) != e.attemptId && a == Err(AttemptMismatch)
  }

  /** Every refusal has its own reason, looked at in this order. */
  lemma TransitionAnswers(s: Job, e: Event)
    requires ValidJob(s) && ValidEvent(e)
    ensures var a := TransitionJob(s, e);
            if e.jobId != s.jobId then a == Err(JobMismatch)
            else if e.sequenceNo != s.revision + 1 then a == Err(EventSequenceMismatch)
            else if e.occurredAt < s.createdAt then a == Err(InvalidTransition)
            else match e.kind
              case Started =>
                if !s.status.Pending? then a == Err(InvalidTransition)
                else if s.maxAttempts <= |s.attempts| then a == Err(RetryNotAllowed)
                else a == Err(AttemptMismatch)
                     <==> exists b :: b in s.attempts && Some(b.attemptId) == e.attemptId
              case ProgressReported =>
                || RefusedAttempt(s, e, a)
                || (NamesRunning(s, e)
                    && if !KeepsProgress(s, e) then a == Err(ProgressRegression)
                       else if Overshoots(s, e) then a == Err(ValidationFailed) else a.Ok?)
              case CancellationRequested =>
                if Terminal(s.status) then a == Err(InvalidTransition)
                else if s.status.Pending? && s.attempts != [] then a == Err(ValidationFailed) else a.Ok?
              case RetryRequested => a.Ok? || a == Err(RetryNotAllowed)
              case _ =>
                || RefusedAttempt(s, e, a)
                || (NamesRunning(s, e)
                    && if e.occurredAt < Last(s.attempts).startedAt
                          || (e.kind.FinishedCancelled? && !s.status.CancelRequested?)
                       then a == Err(InvalidTransition) else a.Ok?)
  {
    TransitionAcceptsExactly(s, e);
    if Addressed(s, e) && e.kind.Started? && s.status.Pending? && |s.attempts| < s.maxAttempts {
      StartRefuses(s, e);
    }
    hide Lifecycle, BuildJob;
  }

  lemma StartRefuses(s: Job, e: Event)
    requires ValidJob(s) && ValidEvent(e) && Addressed(s, e) && e.kind.Started?
    requires s.status.Pending? && |s.attempts| < s.maxAttempts
    ensures StartAttempt(s, e) == Err(AttemptMismatch)
            <==> exists b :: b in s.attempts && Some(b.attemptId) == e.attemptId
  {
    StartExactly(s, e);
    if b :| b in s.attempts && Some(b.attemptId) == e.attemptId {
      var i :| 0 <= i < |s.attempts| && s.attempts[i] == b;
    }
    hide Lifecycle;
  }

  lemma StartExactly(s: Job, e: Event)
    requires ValidJob(s) && ValidEvent(e) && Addressed(s, e) && e.kind.Started?
    ensures StartAttempt(s, e).Ok? <==> GuardsPass(s, e)
    ensures StartAttempt(s, e) != Err(ValidationFailed)
  {
    if GuardsPass(s, e) {
      var next := s.(status := Running, revision := e.sequenceNo,
                     attempts := s.attempts + [Attempt(e.attemptId.value, s.jobId, |s.attempts| + 1,
                                                       AttemptRunning, INITIAL_PROGRESS,
                                                       e.occurredAt, None, None, false)]);
      forall i, k | 0 <= i < k < |next.attempts|
        ensures next.attempts[i].attemptId != next.attempts[k].attemptId
      {
        assert next.attempts[i] in s.attempts;
      }
      assert Lifecycle(next);
    }
  }

  lemma ProgressExactly(s: Job, e: Event)
    requires ValidJob(s) && ValidEvent(e) && Addressed(s, e) && e.kind.ProgressReported?
    ensures ReportProgress(s, e).Ok? <==> GuardsPass(s, e) && !OnlyValidatorRefuses(s, e)
    ensures ReportProgress(s, e) == Err(ValidationFailed) <==>
            GuardsPass(s, e) && OnlyValidatorRefuses(s, e)
  {
  }

  lemma FinishExactly(s: Job, e: Event)
    requires ValidJob(s) && ValidEvent(e) && Addressed(s, e) && Finishes(e.kind)
    ensures FinishAttempt(s, e).Ok? <==> GuardsPass(s, e)
    ensures FinishAttempt(s, e) != Err(ValidationFailed)
  {
  }
}
