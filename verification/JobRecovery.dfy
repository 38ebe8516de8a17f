/**
  Recovery of persisted jobs after a restart: one scan closes or re-queues every unfinished job,
  each step one ordinary transition saved with a compare-and-set.

  A scan works on the snapshots it read first, so another process may have moved a job on in the
  meantime; a save that loses that race is answered from what is stored now.
 */
module JobRecovery {
  import opened Common
  import opened JobSystem
  import opened JobRuns
  import opened JobStore
  import opened JobWriters
  import opened JobRunner

  datatype RecoveryError = Transition(error: JobError) | Storage(storeError: StoreError)

  /** The fresh identity and the two clock readings one job's recovery may use. */
  datatype Source = Source(freshId: Uuid, first: Time, second: Time)

  /** What the scan does with one snapshot. */
  datatype Outcome =
    | Skipped
    | Recovered(state: Job, enqueued: bool)
    | Aborted(error: RecoveryError)

  // ---------------------------------------------------------------- single transitions

  function FailureEvent(s: Job, kind: EventKind, now: Time, attemptId: Uuid, code: string,
                        again: bool): Event
  {
    BareEvent(s, kind, now, Some(attemptId)).(errorCode := Some(code), retryable := Some(again))
  }

  /** One event applied to a held state and saved over it. */
  function ApplyStored(db: Db, s: Job, e: Event): (a: (Db, Result<Job, RecoveryError>))
    requires ValidJob(s)
    ensures a.1.Ok? ==> ValidJob(a.1.value)
  {
    match ApplyEvent(s, e)
    case Err(error) => (db, Err(Transition(error)))
    case Ok(t) =>
      var (db', r) := SaveResult(db, s.revision, t);
      (db', match r case Ok(saved) => Ok(saved) case Err(error) => Err(Storage(error)))
  }

  /** The answer to a conflict is whatever is stored; every other error ends the scan. */
  predicate Conflict(r: Result<Job, RecoveryError>)
    ensures Conflict(r) ==> r.Err?
  {
    && r.Err? && r.error.Storage?
    && (r.error.storeError.AttemptConflict? || r.error.storeError.RevisionConflict?)
  }

  // ---------------------------------------------------------------- recovering one job

  /** Closes an attempt left behind by a lost worker. */
  function CloseLeftover(db: Db, s: Job, now: Time): (a: (Db, Result<Job, RecoveryError>))
    requires ValidJob(s)
    ensures a.1.Ok? ==> ValidJob(a.1.value)
  {
    if s.status.Running? then
      ApplyStored(db, s, FailureEvent(s, FinishedInterrupted, now, Last(s.attempts).attemptId,
                                      "worker_interrupted", true))
    else if s.status.CancelRequested? then
      ApplyStored(db, s, BareEvent(s, FinishedCancelled, now, Some(Last(s.attempts).attemptId)))
    else (db, Ok(s))
  }

  predicate InterruptedWithRoom(s: Job) {
    && s.status.Failed? && s.attempts != []
    && Last(s.attempts).status.AttemptInterrupted? && Last(s.attempts).retryable
    && |s.attempts| < s.maxAttempts
  }

  function RecoverState(db: Db, s: Job, src: Source): (Db, Result<Job, RecoveryError>)
    requires ValidJob(s)
  {
    var (db', closed) := CloseLeftover(db, s, src.first);
    if closed.Ok? && !s.status.CancelRequested? && InterruptedWithRoom(closed.value) then
      ApplyStored(db', closed.value, BareEvent(closed.value, RetryRequested, src.second, None))
    else (db', closed)
  }

  /** Leaves evidence of a failure without running the task; `s` is pending or running. */
  function FailRecovery(db: Db, s: Job, src: Source): (Db, Result<Job, RecoveryError>)
    requires ValidJob(s)
  {
    if s.status.Running? then
      ApplyStored(db, s, FailureEvent(s, FinishedFailed, src.first, Last(s.attempts).attemptId,
                                      "recovery_required", false))
    else
      var (db', started) := ApplyStored(db, s, BareEvent(s, Started, src.first, Some(src.freshId)));
      if started.Ok? then
        ApplyStored(db', started.value,
                    FailureEvent(started.value, FinishedFailed, src.second, src.freshId,
                                 "recovery_required", false))
      else (db', started)
  }

  /** What is stored for a job whose save lost a race, if anything is. */
  function Reload(db: Db, s: Job): Result<Job, RecoveryError> {
    if s.jobId !in db.jobs then Ok(s)
    else match Load(db, s.jobId)
      case Ok(latest) => Ok(latest)
      case Err(error) => Err(Storage(error))
  }

  function Settle(db: Db, s: Job, r: Result<Job, RecoveryError>): Result<Job, RecoveryError> {
    if Conflict(r) then Reload(db, s) else r
  }

  function Recorded(r: Result<Job, RecoveryError>): Outcome {
    match r
    case Ok(state) => Recovered(state, false)
    case Err(error) => Aborted(error)
  }

  /** One round of the scan's loop, for a snapshot of a job not registered in this process. */
  function ScanOne(db: Db, s: Job, canRun: bool, src: Source): (Db, Outcome)
    requires ValidJob(s)
  {
    if s.status.CancelRequested? then
      var (db', r) := CloseLeftover(db, s, src.first);
      (db', Recorded(Settle(db', s, r)))
    else if !canRun then
      var (db', r) := FailRecovery(db, s, src);
      (db', Recorded(Settle(db', s, r)))
    else
      var (db', r) := RecoverState(db, s, src);
      if Conflict(r) then
        if s.jobId !in db'.jobs then (db', Skipped)
        else match Load(db', s.jobId)
          case Err(error) => (db', Aborted(Storage(error)))
          case Ok(latest) => (db', Recovered(latest, latest.status.Pending?))
      else match r
        case Err(error) => (db', Aborted(error))
        case Ok(state) => (db', Recovered(state, state.status.Pending?))
  }

  // ---------------------------------------------------------------- one job, undisturbed

  /** The later state is reached from the earlier one by at most two legal transitions. */
  ghost predicate ReachedLegally(s: Job, t: Job) {
    || s == t
    || (exists e :: StepsTo(s, e, t))
    || (exists e, mid, e' :: StepsTo(s, e, mid) && StepsTo(mid, e', t))
  }

  /** Job `id` now loads as `t`, and every other job as before. */
  ghost predicate OnlyMoved(db: Db, db': Db, id: Uuid, t: Job) {
    && Load(db', id) == Ok(t)
    && (forall other :: other != id ==> Load(db', other) == Load(db, other))
    && db'.jobs.Keys == db.jobs.Keys
  }

  /** A transition of the stored state itself is always saved, and touches no other job. */
  lemma StoredStepSaves(db: Db, s: Job, e: Event, t: Job)
    requires Load(db, s.jobId) == Ok(s) && ValidJob(s) && ApplyEvent(s, e) == Ok(t)
    ensures t.jobId == s.jobId && s.jobId in db.jobs
    ensures ApplyStored(db, s, e) == (Saved(db, t), Ok(t))
    ensures t.jobId in Saved(db, t).jobs
    ensures OnlyMoved(db, Saved(db, t), s.jobId, t) && ValidJob(t) && StepsTo(s, e, t)
  {
    SubmissionSucceeds(s, e);
    hide TransitionJob, StateFromRecords, Lifecycle;
    StoredRows(db, s.jobId, s);
    SaveOfSuccessor(db, s.jobId, s, s, t);
    SaveRoundTrips(db, s.revision, t);
  }

  /** Two such transitions in a row. */
  lemma StoredStepsSave(db: Db, s: Job, e: Event, t: Job, e': Event, u: Job)
    requires Load(db, s.jobId) == Ok(s) && ValidJob(s) && ApplyEvent(s, e) == Ok(t)
    requires ValidJob(t) && ApplyEvent(t, e') == Ok(u)
    ensures t.jobId == u.jobId == s.jobId && s.jobId in db.jobs && t.jobId in Saved(db, t).jobs
    ensures ApplyStored(db, s, e) == (Saved(db, t), Ok(t))
    ensures ApplyStored(Saved(db, t), t, e') == (Saved(Saved(db, t), u), Ok(u))
    ensures OnlyMoved(db, Saved(Saved(db, t), u), s.jobId, u)
    ensures ReachedLegally(s, u)
  {
    hide ApplyEvent, ApplyStored, Lifecycle, Load, Saved, StepsTo;
    StoredStepSaves(db, s, e, t);
    StoredStepSaves(Saved(db, t), t, e', u);
  }

  /** The latest attempt is closed this way, and nothing else of the attempts changes. */
  predicate ClosedAs(s: seq<Attempt>, t: seq<Attempt>, status: AttemptStatus, now: Time,
                     code: Option<string>, again: bool) {
    && s != [] && |t| == |s| && t[..|t| - 1] == s[..|s| - 1]
    && Last(t) == Last(s).(status := status, finishedAt := Some(now), errorCode := code,
                           retryable := again)
  }

  /** A started attempt that failed before its task ran. */
  predicate FailedUnrun(s: seq<Attempt>, t: seq<Attempt>, src: Source) {
    && |t| == |s| + 1 && t[..|s|] == s
    && var a := Last(t);
       && a.attemptId == src.freshId && a.status.AttemptFailed? && a.startedAt == src.first
       && a.finishedAt == Some(src.second) && a.errorCode == Some("recovery_required") && !a.retryable
  }

  /** What the recovered job says of the worker it lost, or of the task that is gone. */
  predicate Evidence(s: Job, canRun: bool, src: Source, t: Job) {
    if s.status.CancelRequested? then
      && ClosedAs(s.attempts, t.attempts, AttemptCancelled, src.first, None, false)
      && t.finishedAt == Some(src.first) && t.errorCode.None?
    else if s.status.Running? && canRun then
      && ClosedAs(s.attempts, t.attempts, AttemptInterrupted, src.first, Some("worker_interrupted"), true)
      && (t.status.Failed? ==> t.errorCode == Some("worker_interrupted") && t.finishedAt == Some(src.first))
      && (t.status.Pending? ==> t.errorCode.None? && t.finishedAt.None? && t.cancelRequestedAt.None?)
    else if s.status.Running? then
      && ClosedAs(s.attempts, t.attempts, AttemptFailed, src.first, Some("recovery_required"), false)
      && t.errorCode == Some("recovery_required") && t.finishedAt == Some(src.first)
    else if canRun then t == s
    else
      && FailedUnrun(s.attempts, t.attempts, src)
      && t.errorCode == Some("recovery_required") && t.finishedAt == Some(src.second)
  }

  lemma FinishClosesAs(s: Job, e: Event, t: Job)
    requires StepsTo(s, e, t) && Finishes(e.kind)
    ensures ClosedAs(s.attempts, t.attempts, Last(t.attempts).status, e.occurredAt, e.errorCode,
                     e.retryable == Some(true))
    ensures t.finishedAt == Some(e.occurredAt) && t.errorCode == e.errorCode
  {
    FinishEffect(s, e, t);
    hide Lifecycle;
  }

  lemma InterruptionAccepted(s: Job, now: Time) returns (t: Job)
    requires ValidJob(s) && s.status.Running? && Timely(s, now)
    ensures ApplyEvent(s, FailureEvent(s, FinishedInterrupted, now, Last(s.attempts).attemptId,
                                       "worker_interrupted", true)) == Ok(t)
    ensures t.status.Failed? && t.errorCode == Some("worker_interrupted")
    ensures InterruptedWithRoom(t) <==> |s.attempts| < s.maxAttempts
    ensures Timely(t, now) && ValidJob(t) && |t.attempts| == |s.attempts|
    ensures t.finishedAt == Some(now)
    ensures ClosedAs(s.attempts, t.attempts, AttemptInterrupted, now, Some("worker_interrupted"), true)
  {
    var e := FailureEvent(s, FinishedInterrupted, now, Last(s.attempts).attemptId,
                          "worker_interrupted", true);
    TransitionAcceptsExactly(s, e);
    t := ApplyEvent(s, e).value;
    FinishClosesAs(s, e, t);
  }

  lemma CancellationAccepted(s: Job, now: Time) returns (t: Job)
    requires ValidJob(s) && s.status.CancelRequested? && Timely(s, now)
    ensures ApplyEvent(s, BareEvent(s, FinishedCancelled, now, Some(Last(s.attempts).attemptId)))
         == Ok(t)
    ensures t.status.Cancelled? && t.errorCode.None? && t.finishedAt == Some(now)
    ensures ClosedAs(s.attempts, t.attempts, AttemptCancelled, now, None, false)
  {
    var e := BareEvent(s, FinishedCancelled, now, Some(Last(s.attempts).attemptId));
    TransitionAcceptsExactly(s, e);
    t := ApplyEvent(s, e).value;
    FinishClosesAs(s, e, t);
  }

  lemma RetryAccepted(s: Job, now: Time) returns (t: Job)
    requires ValidJob(s) && InterruptedWithRoom(s) && Timely(s, now)
    ensures ApplyEvent(s, BareEvent(s, RetryRequested, now, None)) == Ok(t)
    ensures t.status.Pending? && PendingLeavesRoom(t) && t.attempts == s.attempts
    ensures t.errorCode.None? && t.finishedAt.None? && t.cancelRequestedAt.None?
  {
    var e := BareEvent(s, RetryRequested, now, None);
    TransitionAcceptsExactly(s, e);
    t := ApplyEvent(s, e).value;
  }

  lemma FailureAccepted(s: Job, now: Time) returns (t: Job)
    requires ValidJob(s) && s.status.Running? && Timely(s, now)
    ensures ApplyEvent(s, FailureEvent(s, FinishedFailed, now, Last(s.attempts).attemptId,
                                       "recovery_required", false)) == Ok(t)
    ensures t.status.Failed? && t.errorCode == Some("recovery_required")
    ensures t.attempts != [] && !Last(t.attempts).retryable && |t.attempts| == |s.attempts|
    ensures t.finishedAt == Some(now)
    ensures ClosedAs(s.attempts, t.attempts, AttemptFailed, now, Some("recovery_required"), false)
  {
    var e := FailureEvent(s, FinishedFailed, now, Last(s.attempts).attemptId,
                          "recovery_required", false);
    TransitionAcceptsExactly(s, e);
    t := ApplyEvent(s, e).value;
    FinishClosesAs(s, e, t);
  }

  lemma StartAccepted(s: Job, now: Time, id: Uuid) returns (t: Job)
    requires ValidJob(s) && s.status.Pending? && PendingLeavesRoom(s) && Timely(s, now)
    requires forall i :: 0 <= i < |s.attempts| ==> s.attempts[i].attemptId != id
    ensures ApplyEvent(s, BareEvent(s, Started, now, Some(id))) == Ok(t)
    ensures t.status.Running? && ValidJob(t) && Timely(t, now) && t.attempts != [] && Last(t.attempts).attemptId == id
    ensures |t.attempts| == |s.attempts| + 1 && t.attempts[..|s.attempts|] == s.attempts
    ensures Last(t.attempts).startedAt == now
  {
    var e := BareEvent(s, Started, now, Some(id));
    TransitionAcceptsExactly(s, e);
    t := ApplyEvent(s, e).value;
    EventEffect(s, e, t);
    StartEffect(s, e, t);
  }

  /** The sources of one job's recovery: a clock not behind the job, and an unused identity. */
  predicate GoodSource(s: Job, src: Source) {
    && Timely(s, src.first) && src.first <= src.second
    && forall i :: 0 <= i < |s.attempts| ==> s.attempts[i].attemptId != src.freshId
  }

  /** Where a scan leaves a job. */
  function Destination(s: Job, canRun: bool): JobStatus {
    if s.status.CancelRequested? then Cancelled
    else if !canRun then Failed
    else if s.status.Pending? || |s.attempts| < s.maxAttempts then Pending
    else Failed
  }

  /** What recovering an undisturbed job comes to. */
  ghost predicate Converged(db: Db, s: Job, canRun: bool, db': Db, o: Outcome) {
    && o.Recovered? && o.state.status == Destination(s, canRun)
    && (o.enqueued <==> o.state.status.Pending?)
    && (s.status.Running? ==> |o.state.attempts| == |s.attempts|)
    && PendingLeavesRoom(o.state)
    && ReachedLegally(s, o.state)
    && OnlyMoved(db, db', s.jobId, o.state)
  }

  /**
    Recovering an undisturbed unfinished job never fails: legal transitions take it to its
    destination, the store agrees, no other job is touched, and it is queued exactly when pending.
   */
  lemma ScanOneConverges(db: Db, s: Job, canRun: bool, src: Source)
    requires Load(db, s.jobId) == Ok(s) && ValidJob(s) && !Terminal(s.status)
    requires PendingLeavesRoom(s) && GoodSource(s, src)
    ensures Converged(db, s, canRun, ScanOne(db, s, canRun, src).0, ScanOne(db, s, canRun, src).1)
    ensures Evidence(s, canRun, src, ScanOne(db, s, canRun, src).1.state)
  {
    hide ApplyEvent, ApplyStored, ValidJob, Load, StepsTo, Timely, Saved, OnlyMoved, ClosedAs,
      FailedUnrun;
    if s.status.CancelRequested? {
      RunningHasAttempt(s);
      var t := CancellationAccepted(s, src.first);
      StoredStepSaves(db, s, BareEvent(s, FinishedCancelled, src.first,
                                       Some(Last(s.attempts).attemptId)), t);
    } else if !canRun {
      FailRecoveryConverges(db, s, src);
    } else {
      RecoverConverges(db, s, src);
    }
  }

  lemma FailRecoveryConverges(db: Db, s: Job, src: Source)
    requires Load(db, s.jobId) == Ok(s) && ValidJob(s)
    requires s.status.Pending? || s.status.Running?
    requires PendingLeavesRoom(s) && GoodSource(s, src)
    ensures var (db', r) := FailRecovery(db, s, src);
            && r.Ok? && Converged(db, s, false, db', Recovered(r.value, false))
            && r.value.errorCode == Some("recovery_required")
            && r.value.attempts != [] && !Last(r.value.attempts).retryable
            && Evidence(s, false, src, r.value)
  {
    hide ApplyEvent, ApplyStored, ValidJob, Load, Saved, ReachedLegally, FailureEvent, BareEvent,
      Timely, PendingLeavesRoom, OnlyMoved, ClosedAs, FailedUnrun;
    if s.status.Running? {
      RunningHasAttempt(s);
      var t := FailRunning(db, s, src);
    } else {
      var t, u := StartThenFail(db, s, src);
      FailedLeavesRoom(u);
    }
  }

  lemma RunningHasAttempt(s: Job)
    requires ValidJob(s) && Active(s)
    ensures s.attempts != []
  {
  }

  lemma FailedLeavesRoom(s: Job)
    requires s.status.Failed?
    ensures PendingLeavesRoom(s)
  {
  }

  lemma FailRunning(db: Db, s: Job, src: Source) returns (t: Job)
    requires Load(db, s.jobId) == Ok(s) && ValidJob(s) && s.status.Running? && s.attempts != []
    requires GoodSource(s, src)
    ensures t.jobId == s.jobId && s.jobId in db.jobs && ReachedLegally(s, t)
    ensures ApplyStored(db, s, FailureEvent(s, FinishedFailed, src.first,
                                            Last(s.attempts).attemptId, "recovery_required", false))
         == (Saved(db, t), Ok(t))
    ensures t.status.Failed? && t.errorCode == Some("recovery_required") && PendingLeavesRoom(t)
    ensures t.attempts != [] && !Last(t.attempts).retryable && |t.attempts| == |s.attempts|
    ensures OnlyMoved(db, Saved(db, t), s.jobId, t) && t.finishedAt == Some(src.first)
    ensures ClosedAs(s.attempts, t.attempts, AttemptFailed, src.first, Some("recovery_required"), false)
  {
    hide ApplyEvent, ApplyStored, ValidJob, Load, Saved, StepsTo, FailureEvent, BareEvent, Timely;
    t := FailureAccepted(s, src.first);
    StoredStepSaves(db, s, FailureEvent(s, FinishedFailed, src.first, Last(s.attempts).attemptId,
                                        "recovery_required", false), t);
  }

  lemma StartThenFail(db: Db, s: Job, src: Source) returns (t: Job, u: Job)
    requires Load(db, s.jobId) == Ok(s) && ValidJob(s) && s.status.Pending?
    requires PendingLeavesRoom(s) && GoodSource(s, src)
    ensures ValidJob(t) && s.jobId in db.jobs && t.jobId == s.jobId && u.jobId in Saved(db, t).jobs
    ensures ApplyStored(db, s, BareEvent(s, Started, src.first, Some(src.freshId)))
         == (Saved(db, t), Ok(t))
    ensures ApplyStored(Saved(db, t), t,
                        FailureEvent(t, FinishedFailed, src.second, src.freshId,
                                     "recovery_required", false))
         == (Saved(Saved(db, t), u), Ok(u))
    ensures u.status.Failed? && u.errorCode == Some("recovery_required")
    ensures u.attempts != [] && !Last(u.attempts).retryable && ReachedLegally(s, u)
    ensures OnlyMoved(db, Saved(Saved(db, t), u), s.jobId, u)
    ensures FailedUnrun(s.attempts, u.attempts, src) && u.finishedAt == Some(src.second)
  {
    hide ApplyEvent, ApplyStored, Lifecycle, Load, Saved, ReachedLegally, FailureEvent, BareEvent;
    t := StartAccepted(s, src.first, src.freshId);
    assert Timely(t, src.second);
    u := FailureAccepted(t, src.second);
    StoredStepsSave(db, s, BareEvent(s, Started, src.first, Some(src.freshId)), t,
                    FailureEvent(t, FinishedFailed, src.second, src.freshId, "recovery_required",
                                 false), u);
  }

  lemma RecoverConverges(db: Db, s: Job, src: Source)
    requires Load(db, s.jobId) == Ok(s) && ValidJob(s)
    requires s.status.Pending? || s.status.Running?
    requires PendingLeavesRoom(s) && GoodSource(s, src)
    ensures var (db', r) := RecoverState(db, s, src);
            && r.Ok? && Converged(db, s, true, db', Recovered(r.value, r.value.status.Pending?))
            && Evidence(s, true, src, r.value)
  {
    hide ApplyEvent, ApplyStored, ValidJob, Load, Saved, StepsTo, FailureEvent, ClosedAs;
    if s.status.Running? {
      RecoverRunning(db, s, src);
    }
  }

  lemma RecoverRunning(db: Db, s: Job, src: Source)
    requires Load(db, s.jobId) == Ok(s) && ValidJob(s) && s.status.Running?
    requires GoodSource(s, src)
    ensures var (db', r) := RecoverState(db, s, src);
            && r.Ok? && Converged(db, s, true, db', Recovered(r.value, r.value.status.Pending?))
            && Evidence(s, true, src, r.value)
  {
    hide ApplyEvent, ApplyStored, ValidJob, Load, Saved, ReachedLegally, FailureEvent, BareEvent,
      Timely, PendingLeavesRoom, OnlyMoved, ClosedAs;
    RunningHasAttempt(s);
    var e, t := CloseRunning(db, s, src.first);
    assert CloseLeftover(db, s, src.first) == (Saved(db, t), Ok(t));
    if InterruptedWithRoom(t) {
      LaterIsTimely(t, src);
      RetryConverges(db, s, e, t, src.second);
    } else {
      FailedLeavesRoom(t);
    }
  }

  lemma LaterIsTimely(s: Job, src: Source)
    requires Timely(s, src.first) && src.first <= src.second
    ensures Timely(s, src.second)
  {
  }

  lemma CloseRunning(db: Db, s: Job, now: Time) returns (e: Event, t: Job)
    requires Load(db, s.jobId) == Ok(s) && ValidJob(s) && s.status.Running? && s.attempts != []
    requires Timely(s, now)
    ensures e == FailureEvent(s, FinishedInterrupted, now, Last(s.attempts).attemptId,
                              "worker_interrupted", true)
    ensures ApplyEvent(s, e) == Ok(t) && t.jobId == s.jobId && s.jobId in db.jobs
    ensures ApplyStored(db, s, e) == (Saved(db, t), Ok(t))
    ensures t.status.Failed? && Timely(t, now) && ValidJob(t) && |t.attempts| == |s.attempts|
    ensures InterruptedWithRoom(t) <==> |s.attempts| < s.maxAttempts
    ensures t.errorCode == Some("worker_interrupted") && t.finishedAt == Some(now)
    ensures ClosedAs(s.attempts, t.attempts, AttemptInterrupted, now, Some("worker_interrupted"), true)
    ensures ReachedLegally(s, t) && OnlyMoved(db, Saved(db, t), s.jobId, t)
  {
    hide ApplyEvent, ApplyStored, ValidJob, Load, Saved, StepsTo, FailureEvent, BareEvent, Timely,
      InterruptedWithRoom;
    t := InterruptionAccepted(s, now);
    e := FailureEvent(s, FinishedInterrupted, now, Last(s.attempts).attemptId,
                      "worker_interrupted", true);
    StoredStepSaves(db, s, e, t);
  }

  lemma RetryConverges(db: Db, s: Job, e: Event, t: Job, now: Time)
    requires Load(db, s.jobId) == Ok(s) && ValidJob(s) && ApplyEvent(s, e) == Ok(t)
    requires ValidJob(t) && InterruptedWithRoom(t) && Timely(t, now) && s.jobId in db.jobs
    requires t.jobId == s.jobId
    ensures var (db', r) := ApplyStored(Saved(db, t), t, BareEvent(t, RetryRequested, now, None));
            && r.Ok? && r.value.status.Pending? && PendingLeavesRoom(r.value)
            && r.value.attempts == t.attempts && r.value.errorCode.None?
            && r.value.finishedAt.None? && r.value.cancelRequestedAt.None?
            && ReachedLegally(s, r.value) && OnlyMoved(db, db', s.jobId, r.value)
  {
    hide ApplyEvent, ApplyStored, Lifecycle, Load, Saved, ReachedLegally, BareEvent, OnlyMoved;
    var u := RetryAccepted(t, now);
    StoredStepsSave(db, s, e, t, BareEvent(t, RetryRequested, now, None), u);
  }

  // ---------------------------------------------------------------- a whole scan

  /** A scan so far: the store, what it reported, what it queued, and an error that ended it. */
  datatype Scan = Scan(
    db: Db,
    reported: seq<Job>,
    enqueued: seq<Job>,
    aborted: Option<RecoveryError>)

  predicate Registered(known: set<Uuid>, enqueued: seq<Job>, id: Uuid) {
    id in known || exists i :: 0 <= i < |enqueued| && enqueued[i].jobId == id
  }

  function Round(scan: Scan, known: set<Uuid>, s: Job, canRun: bool, src: Source): Scan
    requires ValidJob(s)
  {
    if scan.aborted.Some? || Registered(known, scan.enqueued, s.jobId) then scan
    else
      var (db', o) := ScanOne(scan.db, s, canRun, src);
      match o
      case Skipped => scan.(db := db')
      case Aborted(error) => scan.(db := db', aborted := Some(error))
      case Recovered(state, enqueued) =>
        Scan(db', scan.reported + [state],
             if enqueued && !Registered(known, scan.enqueued, state.jobId)
             then scan.enqueued + [state] else scan.enqueued,
             None)
  }

  /** The scan after its first `n` snapshots; `known` are the jobs already in memory. */
  function ScanUpTo(db: Db, listed: seq<Job>, n: nat, known: set<Uuid>, canRun: Job -> bool,
                    srcs: nat -> Source): Scan
    requires n <= |listed| && forall i :: 0 <= i < |listed| ==> ValidJob(listed[i])
  {
    if n == 0 then Scan(db, [], [], None)
    else
      Round(ScanUpTo(db, listed, n - 1, known, canRun, srcs), known, listed[n - 1],
            canRun(listed[n - 1]), srcs(n - 1))
  }

  function Pendings(states: seq<Job>): seq<Job> {
    if states == [] then []
    else Pendings(states[..|states| - 1])
         + (if Last(states).status.Pending? then [Last(states)] else [])
  }

  /** What a restarted process can rely on before its scan. */
  ghost predicate Undisturbed(db: Db, listed: seq<Job>, known: set<Uuid>, srcs: nat -> Source) {
    && ListsUnfinished(db, listed)
    && (forall i :: 0 <= i < |listed| ==>
          && ValidJob(listed[i]) && PendingLeavesRoom(listed[i])
          && GoodSource(listed[i], srcs(i)) && listed[i].jobId !in known)
  }

  lemma Distinct(db: Db, listed: seq<Job>, i: nat, k: nat)
    requires ListsUnfinished(db, listed) && i < |listed| && k < |listed| && i != k
    ensures listed[i].jobId != listed[k].jobId
  {
    hide StateFromRecords;
    assert listed[i] in listed && listed[k] in listed;
    var a, b := if i < k then i else k, if i < k then k else i;
    assert Older(listed[a], listed[b]);
  }

  lemma {:induction false} PendingsAre(states: seq<Job>, id: Uuid)
    requires forall i :: 0 <= i < |states| ==> states[i].jobId != id
    ensures forall i :: 0 <= i < |Pendings(states)| ==> Pendings(states)[i].jobId != id
  {
    if states != [] {
      PendingsAre(states[..|states| - 1], id);
    }
  }

  lemma StateKeepsId(s: Job, t: Job)
    requires ReachedLegally(s, t)
    ensures t.jobId == s.jobId
  {
    hide TransitionJob, Lifecycle;
    if s != t && !(exists e :: StepsTo(s, e, t)) {
      var e, mid, e' :| StepsTo(s, e, mid) && StepsTo(mid, e', t);
      StepKeepsHistory(s, e, mid);
      StepKeepsHistory(mid, e', t);
    } else if s != t {
      var e :| StepsTo(s, e, t);
      StepKeepsHistory(s, e, t);
    }
  }

  /** How far an undisturbed scan has got after `n` snapshots. */
  ghost predicate ScanProgress(db: Db, listed: seq<Job>, n: nat, canRun: Job -> bool, scan: Scan)
    requires n <= |listed|
  {
    && scan.aborted.None? && |scan.reported| == n
    && scan.enqueued == Pendings(scan.reported)
    && scan.db.jobs.Keys == db.jobs.Keys
    && (forall i :: 0 <= i < n ==>
          && ReachedLegally(listed[i], scan.reported[i])
          && scan.reported[i].jobId == listed[i].jobId
          && scan.reported[i].status == Destination(listed[i], canRun(listed[i]))
          && PendingLeavesRoom(scan.reported[i])
          && Load(scan.db, listed[i].jobId) == Ok(scan.reported[i]))
    && (forall id :: (forall i :: 0 <= i < n ==> listed[i].jobId != id) ==>
          Load(scan.db, id) == Load(db, id))
  }

  /**
    One completed scan after a restart never fails: it takes every unfinished job to its
    destination by legal transitions, reports them in order, queues exactly the pending ones and
    leaves every other job as it was.
   */
  lemma {:induction false} ScanConverges(db: Db, listed: seq<Job>, n: nat, known: set<Uuid>,
                                         canRun: Job -> bool, srcs: nat -> Source)
    requires Undisturbed(db, listed, known, srcs) && n <= |listed|
    ensures ScanProgress(db, listed, n, canRun, ScanUpTo(db, listed, n, known, canRun, srcs))
  {
    hide Load, ValidJob, PendingLeavesRoom, GoodSource, ListsUnfinished, ScanProgress, Round;
    if n == 0 {
      ScanStarts(db, listed, canRun);
    } else {
      ScanConverges(db, listed, n - 1, known, canRun, srcs);
      var scan := ScanUpTo(db, listed, n - 1, known, canRun, srcs);
      RoundConverges(db, listed, n, known, canRun, srcs(n - 1), scan);
    }
  }

  lemma ScanStarts(db: Db, listed: seq<Job>, canRun: Job -> bool)
    ensures ScanProgress(db, listed, 0, canRun, Scan(db, [], [], None))
  {
    hide Load;
  }

  lemma ListedIsStored(db: Db, listed: seq<Job>, i: nat)
    requires ListsUnfinished(db, listed) && i < |listed|
    ensures Load(db, listed[i].jobId) == Ok(listed[i]) && !Terminal(listed[i].status)
  {
    hide Load;
    assert listed[i] in listed;
  }

  lemma RoundConverges(db: Db, listed: seq<Job>, n: nat, known: set<Uuid>, canRun: Job -> bool,
                       src: Source, scan: Scan)
    requires 0 < n <= |listed| && ListsUnfinished(db, listed)
    requires var s := listed[n - 1];
             && ValidJob(s) && PendingLeavesRoom(s) && GoodSource(s, src) && s.jobId !in known
    requires ScanProgress(db, listed, n - 1, canRun, scan)
    ensures ScanProgress(db, listed, n, canRun,
                         Round(scan, known, listed[n - 1], canRun(listed[n - 1]), src))
  {
    hide Load, ValidJob, ReachedLegally, ScanOne, GoodSource, Destination, ListsUnfinished,
      PendingLeavesRoom, OnlyMoved, Pendings;
    var s := listed[n - 1];
    forall i | 0 <= i < n - 1 ensures listed[i].jobId != s.jobId {
      Distinct(db, listed, i, n - 1);
    }
    PendingsAre(scan.reported, s.jobId);
    ListedIsStored(db, listed, n - 1);
    ScanOneConverges(scan.db, s, canRun(s), src);
    var (db', o) := ScanOne(scan.db, s, canRun(s), src);
    StateKeepsId(s, o.state);
    ProgressExtends(db, listed, n, canRun, scan, db', o);
  }

  /** The scan with one more job recovered. */
  function Extended(scan: Scan, db: Db, t: Job): Scan {
    Scan(db, scan.reported + [t],
         if t.status.Pending? then scan.enqueued + [t] else scan.enqueued, None)
  }

  lemma ProgressExtends(db: Db, listed: seq<Job>, n: nat, canRun: Job -> bool, scan: Scan,
                        db': Db, o: Outcome)
    requires 0 < n <= |listed| && ScanProgress(db, listed, n - 1, canRun, scan)
    requires forall i :: 0 <= i < n - 1 ==> listed[i].jobId != listed[n - 1].jobId
    requires Converged(scan.db, listed[n - 1], canRun(listed[n - 1]), db', o)
    requires o.state.jobId == listed[n - 1].jobId
    ensures ScanProgress(db, listed, n, canRun, Extended(scan, db', o.state))
  {
    hide Load, ReachedLegally, Destination, PendingLeavesRoom, Pendings;
    PendingsExtend(scan.reported, o.state);
  }

  lemma PendingsExtend(states: seq<Job>, t: Job)
    ensures Pendings(states + [t]) == Pendings(states) + (if t.status.Pending? then [t] else [])
  {
    assert (states + [t])[..|states|] == states;
  }

  /** After the scan no job anywhere in the store is still running or asked to cancel. */
  lemma NothingLeftActive(db: Db, listed: seq<Job>, known: set<Uuid>, canRun: Job -> bool,
                          srcs: nat -> Source, id: Uuid)
    requires Undisturbed(db, listed, known, srcs)
    ensures var db' := ScanUpTo(db, listed, |listed|, known, canRun, srcs).db;
            Load(db', id).Ok? ==> !Active(Load(db', id).value)
  {
    hide Lifecycle, ReachedLegally, ScanUpTo, Load, ListsUnfinished, GoodSource, ScanProgress;
    ScanConverges(db, listed, |listed|, known, canRun, srcs);
    NotActive(db, listed, canRun, ScanUpTo(db, listed, |listed|, known, canRun, srcs), id);
  }

  lemma NotActive(db: Db, listed: seq<Job>, canRun: Job -> bool, scan: Scan, id: Uuid)
    requires ListsUnfinished(db, listed)
    requires ScanProgress(db, listed, |listed|, canRun, scan)
    ensures Load(scan.db, id).Ok? ==> !Active(Load(scan.db, id).value)
  {
    hide Load, ReachedLegally, OldestFirst, PendingLeavesRoom, Pendings;
    if i :| 0 <= i < |listed| && listed[i].jobId == id {
      assert scan.reported[i].status == Destination(listed[i], canRun(listed[i]));
    } else if Load(scan.db, id).Ok? {
      assert Load(scan.db, id) == Load(db, id);
      StoredStatus(db, id);
    }
  }

  lemma StoredStatus(db: Db, id: Uuid)
    requires Load(db, id).Ok?
    ensures id in db.jobs && Load(db, id).value.status == db.jobs[id].status
  {
  }

  // ---------------------------------------------------------------- what a scan registers

  lemma NothingEnqueued(jobs: map<Uuid, Record>, index: map<string, Uuid>)
    ensures JobsWith(jobs, []) == jobs && IndexWith(index, []) == index && IdList([]) == []
  {
  }

  lemma {:induction false} IndexConcat(index: map<string, Uuid>, a: seq<Job>, b: seq<Job>)
    ensures IndexWith(index, a + b) == IndexWith(IndexWith(index, a), b)
    ensures IdList(a + b) == IdList(a) + IdList(b)
  {
    if b == [] {
      assert a + b == a;
    } else {
      IndexConcat(index, a, b[..|b| - 1]);
      assert (a + b)[..|a + b| - 1] == a + b[..|b| - 1];
    }
  }

  lemma ListedValid(db: Db, listed: seq<Job>)
    requires ListsUnfinished(db, listed)
    ensures forall i :: 0 <= i < |listed| ==> ValidJob(listed[i])
  {
    hide Lifecycle;
    forall i | 0 <= i < |listed| ensures ValidJob(listed[i]) {
      assert listed[i] in listed;
    }
  }

  function IdList(states: seq<Job>): seq<Uuid> {
    seq(|states|, i requires 0 <= i < |states| => states[i].jobId)
  }

  function JobsWith(jobs: map<Uuid, Record>, enqueued: seq<Job>): map<Uuid, Record> {
    if enqueued == [] then jobs
    else JobsWith(jobs, enqueued[..|enqueued| - 1])[Last(enqueued).jobId :=
                                                    Record(Last(enqueued), false)]
  }

  function IndexWith(index: map<string, Uuid>, enqueued: seq<Job>): map<string, Uuid> {
    if enqueued == [] then index
    else IndexWith(index, enqueued[..|enqueued| - 1])[Last(enqueued).idempotencyKey :=
                                                      Last(enqueued).jobId]
  }

  lemma EnqueuedExtend(jobs: map<Uuid, Record>, index: map<string, Uuid>, enqueued: seq<Job>, t: Job)
    ensures JobsWith(jobs, enqueued + [t]) == JobsWith(jobs, enqueued)[t.jobId := Record(t, false)]
    ensures IndexWith(index, enqueued + [t]) == IndexWith(index, enqueued)[t.idempotencyKey := t.jobId]
    ensures IdList(enqueued + [t]) == IdList(enqueued) + [t.jobId]
  {
    assert (enqueued + [t])[..|enqueued|] == enqueued;
  }

  lemma {:induction false} RegisteredIsKnown(jobs: map<Uuid, Record>, enqueued: seq<Job>, id: Uuid)
    ensures Registered(jobs.Keys, enqueued, id) <==> id in JobsWith(jobs, enqueued)
  {
    if enqueued != [] {
      RegisteredIsKnown(jobs, enqueued[..|enqueued| - 1], id);
      var n := |enqueued|;
      assert forall i :: 0 <= i < n - 1 ==> enqueued[..n - 1][i] == enqueued[i];
    }
  }

  lemma {:induction false} AbortStays(db: Db, listed: seq<Job>, i: nat, n: nat, known: set<Uuid>,
                                      canRun: Job -> bool, srcs: nat -> Source)
    requires i <= n <= |listed| && forall k :: 0 <= k < |listed| ==> ValidJob(listed[k])
    requires ScanUpTo(db, listed, i, known, canRun, srcs).aborted.Some?
    ensures ScanUpTo(db, listed, n, known, canRun, srcs)
         == ScanUpTo(db, listed, i, known, canRun, srcs)
    decreases n - i
  {
    hide ScanOne, Lifecycle;
    if i < n {
      AbortStays(db, listed, i, n - 1, known, canRun, srcs);
    }
  }

  // ---------------------------------------------------------------- crash and restart cycles

  /** How the stored state of one job moved: by a transition, or by a scan after a crash. */
  datatype Move = Stepped(event: Event) | Rescanned(canRun: bool, src: Source)

  ghost predicate Moves(s: Job, m: Move, t: Job) {
    match m
    case Stepped(e) => StepsTo(s, e, t)
    case Rescanned(canRun, src) =>
      && ValidJob(s) && !Terminal(s.status) && GoodSource(s, src)
      && exists db :: Load(db, s.jobId) == Ok(s) && ScanOne(db, s, canRun, src).1.Recovered?
                      && ScanOne(db, s, canRun, src).1.state == t
  }

  /** A life of one job: any transitions, with a crash and a restart scan anywhere between them. */
  ghost predicate Life(states: seq<Job>, moves: seq<Move>) {
    && |states| == |moves| + 1 && NewJob(states[0])
    && forall i :: 0 <= i < |moves| ==> Moves(states[i], moves[i], states[i + 1])
  }

  /**
    An attempt is closed as interrupted: by a scan that goes on to save a retry, or by one that
    dies in between and leaves the interruption behind as a single transition.
   */
  predicate Interrupts(s: Job, m: Move) {
    match m
    case Stepped(e) => e.kind.FinishedInterrupted?
    case Rescanned(canRun, _) => canRun && s.status.Running?
  }

  ghost function Interruptions(states: seq<Job>, moves: seq<Move>): nat
    requires |states| == |moves| + 1
  {
    if moves == [] then 0
    else
      var n := |moves|;
      Interruptions(states[..n], moves[..n - 1])
      + (if Interrupts(states[n - 1], moves[n - 1]) then 1 else 0)
  }

  function ClosedAttempts(s: Job): int {
    |s.attempts| - (if Active(s) then 1 else 0)
  }

  lemma StepCloses(s: Job, e: Event, t: Job)
    requires StepsTo(s, e, t)
    ensures ClosedAttempts(s) + (if Finishes(e.kind) then 1 else 0) <= ClosedAttempts(t)
    ensures t.maxAttempts == s.maxAttempts && ValidJob(t)
    ensures PendingLeavesRoom(s) ==> PendingLeavesRoom(t)
  {
    EventEffect(s, e, t);
    hide TransitionJob, Lifecycle;
    assert |t.attempts| == |AttemptIds(t.attempts)| && |s.attempts| == |AttemptIds(s.attempts)|;
  }

  lemma MoveCloses(s: Job, m: Move, t: Job)
    requires Moves(s, m, t) && PendingLeavesRoom(s)
    ensures ClosedAttempts(s) + (if Interrupts(s, m) then 1 else 0) <= ClosedAttempts(t)
    ensures t.maxAttempts == s.maxAttempts && ValidJob(t) && PendingLeavesRoom(t)
  {
    hide TransitionJob, Lifecycle, ScanOne, Load, GoodSource, AttemptIds;
    match m
    case Stepped(e) => StepCloses(s, e, t);
    case Rescanned(canRun, src) =>
      var db :| Load(db, s.jobId) == Ok(s) && ScanOne(db, s, canRun, src).1.Recovered?
                && ScanOne(db, s, canRun, src).1.state == t;
      ScanOneConverges(db, s, canRun, src);
      if s != t {
        if e :| StepsTo(s, e, t) {
          StepCloses(s, e, t);
        } else {
          var e, mid, e' :| StepsTo(s, e, mid) && StepsTo(mid, e', t);
          StepCloses(s, e, mid);
          StepCloses(mid, e', t);
        }
      }
  }

  lemma ValidBounds(s: Job)
    requires ValidJob(s)
    ensures 0 <= ClosedAttempts(s) <= s.maxAttempts && 1 <= s.maxAttempts
  {
  }

  /**
    However many crashes and restarts a job goes through, every state it is stored in can be
    recovered, and it is interrupted at most `maxAttempts` times.
   */
  lemma {:induction false} InterruptionsBounded(states: seq<Job>, moves: seq<Move>)
    requires Life(states, moves)
    ensures Interruptions(states, moves) <= ClosedAttempts(Last(states)) <= states[0].maxAttempts
    ensures Last(states).maxAttempts == states[0].maxAttempts
    ensures ValidJob(Last(states)) && PendingLeavesRoom(Last(states))
  {
    if moves == [] {
      ValidBounds(states[0]);
    } else {
      hide Moves, Lifecycle, Life;
      var n := |moves|;
      LifePrefix(states, moves);
      InterruptionsBounded(states[..n], moves[..n - 1]);
      MoveCloses(states[n - 1], moves[n - 1], states[n]);
      ValidBounds(states[n]);
    }
  }

  lemma LifePrefix(states: seq<Job>, moves: seq<Move>)
    requires Life(states, moves) && moves != []
    ensures Life(states[..|moves|], moves[..|moves| - 1])
    ensures Moves(states[|moves| - 1], Last(moves), Last(states))
  {
    hide Moves, NewJob;
  }
}
