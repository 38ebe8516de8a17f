/** What every run of the job state machine keeps, from a new job to any later state. */
module JobRuns {
  import opened Common
  import opened JobSystem

  ghost predicate StepsTo(s: Job, e: Event, t: Job) {
    ValidJob(s) && ValidEvent(e) && TransitionJob(s, e) == Ok(t)
  }

  /** `events[i]` takes `states[i]` to `states[i + 1]`. */
  ghost predicate IsRun(states: seq<Job>, events: seq<Event>) {
    && |states| == |events| + 1
    && ValidJob(states[0])
    && (forall i :: 0 <= i < |events| ==> StepsTo(states[i], events[i], states[i + 1]))
  }

  predicate NewJob(s: Job) {
    ValidJob(s) && s.status.Pending? && s.revision == 0 && s.attempts == []
  }

  lemma RunPrefix(states: seq<Job>, events: seq<Event>)
    requires IsRun(states, events) && events != []
    ensures IsRun(states[..|events|], events[..|events| - 1])
    ensures StepsTo(states[|events| - 1], Last(events), Last(states))
  {
  }

  lemma RunExtends(states: seq<Job>, events: seq<Event>, e: Event, t: Job)
    requires IsRun(states, events) && StepsTo(Last(states), e, t)
    ensures IsRun(states + [t], events + [e])
  {
    var states', events' := states + [t], events + [e];
    forall i | 0 <= i < |events'| ensures StepsTo(states'[i], events'[i], states'[i + 1]) {
      if i < |events| {
        assert StepsTo(states[i], events[i], states[i + 1]);
      }
    }
  }

  lemma RunStatesValid(states: seq<Job>, events: seq<Event>, i: nat)
    requires IsRun(states, events) && i < |states|
    ensures ValidJob(states[i])
  {
    if 0 < i {
      assert StepsTo(states[i - 1], events[i - 1], states[i]);
      TransitionAcceptsExactly(states[i - 1], events[i - 1]);
    }
  }

  // ---------------------------------------------------------------- attempt history

  /** How one attempt record may change: identity fixed, closed records frozen, progress forward. */
  predicate Evolves(a: Attempt, b: Attempt) {
    && a.attemptId == b.attemptId && a.jobId == b.jobId
    && a.attemptNo == b.attemptNo && a.startedAt == b.startedAt
    && (!a.status.AttemptRunning? ==> a == b)
    && a.progress.completed <= b.progress.completed
    && (a.progress.total.Some? ==> b.progress.total == a.progress.total)
  }

  predicate HistoryEvolves(s: seq<Attempt>, t: seq<Attempt>) {
    |s| <= |t| && forall i :: 0 <= i < |s| ==> Evolves(s[i], t[i])
  }

  /** The fields no event may change. */
  predicate SameDefinition(s: Job, t: Job) {
    && s.jobId == t.jobId && s.kind == t.kind && s.taskVersion == t.taskVersion
    && s.workspaceId == t.workspaceId && s.payload == t.payload
    && s.payloadHash == t.payloadHash && s.idempotencyKey == t.idempotencyKey
    && s.maxAttempts == t.maxAttempts && s.createdAt == t.createdAt
  }

  lemma StepKeepsHistory(s: Job, e: Event, t: Job)
    requires StepsTo(s, e, t)
    ensures HistoryEvolves(s.attempts, t.attempts) && |t.attempts| <= |s.attempts| + 1
    ensures SameDefinition(s, t) && t.revision == s.revision + 1
  {
    hide ValidAttempts, ValidProgress;
    if e.kind.ProgressReported? || Finishes(e.kind) {
      assert s.attempts != [] && Last(s.attempts).status.AttemptRunning?;
      assert t.attempts == ReplaceLatest(s, Last(t.attempts));
    }
  }

  /** The records of `s` and `t` outside the attempts: when asked to cancel, when over, with what error. */
  predicate SameEnd(s: Job, t: Job) {
    t.cancelRequestedAt == s.cancelRequestedAt && t.finishedAt == s.finishedAt && t.errorCode == s.errorCode
  }

  /** All attempts but the latest are the same. */
  predicate OnlyLatestDiffers(s: Job, t: Job) {
    s.attempts != [] && |t.attempts| == |s.attempts|
    && t.attempts[..|t.attempts| - 1] == s.attempts[..|s.attempts| - 1]
  }

  /** Starting adds one attempt, without progress, and changes nothing else of the history. */
  lemma StartEffect(s: Job, e: Event, t: Job)
    requires StepsTo(s, e, t) && e.kind.Started?
    ensures t.status.Running? && SameEnd(s, t)
    ensures |t.attempts| == |s.attempts| + 1 && t.attempts[..|s.attempts|] == s.attempts
    ensures var a := Last(t.attempts);
            && a.attemptId == e.attemptId.value && a.attemptNo == |t.attempts| && a.jobId == s.jobId
            && a.status.AttemptRunning? && a.startedAt == e.occurredAt && a.progress == INITIAL_PROGRESS
  {
    hide Lifecycle;
  }

  /** A report changes the latest attempt's progress to what it says; a known total stays. */
  lemma ReportEffect(s: Job, e: Event, t: Job)
    requires StepsTo(s, e, t) && e.kind.ProgressReported?
    ensures t.status == s.status && SameEnd(s, t) && OnlyLatestDiffers(s, t)
    ensures var known := Last(s.attempts).progress.total;
            Last(t.attempts) == Last(s.attempts).(
              progress := Progress(e.completedUnits.value, if known.Some? then known else e.totalUnits,
                                   e.phaseCode.value))
  {
    assert s.attempts != [];
    hide Lifecycle;
  }

  /** Asking to cancel dates the first request only, and ends just a job that has not started. */
  lemma CancelEffect(s: Job, e: Event, t: Job)
    requires StepsTo(s, e, t) && e.kind.CancellationRequested?
    ensures t.attempts == s.attempts && t.errorCode == s.errorCode
    ensures t.status == if s.status.Pending? then Cancelled else CancelRequested
    ensures t.cancelRequestedAt
            == if s.status.CancelRequested? then s.cancelRequestedAt else Some(e.occurredAt)
    ensures t.finishedAt == if s.status.Pending? then Some(e.occurredAt) else s.finishedAt
  {
    hide Lifecycle;
  }

  /** Finishing closes job and latest attempt together, with the same instant and error. */
  lemma FinishEffect(s: Job, e: Event, t: Job)
    requires StepsTo(s, e, t) && Finishes(e.kind)
    ensures OnlyLatestDiffers(s, t) && t.cancelRequestedAt == s.cancelRequestedAt
    ensures t.finishedAt == Some(e.occurredAt) == Last(t.attempts).finishedAt
    ensures t.errorCode == e.errorCode == Last(t.attempts).errorCode
    ensures Last(t.attempts).retryable <==> e.retryable == Some(true)
    ensures Last(t.attempts).progress == Last(s.attempts).progress
    ensures match e.kind
            case FinishedOk => t.status.Succeeded? && Last(t.attempts).status.AttemptSucceeded?
            case FinishedCancelled => t.status.Cancelled? && Last(t.attempts).status.AttemptCancelled?
            case FinishedInterrupted => t.status.Failed? && Last(t.attempts).status.AttemptInterrupted?
            case _ => t.status.Failed? && Last(t.attempts).status.AttemptFailed?
  {
    assert s.attempts != [];
    hide Lifecycle;
  }

  /** A retry waits again like a new job, its history kept. */
  lemma RetryEffect(s: Job, e: Event, t: Job)
    requires StepsTo(s, e, t) && e.kind.RetryRequested?
    ensures t.status.Pending? && t.attempts == s.attempts
    ensures t.cancelRequestedAt.None? && t.finishedAt.None? && t.errorCode.None?
  {
    hide Lifecycle;
  }

  /**
    Between any two states of a run the attempt list only grows, a closed attempt never changes,
    progress within an attempt never falls, a known total stays, the definition is constant and
    the revision counts the events applied.
   */
  lemma {:induction false} RunKeepsHistory(states: seq<Job>, events: seq<Event>, i: nat, k: nat)
    requires IsRun(states, events) && i <= k < |states|
    ensures HistoryEvolves(states[i].attempts, states[k].attempts)
    ensures SameDefinition(states[i], states[k])
    ensures states[k].revision == states[i].revision + (k - i)
    decreases k - i
  {
    if i < k {
      RunKeepsHistory(states, events, i, k - 1);
      assert StepsTo(states[k - 1], events[k - 1], states[k]);
      StepKeepsHistory(states[k - 1], events[k - 1], states[k]);
    }
  }

  // ---------------------------------------------------------------- pending leaves room

  predicate PendingLeavesRoom(s: Job) {
    s.status.Pending? ==> |s.attempts| < s.maxAttempts
  }

  /** The validator alone allows a pending job with no attempt left; no run ever reaches one. */
  lemma {:induction false} PendingAlwaysLeavesRoom(states: seq<Job>, events: seq<Event>, i: nat)
    requires IsRun(states, events) && NewJob(states[0]) && i < |states|
    ensures PendingLeavesRoom(states[i])
  {
    if 0 < i {
      PendingAlwaysLeavesRoom(states, events, i - 1);
      assert StepsTo(states[i - 1], events[i - 1], states[i]);
    }
  }

  // ---------------------------------------------------------------- counting attempts

  function CountStatus(attempts: seq<Attempt>, status: AttemptStatus): nat {
    if attempts == [] then 0
    else CountStatus(attempts[..|attempts| - 1], status)
         + (if Last(attempts).status == status then 1 else 0)
  }

  function CountKind(events: seq<Event>, kind: EventKind): nat {
    if events == [] then 0
    else CountKind(events[..|events| - 1], kind) + (if Last(events).kind == kind then 1 else 0)
  }

  lemma {:induction false} CountStatusBound(attempts: seq<Attempt>, status: AttemptStatus)
    ensures CountStatus(attempts, status) <= |attempts|
  {
    if attempts != [] {
      CountStatusBound(attempts[..|attempts| - 1], status);
    }
  }

  lemma CountAppend(attempts: seq<Attempt>, a: Attempt, status: AttemptStatus)
    ensures CountStatus(attempts + [a], status)
         == CountStatus(attempts, status) + (if a.status == status then 1 else 0)
  {
    assert (attempts + [a])[..|attempts|] == attempts;
  }

  /** Replacing the newest attempt moves one unit between outcomes. */
  lemma CountReplaced(s: Job, a: Attempt, status: AttemptStatus)
    requires s.attempts != []
    ensures CountStatus(ReplaceLatest(s, a), status)
         == CountStatus(s.attempts, status)
            - (if Last(s.attempts).status == status then 1 else 0)
            + (if a.status == status then 1 else 0)
  {
    CountAppend(s.attempts[..|s.attempts| - 1], a, status);
  }

  /** Which list of attempts an accepted event leaves. */
  lemma AttemptsAfter(s: Job, e: Event, t: Job)
    requires StepsTo(s, e, t)
    ensures e.kind.Started? ==> t.attempts == s.attempts + [Last(t.attempts)]
                                && Last(t.attempts).status.AttemptRunning?
    ensures e.kind.ProgressReported? || Finishes(e.kind) ==>
              && s.attempts != [] && t.attempts == ReplaceLatest(s, Last(t.attempts))
              && Last(s.attempts).status.AttemptRunning?
              && Last(t.attempts).status ==
                 (if e.kind.ProgressReported? then AttemptRunning else Outcome(e.kind).0)
    ensures e.kind.CancellationRequested? || e.kind.RetryRequested? ==> t.attempts == s.attempts
  {
  }

  lemma StepCounts(s: Job, e: Event, t: Job, kind: EventKind)
    requires StepsTo(s, e, t) && Finishes(kind)
    ensures CountStatus(t.attempts, Outcome(kind).0)
         == CountStatus(s.attempts, Outcome(kind).0) + (if e.kind == kind then 1 else 0)
    ensures |t.attempts| == |s.attempts| + (if e.kind.Started? then 1 else 0)
  {
    AttemptsAfter(s, e, t);
    if e.kind.Started? {
      CountAppend(s.attempts, Last(t.attempts), Outcome(kind).0);
    } else if e.kind.ProgressReported? || Finishes(e.kind) {
      CountReplaced(s, Last(t.attempts), Outcome(kind).0);
    }
  }

  /**
    Started events and attempts correspond one to one, and so do finish events of each kind and
    attempts closed with its outcome; in particular a job is interrupted at most `maxAttempts`
    times however often its worker is lost.
   */
  lemma {:induction false} EventsMatchAttempts(states: seq<Job>, events: seq<Event>, kind: EventKind)
    requires IsRun(states, events) && NewJob(states[0]) && Finishes(kind)
    ensures CountKind(events, kind) == CountStatus(Last(states).attempts, Outcome(kind).0)
    ensures CountKind(events, Started) == |Last(states).attempts|
    ensures CountKind(events, kind) <= states[0].maxAttempts
  {
    if events != [] {
      RunPrefix(states, events);
      var n := |events|;
      EventsMatchAttempts(states[..n], events[..n - 1], kind);
      StepCounts(states[n - 1], Last(events), Last(states), kind);
    }
    RunKeepsHistory(states, events, 0, |events|);
    RunStatesValid(states, events, |events|);
    CountStatusBound(Last(states).attempts, Outcome(kind).0);
  }

  // ---------------------------------------------------------------- how long a run can be

  /** Every event except progress reports and cancellation requests repeated while one is open. */
  predicate Counts(s: Job, e: Event) {
    && !e.kind.ProgressReported?
    && !(e.kind.CancellationRequested? && s.status.CancelRequested?)
  }

  ghost function CountedEvents(states: seq<Job>, events: seq<Event>): nat
    requires |states| == |events| + 1
  {
    if events == [] then 0
    else
      var n := |events|;
      CountedEvents(states[..n], events[..n - 1])
      + (if Counts(states[n - 1], events[n - 1]) then 1 else 0)
  }

  /** The most counted events that can still follow. */
  function Budget(s: Job): int {
    var unused := s.maxAttempts - |s.attempts|;
    match s.status
    case Pending => 4 * unused - 1
    case Running => 4 * unused + 2
    case CancelRequested => 4 * unused + 1
    case Failed => 4 * unused
    case _ => 0
  }

  lemma StepSpendsBudget(s: Job, e: Event, t: Job)
    requires StepsTo(s, e, t)
    ensures Budget(t) <= Budget(s) - (if Counts(s, e) then 1 else 0)
  {
  }

  lemma {:induction false} RunSpendsBudget(states: seq<Job>, events: seq<Event>)
    requires IsRun(states, events)
    ensures CountedEvents(states, events) + Budget(Last(states)) <= Budget(states[0])
  {
    if events != [] {
      var n := |events|;
      RunPrefix(states, events);
      RunSpendsBudget(states[..n], events[..n - 1]);
      StepSpendsBudget(states[n - 1], events[n - 1], Last(states));
    }
  }

  /** At most `4 * maxAttempts - 1` counted events can ever happen to a job. */
  lemma RunsAreBounded(states: seq<Job>, events: seq<Event>)
    requires IsRun(states, events) && NewJob(states[0])
    ensures CountedEvents(states, events) <= 4 * states[0].maxAttempts - 1
  {
    RunSpendsBudget(states, events);
    RunStatesValid(states, events, |events|);
    PendingAlwaysLeavesRoom(states, events, |events|);
  }

  lemma CountExtends(states: seq<Job>, events: seq<Event>, e: Event, t: Job)
    requires IsRun(states, events)
    ensures CountedEvents(states + [t], events + [e])
         == CountedEvents(states, events) + (if Counts(Last(states), e) then 1 else 0)
  {
    var n := |events|;
    assert (states + [t])[..n + 1] == states && (events + [e])[..n] == events;
  }

  function Bare(s: Job, kind: EventKind, attemptId: Option<Uuid>): Event {
    Event(s.jobId, s.revision + 1, kind,
          if s.attempts == [] then s.createdAt else Last(s.attempts).startedAt,
          attemptId, None, None, None,
          if kind.FinishedFailed? then Some("job_task_failed") else None,
          if kind.FinishedFailed? then Some(true) else None)
  }

  /** Appends one event to a run and counts it. */
  lemma Append(states: seq<Job>, events: seq<Event>, e: Event)
    returns (states': seq<Job>, events': seq<Event>)
    requires IsRun(states, events) && ValidEvent(e) && Counts(Last(states), e)
    requires ValidJob(Last(states)) && TransitionJob(Last(states), e).Ok?
    ensures IsRun(states', events') && states'[0] == states[0]
    ensures Last(states') == TransitionJob(Last(states), e).value && ValidJob(Last(states'))
    ensures CountedEvents(states', events') == CountedEvents(states, events) + 1
  {
    var t := TransitionJob(Last(states), e).value;
    states', events' := states + [t], events + [e];
    RunExtends(states, events, e, t);
    CountExtends(states, events, e, t);
    TransitionAcceptsExactly(Last(states), e);
  }

  /** Attempt identities taken so far are below the attempt count. */
  predicate IdsBelowCount(s: Job) {
    forall i :: 0 <= i < |s.attempts| ==> s.attempts[i].attemptId < |s.attempts|
  }

  /** The job can take one more of the events that spend an attempt. */
  predicate CanSpend(s: Job, kind: EventKind) {
    || (kind.Started? && s.status.Pending? && |s.attempts| < s.maxAttempts)
    || (kind.CancellationRequested? && s.status.Running?)
    || (kind.FinishedFailed? && s.status.CancelRequested?)
    || (kind.RetryRequested? && s.status.Failed? && s.attempts != [] && Last(s.attempts).retryable
        && |s.attempts| < s.maxAttempts)
  }

  ghost predicate Spent(s: Job, kind: EventKind, t: Job) {
    && SameDefinition(s, t)
    && |t.attempts| == |s.attempts| + (if kind.Started? then 1 else 0)
    && (kind.Started? ==> t.status.Running?)
    && (kind.CancellationRequested? ==> t.status.CancelRequested?)
    && (kind.FinishedFailed? ==>
          t.status.Failed? && t.attempts != [] && Last(t.attempts).retryable)
    && (kind.RetryRequested? ==> t.status.Pending?)
  }

  lemma SpendingEvent(s: Job, kind: EventKind) returns (e: Event)
    requires ValidJob(s) && IdsBelowCount(s) && CanSpend(s, kind)
    ensures e.kind == kind && ValidEvent(e) && Counts(s, e) && TransitionJob(s, e).Ok?
    ensures kind.Started? ==> e.attemptId == Some(|s.attempts|)
    ensures kind.FinishedFailed? ==> e.retryable == Some(true)
  {
    e := Bare(s, kind, if kind.Started? then Some(|s.attempts|)
                       else if kind.FinishedFailed? then Some(Last(s.attempts).attemptId)
                       else None);
    TransitionAcceptsExactly(s, e);
  }

  lemma SpendingEffect(s: Job, e: Event, t: Job)
    requires StepsTo(s, e, t) && CanSpend(s, e.kind) && IdsBelowCount(s)
    requires e.kind.Started? ==> e.attemptId == Some(|s.attempts|)
    requires e.kind.FinishedFailed? ==> e.retryable == Some(true)
    ensures Spent(s, e.kind, t) && IdsBelowCount(t)
  {
    StepKeepsHistory(s, e, t);
    AttemptsAfter(s, e, t);
  }

  /** Like `Append`, for one of the events that spend an attempt. */
  lemma Spend(states: seq<Job>, events: seq<Event>, kind: EventKind)
    returns (states': seq<Job>, events': seq<Event>)
    requires IsRun(states, events) && ValidJob(Last(states)) && IdsBelowCount(Last(states))
    requires CanSpend(Last(states), kind)
    ensures IsRun(states', events') && states'[0] == states[0]
    ensures ValidJob(Last(states')) && IdsBelowCount(Last(states'))
    ensures CountedEvents(states', events') == CountedEvents(states, events) + 1
    ensures Spent(Last(states), kind, Last(states'))
  {
    hide TransitionJob, ValidJob, CountedEvents, Counts, ValidEvent, IdsBelowCount, CanSpend;
    var e := SpendingEvent(Last(states), kind);
    states', events' := Append(states, events, e);
    SpendingEffect(Last(states), e, Last(states'));
  }

  lemma {:induction false} SpendAll(states: seq<Job>, events: seq<Event>)
    returns (states': seq<Job>, events': seq<Event>)
    requires IsRun(states, events) && ValidJob(Last(states)) && Last(states).status.Pending?
    requires |Last(states).attempts| < Last(states).maxAttempts && IdsBelowCount(Last(states))
    ensures IsRun(states', events') && states'[0] == states[0]
    ensures CountedEvents(states', events')
         == CountedEvents(states, events) + Budget(Last(states))
    decreases Last(states).maxAttempts - |Last(states).attempts|
  {
    states', events' := Spend(states, events, Started);
    states', events' := Spend(states', events', CancellationRequested);
    states', events' := Spend(states', events', FinishedFailed);
    if |Last(states').attempts| < Last(states').maxAttempts {
      states', events' := Spend(states', events', RetryRequested);
      states', events' := SpendAll(states', events');
    }
  }

  /** The bound is exact: every new job has a run with `4 * maxAttempts - 1` counted events. */
  lemma BoundIsReached(job: Job) returns (states: seq<Job>, events: seq<Event>)
    requires NewJob(job)
    ensures IsRun(states, events) && states[0] == job
    ensures CountedEvents(states, events) == 4 * job.maxAttempts - 1
  {
    states, events := SpendAll([job], []);
  }
}
