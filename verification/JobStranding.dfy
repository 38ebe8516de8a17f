/**
  The cancellation flag of a record is never cleared, so a retry of a job that was once asked to
  cancel starts its next attempt with the flag already set. This module shows where that leads.
 */
module JobStranding {
  import opened Common
  import opened JobSystem
  import opened JobRuns
  import opened JobRunner
  import opened JobScheduling

  // ---------------------------------------------------------------- single steps

  lemma Submitted(r: Runner, q: Request, now: Time) returns (s: Job)
    requires Sound(r) && r.clock == now && !r.closed && q.idempotencyKey !in r.index
    requires Candidate(q, r.nextId, now).Ok?
    ensures Enabled(r, Submit(q), now) && Do(r, Submit(q), now) == Enrolled(r, s)
    ensures s == Candidate(q, r.nextId, now).value && s.jobId == r.nextId
    ensures Sound(Do(r, Submit(q), now))
  {
    assert Enabled(r, Submit(q), now);
    hide Sound, Registrable;
    s := Candidate(q, r.nextId, now).value;
    StepKeepsSound(r, Submit(q), now);
  }

  lemma Starting(s: Job, now: Time, id: Uuid) returns (t: Job)
    requires ValidJob(s) && s.status.Pending? && PendingLeavesRoom(s)
    requires Timely(s, now) && IdsBelow(s, id)
    ensures ApplyEvent(s, BareEvent(s, Started, now, Some(id))) == Ok(t)
    ensures t.status.Running? && t.maxAttempts == s.maxAttempts
    ensures |t.attempts| == |s.attempts| + 1
  {
    PendingStarts(s, now, id);
    hide ApplyEvent;
    t := ApplyEvent(s, BareEvent(s, Started, now, Some(id))).value;
    EventEffect(s, BareEvent(s, Started, now, Some(id)), t);
    assert |t.attempts| == |AttemptIds(t.attempts)| && |s.attempts| == |AttemptIds(s.attempts)|;
  }

  lemma Began(r: Runner, now: Time) returns (t: Job)
    requires Sound(r) && r.clock == now && r.worker.Idle? && r.queue != []
    requires r.queue[0] in r.jobs && r.jobs[r.queue[0]].state.status.Pending?
    ensures Enabled(r, BeginTask, now)
    ensures Do(r, BeginTask, now) == Begun(r, t) && t.status.Running?
    ensures t.maxAttempts == r.jobs[r.queue[0]].state.maxAttempts
    ensures |t.attempts| == |r.jobs[r.queue[0]].state.attempts| + 1
    ensures Sound(Do(r, BeginTask, now))
  {
    hide ApplyEvent, ValidJob, IndexInverse, QueueSound, PendingQueued, BodiesMatch, WorkerSound;
    assert r.(clock := now) == r;
    t := Starting(r.jobs[r.queue[0]].state, now, r.nextId);
    StepKeepsSound(r, BeginTask, now);
  }

  lemma CancelAsked(r: Runner, id: Uuid, now: Time) returns (t: Job)
    requires Sound(r) && r.clock == now && id in r.jobs && r.jobs[id].state.status.Running?
    ensures Enabled(r, Cancel(id), now)
    ensures Do(r, Cancel(id), now) == r.(jobs := r.jobs[id := Record(t, true)])
    ensures t.status.CancelRequested? && t.maxAttempts == r.jobs[id].state.maxAttempts
    ensures |t.attempts| == |r.jobs[id].state.attempts|
    ensures Sound(Do(r, Cancel(id), now))
  {
    hide ApplyEvent, ValidJob, IndexInverse, QueueSound, PendingQueued, WorkerSound, BodiesMatch,
      IdsBelow, PendingLeavesRoom;
    assert r.(clock := now) == r;
    t := Cancelling(r.jobs[id].state, now);
    StepKeepsSound(r, Cancel(id), now);
  }

  lemma Cancelling(s: Job, now: Time) returns (t: Job)
    requires ValidJob(s) && Timely(s, now) && s.status.Running?
    ensures ApplyEvent(s, BareEvent(s, CancellationRequested, now, None)) == Ok(t)
    ensures t.status.CancelRequested? && t.maxAttempts == s.maxAttempts
    ensures |t.attempts| == |s.attempts|
  {
    var e := BareEvent(s, CancellationRequested, now, None);
    TransitionAcceptsExactly(s, e);
    hide TransitionJob, ValidJob, StepsTo;
    t := ApplyEvent(s, e).value;
    EventEffect(s, e, t);
    assert |t.attempts| == |AttemptIds(t.attempts)| && |s.attempts| == |AttemptIds(s.attempts)|;
  }

  lemma FailedAgain(r: Runner, code: string, now: Time) returns (t: Job)
    requires Sound(r) && r.clock == now && r.worker.Busy?
    ensures var id := r.worker.jobId;
            && id in r.jobs
            && Enabled(r, EndTask(RaisedError(code, true)), now)
            && Do(r, EndTask(RaisedError(code, true)), now)
               == r.(worker := Idle, jobs := r.jobs[id := r.jobs[id].(state := t)])
            && t.status.Failed? && t.maxAttempts == r.jobs[id].state.maxAttempts
            && |t.attempts| == |r.jobs[id].state.attempts| && t.attempts != []
            && Last(t.attempts).retryable
    ensures Sound(Do(r, EndTask(RaisedError(code, true)), now))
  {
    hide ApplyEvent, ValidJob, IndexInverse, QueueSound, PendingQueued, BodiesMatch, Timely,
      IdsBelow, PendingLeavesRoom;
    var end := RaisedError(code, true);
    EndRefusedExactly(r, end, now);
    StepKeepsSound(r, EndTask(end), now);
    t := Failing(r.jobs[r.worker.jobId].state, code, now, r.worker.attemptId);
  }

  lemma Failing(s: Job, code: string, now: Time, attemptId: Uuid) returns (t: Job)
    requires ValidJob(s)
    requires ApplyEvent(s, EndEvent(s, RaisedError(code, true), now, attemptId)).Ok?
    ensures ApplyEvent(s, EndEvent(s, RaisedError(code, true), now, attemptId)) == Ok(t)
    ensures t.status.Failed? && t.maxAttempts == s.maxAttempts
    ensures |t.attempts| == |s.attempts| && t.attempts != [] && Last(t.attempts).retryable
  {
    hide ApplyEvent, ValidJob, StepsTo, PendingLeavesRoom;
    var e := EndEvent(s, RaisedError(code, true), now, attemptId);
    t := ApplyEvent(s, e).value;
    FailureIsRetryable(s, e, t);
    EventEffect(s, e, t);
    assert |t.attempts| == |AttemptIds(t.attempts)| && |s.attempts| == |AttemptIds(s.attempts)|;
  }

  lemma FailureIsRetryable(s: Job, e: Event, t: Job)
    requires ValidJob(s) && ApplyEvent(s, e) == Ok(t) && e.kind.FinishedFailed?
    ensures t.attempts != [] && Last(t.attempts).retryable == (e.retryable == Some(true))
  {
    hide Lifecycle;
  }

  lemma Retried(r: Runner, id: Uuid, now: Time) returns (t: Job)
    requires Sound(r) && r.clock <= now && !r.closed && id in r.jobs
    requires r.jobs[id].state.status.Failed? && r.jobs[id].state.attempts != []
    requires Last(r.jobs[id].state.attempts).retryable
    requires |r.jobs[id].state.attempts| < r.jobs[id].state.maxAttempts
    ensures Enabled(r, Retry(id), now)
    ensures Do(r, Retry(id), now)
         == r.(clock := now, jobs := r.jobs[id := r.jobs[id].(state := t)], queue := r.queue + [id])
    ensures t.status.Pending?
    ensures Sound(Do(r, Retry(id), now))
  {
    hide ApplyEvent, ValidJob, IndexInverse, QueueSound, PendingQueued, WorkerSound, BodiesMatch,
      IdsBelow, PendingLeavesRoom;
    t := Retrying(r.jobs[id].state, r.clock, now);
    StepKeepsSound(r, Retry(id), now);
  }

  lemma Retrying(s: Job, clock: Time, now: Time) returns (t: Job)
    requires ValidJob(s) && Timely(s, clock) && clock <= now
    requires s.status.Failed? && s.attempts != [] && Last(s.attempts).retryable
    requires |s.attempts| < s.maxAttempts
    ensures ApplyEvent(s, BareEvent(s, RetryRequested, now, None)) == Ok(t) && t.status.Pending?
  {
    var e := BareEvent(s, RetryRequested, now, None);
    TransitionAcceptsExactly(s, e);
    hide TransitionJob, Lifecycle, StepsTo, ValidJob;
    t := ApplyEvent(s, e).value;
    EventEffect(s, e, t);
  }

  // ---------------------------------------------------------------- what can go wrong

  /** The steps only the worker takes: it begins a queue entry, or a task body ends. */
  predicate WorkerStep(op: Op) {
    op.BeginTask? || op.EndTask?
  }

  /** These worker steps can follow one another from `r`, all at the instant `now`. */
  predicate CanPlay(r: Runner, ops: seq<Op>, now: Time)
    decreases |ops|
  {
    ops == []
    || (WorkerStep(ops[0]) && Enabled(r, ops[0], now) && CanPlay(Do(r, ops[0], now), ops[1..], now))
  }

  function Played(r: Runner, ops: seq<Op>, now: Time): Runner
    requires CanPlay(r, ops, now)
    decreases |ops|
  {
    if ops == [] then r else Played(Do(r, ops[0], now), ops[1..], now)
  }

  /** The worker is idle, and the job it last left is still running: its finish was refused. */
  predicate Stranded(r: Runner, id: Uuid) {
    r.worker.Idle? && id in r.stuck && id in r.jobs && r.jobs[id].state.status.Running?
  }

  predicate Strands(r: Runner, ops: seq<Op>, id: Uuid, now: Time) {
    CanPlay(r, ops, now) && Stranded(Played(r, ops, now), id)
  }

  /** A pending job with its flag set has its entry somewhere in the queue. */
  ghost predicate WaitsFlagged(r: Runner, id: Uuid, now: Time) {
    && Sound(r) && r.clock == now
    && id in r.jobs && r.jobs[id].state.status.Pending? && r.jobs[id].cancelSet
    && id in r.queue
  }

  lemma PlayFirst(r: Runner, op: Op, ops: seq<Op>, id: Uuid, now: Time)
    requires WorkerStep(op) && Enabled(r, op, now) && Strands(Do(r, op, now), ops, id, now)
    ensures Strands(r, [op] + ops, id, now)
  {
    hide Do, Enabled, Stranded, WorkerStep;
    assert ([op] + ops)[1..] == ops;
  }

  /** The body that is running returns, and the flagged job goes on waiting. */
  lemma BodyReturns(r: Runner, id: Uuid, now: Time)
    requires WaitsFlagged(r, id, now) && r.worker.Busy?
    ensures Enabled(r, EndTask(Returned), now)
    ensures var r' := Do(r, EndTask(Returned), now);
            WaitsFlagged(r', id, now) && r'.worker.Idle? && r'.queue == r.queue
  {
    hide ApplyEvent, EndEvent, ValidJob, IndexInverse, QueueSound, PendingQueued, BodiesMatch,
      Timely, IdsBelow, PendingLeavesRoom;
    assert r.(clock := now) == r;
    EndRefusedExactly(r, Returned, now);
    StepKeepsSound(r, EndTask(Returned), now);
  }

  /** Another entry at the head of the queue is taken, and the flagged job moves up. */
  lemma EntryBegins(r: Runner, id: Uuid, now: Time)
    requires WaitsFlagged(r, id, now) && r.worker.Idle? && r.queue[0] != id
    ensures Enabled(r, BeginTask, now)
    ensures var r' := Do(r, BeginTask, now);
            WaitsFlagged(r', id, now) && r'.queue == r.queue[1..]
  {
    hide ApplyEvent, ValidJob, IndexInverse, QueueSound, PendingQueued, BodiesMatch, WorkerSound,
      Timely, IdsBelow, PendingLeavesRoom;
    assert r.(clock := now) == r;
    StepKeepsSound(r, BeginTask, now);
    var i :| 0 <= i < |r.queue| && r.queue[i] == id;
    assert r.queue[1..][i - 1] == id;
  }

  /** The flagged job's own entry begins, its task sees the flag, and its finish is refused. */
  lemma FlaggedBegins(r: Runner, id: Uuid, now: Time)
    requires WaitsFlagged(r, id, now) && r.worker.Idle? && r.queue[0] == id
    ensures Strands(r, [BeginTask, EndTask(RaisedCancelled)], id, now)
  {
    hide ApplyEvent, ValidJob, Do, IndexInverse, QueueSound, PendingQueued, BodiesMatch, IdsBelow,
      Timely, PendingLeavesRoom, Enabled;
    var t := Began(r, now);
    var r' := Do(r, BeginTask, now);
    var cancelled := EndTask(RaisedCancelled);
    RefusalStrands(r', now);
    PlayFirst(r', cancelled, [], id, now);
    assert [cancelled] + [] == [cancelled];
    PlayFirst(r, BeginTask, [cancelled], id, now);
    assert [BeginTask] + [cancelled] == [BeginTask, cancelled];
  }

  lemma {:induction false} WaitingCanStrand(r: Runner, id: Uuid, now: Time) returns (ops: seq<Op>)
    requires WaitsFlagged(r, id, now)
    ensures Strands(r, ops, id, now)
    decreases |r.queue|, r.worker.Busy?
  {
    hide Sound, Do, Enabled, Strands;
    if r.worker.Busy? {
      BodyReturns(r, id, now);
      var rest := WaitingCanStrand(Do(r, EndTask(Returned), now), id, now);
      PlayFirst(r, EndTask(Returned), rest, id, now);
      ops := [EndTask(Returned)] + rest;
    } else if r.queue[0] != id {
      EntryBegins(r, id, now);
      var rest := WaitingCanStrand(Do(r, BeginTask, now), id, now);
      PlayFirst(r, BeginTask, rest, id, now);
      ops := [BeginTask] + rest;
    } else {
      FlaggedBegins(r, id, now);
      ops := [BeginTask, EndTask(RaisedCancelled)];
    }
  }

  /**
    Whenever the runner accepts a retry of a record whose flag is set, whatever is running or
    queued by then, the worker can go on to a state where it is idle and the job still running:
    its task was told of a cancellation nobody asked for since, and its finish was refused.
   */
  lemma FlaggedRetryCanStrand(r: Runner, id: Uuid, now: Time) returns (ops: seq<Op>)
    requires Sound(r) && r.clock <= now && Retryable(r, id) && r.jobs[id].cancelSet
    ensures Enabled(r, Retry(id), now) && Strands(Do(r, Retry(id), now), ops, id, now)
  {
    hide Sound, Do, Enabled, Strands;
    var t := Retried(r, id, now);
    ops := WaitingCanStrand(Do(r, Retry(id), now), id, now);
  }

  /** From a state whose flags are spent, worker steps strand nothing. */
  lemma {:induction false} PlayKeepsFlags(r: Runner, ops: seq<Op>, now: Time)
    requires Sound(r) && FlagsSpent(r) && CanPlay(r, ops, now)
    ensures Played(r, ops, now).stuck == {}
    decreases |ops|
  {
    hide Sound, Do, Enabled;
    if ops != [] {
      StepKeepsFlags(r, ops[0], now);
      StepKeepsSound(r, ops[0], now);
      PlayKeepsFlags(Do(r, ops[0], now), ops[1..], now);
    }
  }

  /**
    In a history without accepted retries of flagged records so far, a retry can strand its job
    exactly when it is accepted and finds the flag set.
   */
  lemma RetryStrandsExactly(r: Runner, id: Uuid, now: Time)
    requires Sound(r) && FlagsSpent(r) && Enabled(r, Retry(id), now)
    ensures (exists ops :: Strands(Do(r, Retry(id), now), ops, id, now))
            <==> Retryable(r, id) && r.jobs[id].cancelSet
  {
    hide Sound, FlagsSpent, Do, CanPlay, Played;
    if Retryable(r, id) && r.jobs[id].cancelSet {
      var ops := FlaggedRetryCanStrand(r, id, now);
    } else {
      StepKeepsFlags(r, Retry(id), now);
      StepKeepsSound(r, Retry(id), now);
      forall ops | CanPlay(Do(r, Retry(id), now), ops, now)
        ensures !Strands(Do(r, Retry(id), now), ops, id, now)
      {
        PlayKeepsFlags(Do(r, Retry(id), now), ops, now);
      }
    }
  }

  lemma RefusalStrands(r: Runner, now: Time)
    requires Sound(r) && r.clock == now && r.worker.Busy? && r.worker.jobId in r.jobs
    requires r.jobs[r.worker.jobId].cancelSet && r.jobs[r.worker.jobId].state.status.Running?
    ensures Enabled(r, EndTask(RaisedCancelled), now)
    ensures Do(r, EndTask(RaisedCancelled), now)
         == r.(worker := Idle, stuck := r.stuck + {r.worker.jobId})
  {
    hide ApplyEvent, ValidJob, IndexInverse, QueueSound, PendingQueued, BodiesMatch, Timely,
      IdsBelow, PendingLeavesRoom;
    assert r.(clock := now) == r;
    EndRefusedExactly(r, RaisedCancelled, now);
  }

  lemma StuckGrows(r: Runner, op: Op, now: Time)
    requires Enabled(r, op, now)
    ensures r.stuck <= Do(r, op, now).stuck
  {
    hide ApplyEvent, Candidate, ValidJob;
  }

  /** A stranded job stays active in every later state: nothing can finish it any more. */
  lemma {:induction false} StrandedForever(
    rs: seq<Runner>, ops: seq<Op>, times: seq<Time>, i: nat, k: nat)
    requires IsExecution(rs, ops, times) && i <= k < |rs|
    ensures rs[i].stuck <= rs[k].stuck
    ensures forall id :: id in rs[i].stuck ==> id in rs[k].jobs && Active(rs[k].jobs[id].state)
    decreases k - i
  {
    hide ApplyEvent, ValidJob, Do, Enabled, IndexInverse, QueueSound, PendingQueued, BodiesMatch;
    if i < k {
      StrandedForever(rs, ops, times, i, k - 1);
      StuckGrows(rs[k - 1], ops[k - 1], times[k - 1]);
    }
    HistoriesSound(rs, ops, times, k);
  }

  const SAMPLE := Request(WorkspaceScan, "v1", 1, Payload(1, false), "key", 2)

  lemma ExecutionExtends(rs: seq<Runner>, ops: seq<Op>, times: seq<Time>, op: Op, now: Time)
    requires IsExecution(rs, ops, times) && Enabled(Last(rs), op, now)
    ensures IsExecution(rs + [Do(Last(rs), op, now)], ops + [op], times + [now])
  {
    hide Do, Enabled;
    var rs', ops', times' := rs + [Do(Last(rs), op, now)], ops + [op], times + [now];
    assert rs'[0] == rs[0];
    forall i | 0 <= i < |ops'|
      ensures Enabled(rs'[i], ops'[i], times'[i]) && rs'[i + 1] == Do(rs'[i], ops'[i], times'[i])
    {
      if i < |ops| {
        assert rs[i + 1] == Do(rs[i], ops[i], times[i]);
      }
    }
  }

  lemma EnrolledFirst(s: Job, r: Runner)
    requires r == Enrolled(NewRunner(0), s) && s.jobId == 0
    ensures r.queue == [0] && r.jobs == map[0 := Record(s, false)] && r.clock == 0
    ensures r.worker.Idle? && !r.closed
  {
  }

  lemma SampleStarts()
    ensures IsExecution([NewRunner(0)], [], [])
    ensures Candidate(SAMPLE, 0, 0).Ok?
    ensures var s := Candidate(SAMPLE, 0, 0).value;
            s.maxAttempts == 2 && s.attempts == [] && s.status.Pending? && s.jobId == 0
  {
  }

  /** Such a state is reachable: submit, start, cancel, and a failure that may be retried. */
  lemma LeftoverFlagReachable() returns (rs: seq<Runner>, ops: seq<Op>, times: seq<Time>)
    ensures IsExecution(rs, ops, times)
    ensures var r := Last(rs);
            r.worker.Idle? && r.queue == [] && Retryable(r, 0) && r.jobs[0].cancelSet
  {
    hide ApplyEvent, Candidate, ValidJob, Sound, Do, Enabled, IsExecution, Enrolled;
    var r0 := NewRunner(0);
    NewRunnerSound(0);
    SampleStarts();
    rs, ops, times := [r0], [], [];
    var s := Submitted(r0, SAMPLE, 0);
    var r1 := Do(r0, Submit(SAMPLE), 0);
    EnrolledFirst(s, r1);
    ExecutionExtends(rs, ops, times, Submit(SAMPLE), 0);
    rs, ops, times := rs + [r1], ops + [Submit(SAMPLE)], times + [0];
    var t := Began(r1, 0);
    var r2 := Do(r1, BeginTask, 0);
    ExecutionExtends(rs, ops, times, BeginTask, 0);
    rs, ops, times := rs + [r2], ops + [BeginTask], times + [0];
    var u := CancelAsked(r2, 0, 0);
    var r3 := Do(r2, Cancel(0), 0);
    ExecutionExtends(rs, ops, times, Cancel(0), 0);
    rs, ops, times := rs + [r3], ops + [Cancel(0)], times + [0];
    var end := EndTask(RaisedError("job_task_failed", true));
    var v := FailedAgain(r3, "job_task_failed", 0);
    ExecutionExtends(rs, ops, times, end, 0);
    rs, ops, times := rs + [Do(r3, end, 0)], ops + [end], times + [0];
  }
}
