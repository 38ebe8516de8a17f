/**
  Recovery of the stores that writers can really leave behind: a restart scan is itself a sequence
  of writer calls, so every store it starts from or leaves holds one legal run per job.
 */
module JobRestarts {
  import opened Common
  import opened JobSystem
  import opened JobRuns
  import opened JobStore
  import opened JobWriters
  import opened JobRunner
  import opened JobRecovery

  // ---------------------------------------------------------------- stores that can be reached

  /** Everything a consistent store holds loads, is valid, and can be started if it waits. */
  lemma StoredIsRecoverable(sys: System, id: Uuid)
    requires Consistent(sys) && id in sys.db.jobs
    ensures Load(sys.db, id).Ok?
    ensures var s := Load(sys.db, id).value;
            ValidJob(s) && PendingLeavesRoom(s) && s.jobId == id && Held(sys, s)
  {
    hide Load, ValidJob, PendingLeavesRoom, Constraints;
    var h := sys.histories[id];
    assert GoodHistory(sys.db, id, h);
    RunStatesValid(h.states, h.events, |h.events|);
    PendingAlwaysLeavesRoom(h.states, h.events, |h.events|);
    SnapshotAgainstCurrent(sys.db, id, h, |h.states| - 1);
  }

  /** The job was stored in this state at some time. */
  ghost predicate Held(sys: System, s: Job) {
    s.jobId in sys.histories && s in sys.histories[s.jobId].states
  }

  /** Nothing that was ever stored is forgotten. */
  ghost predicate Remembers(sys: System, sys': System) {
    forall s :: Held(sys, s) ==> Held(sys', s)
  }

  // ---------------------------------------------------------------- a scan is a list of calls

  lemma {:induction false} ExecuteJoins(sys: System, a: seq<Call>, b: seq<Call>)
    ensures Execute(sys, a + b) == Execute(Execute(sys, a), b)
  {
    if b == [] {
      assert a + b == a;
    } else {
      ExecuteJoins(sys, a, b[..|b| - 1]);
      assert (a + b)[..|a + b| - 1] == a + b[..|b| - 1];
    }
  }

  lemma ExecuteOne(sys: System, call: Call)
    ensures Execute(sys, [call]) == Step(sys, call)
  {
    assert Execute(sys, [call][..0]) == sys;
  }

  /** The calls take the system to one that stores `db` and is again consistent. */
  ghost predicate Performs(sys: System, calls: seq<Call>, db: Db) {
    var sys' := Execute(sys, calls);
    sys'.db == db && Consistent(sys') && Remembers(sys, sys')
  }

  lemma PerformsNothing(sys: System)
    requires Consistent(sys)
    ensures Performs(sys, [], sys.db)
  {
  }

  lemma PerformsBoth(sys: System, a: seq<Call>, db: Db, b: seq<Call>, db': Db)
    requires Performs(sys, a, db) && Performs(Execute(sys, a), b, db')
    ensures Performs(sys, a + b, db')
  {
    hide Consistent, Execute, Held;
    ExecuteJoins(sys, a, b);
  }

  lemma AppliedRemembers(sys: System, id: Uuid, e: Event, db: Db, r: Result<Job, StoreError>)
    requires id in sys.histories && (r.Ok? ==> r.value.jobId == id)
    ensures Remembers(sys, Answered(sys, id, e, db, r))
    ensures r.Ok? ==> Held(Answered(sys, id, e, db, r), r.value)
  {
  }

  lemma HeldAt(sys: System, s: Job) returns (k: nat)
    requires Held(sys, s)
    ensures s.jobId in sys.histories && k < |sys.histories[s.jobId].states|
    ensures sys.histories[s.jobId].states[k] == s
  {
    k :| 0 <= k < |sys.histories[s.jobId].states| && sys.histories[s.jobId].states[k] == s;
  }

  lemma RevisionIsPlace(sys: System, s: Job)
    requires Consistent(sys) && Held(sys, s)
    ensures s.jobId in sys.histories && 0 <= s.revision < |sys.histories[s.jobId].states|
    ensures sys.histories[s.jobId].states[s.revision] == s
  {
    hide Load, IsRun, NewJob, Constraints;
    var k := HeldAt(sys, s);
    assert GoodHistory(sys.db, s.jobId, sys.histories[s.jobId]);
    SnapshotAgainstCurrent(sys.db, s.jobId, sys.histories[s.jobId], k);
  }

  lemma SaveIsStep(sys: System, s: Job, e: Event)
    requires Consistent(sys) && Held(sys, s) && ValidJob(s) && 0 <= s.revision
    ensures var sys' := Step(sys, Apply(s.jobId, s.revision, e));
            var (db', r) := ApplyStored(sys.db, s, e);
            && sys'.db == db' && Consistent(sys') && Remembers(sys, sys')
            && (r.Ok? ==> Held(sys', r.value))
  {
    hide Consistent, ValidJob, TransitionJob, SaveResult, ValidEvent, Held, Remembers;
    RevisionIsPlace(sys, s);
    var id := s.jobId;
    if Submits(sys, id, s.revision, e) {
      ApplyKeepsConsistent(sys, id, s.revision, e);
      SaveSucceedsIffCurrent(sys, id, s.revision, e);
      var (db', r) := SaveCall(sys, id, s.revision, e);
      AppliedRemembers(sys, id, e, db', r);
    } else {
      RemembersItself(sys);
    }
  }

  lemma RemembersItself(sys: System)
    ensures Remembers(sys, sys)
  {
  }

  /** Saving one event over a state the job was once stored in is one call of a writer. */
  lemma StoredIsCall(sys: System, s: Job, e: Event) returns (calls: seq<Call>)
    requires Consistent(sys) && Held(sys, s) && ValidJob(s)
    ensures var (db', r) := ApplyStored(sys.db, s, e);
            Performs(sys, calls, db') && (r.Ok? ==> Held(Execute(sys, calls), r.value))
  {
    hide Consistent, ValidJob, ApplyStored, Held, Remembers, Step;
    RevisionIsPlace(sys, s);
    calls := [Apply(s.jobId, s.revision, e)];
    ExecuteOne(sys, calls[0]);
    SaveIsStep(sys, s, e);
  }

  lemma CloseIsCalls(sys: System, s: Job, now: Time) returns (calls: seq<Call>)
    requires Consistent(sys) && Held(sys, s) && ValidJob(s)
    ensures var (db', r) := CloseLeftover(sys.db, s, now);
            Performs(sys, calls, db') && (r.Ok? ==> Held(Execute(sys, calls), r.value))
  {
    hide Consistent, ApplyStored, Performs, Held, FailureEvent, BareEvent, ValidJob;
    if s.status.Running? {
      RunningHasAttempt(s);
      calls := StoredIsCall(sys, s, FailureEvent(s, FinishedInterrupted, now,
                                                 Last(s.attempts).attemptId, "worker_interrupted",
                                                 true));
    } else if s.status.CancelRequested? {
      RunningHasAttempt(s);
      calls := StoredIsCall(sys, s, BareEvent(s, FinishedCancelled, now,
                                              Some(Last(s.attempts).attemptId)));
    } else {
      calls := [];
      PerformsNothing(sys);
      NothingExecuted(sys);
    }
  }

  lemma NothingExecuted(sys: System)
    ensures Execute(sys, []) == sys
  {
  }

  lemma PerformedIsConsistent(sys: System, calls: seq<Call>, db: Db)
    requires Performs(sys, calls, db)
    ensures Consistent(Execute(sys, calls)) && Execute(sys, calls).db == db
  {
    hide Consistent, Execute, Remembers;
  }

  lemma RecoverIsCalls(sys: System, s: Job, src: Source) returns (calls: seq<Call>)
    requires Consistent(sys) && Held(sys, s) && ValidJob(s)
    ensures Performs(sys, calls, RecoverState(sys.db, s, src).0)
  {
    hide Consistent, ApplyStored, CloseLeftover, Performs, Held, BareEvent, ValidJob, Execute,
      InterruptedWithRoom;
    calls := CloseIsCalls(sys, s, src.first);
    var (db', r) := CloseLeftover(sys.db, s, src.first);
    PerformedIsConsistent(sys, calls, db');
    if r.Ok? && !s.status.CancelRequested? && InterruptedWithRoom(r.value) {
      var e := BareEvent(r.value, RetryRequested, src.second, None);
      var more := StoredIsCall(Execute(sys, calls), r.value, e);
      PerformsBoth(sys, calls, db', more, ApplyStored(db', r.value, e).0);
      calls := calls + more;
    }
  }

  lemma FailIsCalls(sys: System, s: Job, src: Source) returns (calls: seq<Call>)
    requires Consistent(sys) && Held(sys, s) && ValidJob(s)
    ensures Performs(sys, calls, FailRecovery(sys.db, s, src).0)
  {
    hide Consistent, ApplyStored, Performs, Held, BareEvent, FailureEvent, ValidJob, Execute;
    if s.status.Running? {
      RunningHasAttempt(s);
      calls := StoredIsCall(sys, s, FailureEvent(s, FinishedFailed, src.first,
                                                 Last(s.attempts).attemptId, "recovery_required",
                                                 false));
    } else {
      var e := BareEvent(s, Started, src.first, Some(src.freshId));
      calls := StoredIsCall(sys, s, e);
      var (db', r) := ApplyStored(sys.db, s, e);
      PerformedIsConsistent(sys, calls, db');
      if r.Ok? {
        var e' := FailureEvent(r.value, FinishedFailed, src.second, src.freshId,
                               "recovery_required", false);
        var more := StoredIsCall(Execute(sys, calls), r.value, e');
        PerformsBoth(sys, calls, db', more, ApplyStored(db', r.value, e').0);
        calls := calls + more;
      }
    }
  }

  lemma ScanOneIsCalls(sys: System, s: Job, canRun: bool, src: Source) returns (calls: seq<Call>)
    requires Consistent(sys) && Held(sys, s) && ValidJob(s)
    ensures Performs(sys, calls, ScanOne(sys.db, s, canRun, src).0)
  {
    hide Consistent, Performs, Held, ValidJob, Execute, CloseLeftover, RecoverState, FailRecovery,
      Load, Settle, Conflict;
    if s.status.CancelRequested? {
      calls := CloseIsCalls(sys, s, src.first);
    } else if !canRun {
      calls := FailIsCalls(sys, s, src);
    } else {
      calls := RecoverIsCalls(sys, s, src);
    }
  }

  /**
    However far a scan gets, and whatever it finds stored meanwhile, it does to the store what some
    list of writer calls does: a scan that dies half-way leaves a consistent store as well.
   */
  lemma {:induction false} ScanIsCalls(
    sys: System, listed: seq<Job>, n: nat, known: set<Uuid>, canRun: Job -> bool, srcs: nat -> Source)
    returns (calls: seq<Call>)
    requires Consistent(sys) && n <= |listed|
    requires forall i :: 0 <= i < |listed| ==> ValidJob(listed[i]) && Held(sys, listed[i])
    ensures Performs(sys, calls, ScanUpTo(sys.db, listed, n, known, canRun, srcs).db)
  {
    hide Consistent, Held, ValidJob, Execute, ScanOne, Registered;
    if n == 0 {
      calls := [];
      PerformsNothing(sys);
    } else {
      var before := ScanUpTo(sys.db, listed, n - 1, known, canRun, srcs);
      var s := listed[n - 1];
      calls := ScanIsCalls(sys, listed, n - 1, known, canRun, srcs);
      if before.aborted.None? && !Registered(known, before.enqueued, s.jobId) {
        var more := ScanOneIsCalls(Execute(sys, calls), s, canRun(s), srcs(n - 1));
        PerformsBoth(sys, calls, before.db, more,
                     ScanOne(before.db, s, canRun(s), srcs(n - 1)).0);
        calls := calls + more;
      }
    }
  }

  // ---------------------------------------------------------------- a scan, save by save

  /** What a scan works on: the snapshots it read first, and what it meets on the way. */
  datatype ScanTask = ScanTask(listed: seq<Job>, known: set<Uuid>, canRun: Job -> bool,
                               srcs: nat -> Source)

  /** Where the scan stands with one snapshot. */
  datatype Stage =
    | Fresh                    // nothing done yet
    | Retrying(held: Job)      // its attempt is closed, the retry is still to be saved
    | Failing(held: Job)       // an attempt is started, its failure still to be saved
    | Reloading                // a save lost a race; the job is still to be read again

  datatype Scanner = Scanner(
    n: nat, stage: Stage, reported: seq<Job>, enqueued: seq<Job>, aborted: Option<RecoveryError>)

  const START := Scanner(0, Fresh, [], [], None)

  predicate Over(task: ScanTask, sc: Scanner) {
    sc.aborted.Some? || |task.listed| <= sc.n
  }

  /** The snapshots are valid unfinished jobs, and so is what the scan holds. */
  predicate Ready(task: ScanTask, sc: Scanner) {
    && (forall i :: 0 <= i < |task.listed| ==>
          ValidJob(task.listed[i]) && !Terminal(task.listed[i].status))
    && (sc.stage.Retrying? || sc.stage.Failing? ==> ValidJob(sc.stage.held))
  }

  /** The one save the scan's next step makes, if it makes any: an event over a held state. */
  function NextSave(task: ScanTask, sc: Scanner): Option<(Job, Event)>
    requires Ready(task, sc) && !Over(task, sc)
  {
    var s, src := task.listed[sc.n], task.srcs(sc.n);
    match sc.stage
    case Reloading => None
    case Retrying(t) => Some((t, BareEvent(t, RetryRequested, src.second, None)))
    case Failing(t) => Some((t, FailureEvent(t, FinishedFailed, src.second, src.freshId,
                                             "recovery_required", false)))
    case Fresh =>
      if Registered(task.known, sc.enqueued, s.jobId) then None
      else if s.status.CancelRequested? then
        Some((s, BareEvent(s, FinishedCancelled, src.first, Some(Last(s.attempts).attemptId))))
      else if s.status.Running? then
        Some((s, if task.canRun(s)
                 then FailureEvent(s, FinishedInterrupted, src.first, Last(s.attempts).attemptId,
                                   "worker_interrupted", true)
                 else FailureEvent(s, FinishedFailed, src.first, Last(s.attempts).attemptId,
                                   "recovery_required", false)))
      else if task.canRun(s) then None
      else Some((s, BareEvent(s, Started, src.first, Some(src.freshId))))
  }

  function StepsLeft(task: ScanTask, sc: Scanner): nat {
    if Over(task, sc) then 0
    else 3 * (|task.listed| - sc.n) - (match sc.stage case Fresh => 0 case Reloading => 2 case _ => 1)
  }

  /** The snapshot is done with: its job is reported as `t`, and queued if it is to run again. */
  function Reported(task: ScanTask, sc: Scanner, t: Job): (sc': Scanner)
    requires !Over(task, sc)
    ensures StepsLeft(task, sc') < StepsLeft(task, sc)
  {
    var s := task.listed[sc.n];
    var queued := !s.status.CancelRequested? && task.canRun(s) && t.status.Pending?
                  && !Registered(task.known, sc.enqueued, t.jobId);
    Scanner(sc.n + 1, Fresh, sc.reported + [t],
            if queued then sc.enqueued + [t] else sc.enqueued, None)
  }

  /** How the scan goes on once its save is answered. */
  function Answer(task: ScanTask, sc: Scanner, r: Result<Job, RecoveryError>): (sc': Scanner)
    requires !Over(task, sc) && !sc.stage.Reloading?
    ensures StepsLeft(task, sc') < StepsLeft(task, sc)
  {
    var s := task.listed[sc.n];
    if Conflict(r) then sc.(stage := Reloading)
    else match r
      case Err(error) => sc.(aborted := Some(error))
      case Ok(t) =>
        if sc.stage.Fresh? && s.status.Pending? then sc.(stage := Failing(t))
        else if sc.stage.Fresh? && s.status.Running? && task.canRun(s) && InterruptedWithRoom(t) then
          sc.(stage := Retrying(t))
        else Reported(task, sc, t)
  }

  /** How it goes on where there was nothing to save. */
  function Passed(task: ScanTask, db: Db, sc: Scanner): (sc': Scanner)
    requires !Over(task, sc)
    ensures StepsLeft(task, sc') < StepsLeft(task, sc)
  {
    var s := task.listed[sc.n];
    if !sc.stage.Reloading? then
      if Registered(task.known, sc.enqueued, s.jobId) then sc.(n := sc.n + 1)
      else Reported(task, sc, s)
    else if s.jobId !in db.jobs then
      if s.status.CancelRequested? || !task.canRun(s) then Reported(task, sc, s)
      else sc.(n := sc.n + 1, stage := Fresh)
    else match Load(db, s.jobId)
      case Err(error) => sc.(aborted := Some(Storage(error)))
      case Ok(latest) => Reported(task, sc, latest)
  }

  /** One step of the scan: at most one save, or one read of the store. */
  function ScanStep(task: ScanTask, db: Db, sc: Scanner): (r: (Db, Scanner))
    requires Ready(task, sc) && !Over(task, sc)
    ensures Ready(task, r.1) && StepsLeft(task, r.1) < StepsLeft(task, sc)
  {
    match NextSave(task, sc)
    case None => (db, Passed(task, db, sc))
    case Some(save) =>
      var (db', r) := ApplyStored(db, save.0, save.1);
      (db', Answer(task, sc, r))
  }

  /** The scan left alone until it is over. */
  function RunScan(task: ScanTask, db: Db, sc: Scanner): (Db, Scanner)
    requires Ready(task, sc)
    decreases StepsLeft(task, sc)
  {
    if Over(task, sc) then (db, sc)
    else
      var (db', sc') := ScanStep(task, db, sc);
      RunScan(task, db', sc')
  }

  /** The scanner stands where the scan of whole rounds stands. */
  predicate StandsAt(task: ScanTask, sc: Scanner, n: nat, scan: Scan) {
    && sc.reported == scan.reported && sc.enqueued == scan.enqueued && sc.aborted == scan.aborted
    && (sc.aborted.None? ==> sc.stage.Fresh? && sc.n == n)
  }

  /** The steps up to the next snapshot. */
  function ToFresh(task: ScanTask, db: Db, sc: Scanner): (r: (Db, Scanner))
    requires Ready(task, sc)
    ensures Ready(task, r.1)
    decreases StepsLeft(task, sc)
  {
    if Over(task, sc) || sc.stage.Fresh? then (db, sc)
    else
      var (db', sc') := ScanStep(task, db, sc);
      ToFresh(task, db', sc')
  }

  lemma {:induction false} RunThrough(task: ScanTask, db: Db, sc: Scanner)
    requires Ready(task, sc)
    ensures RunScan(task, db, sc)
         == RunScan(task, ToFresh(task, db, sc).0, ToFresh(task, db, sc).1)
    decreases StepsLeft(task, sc)
  {
    hide Ready, ScanStep;
    if !Over(task, sc) && !sc.stage.Fresh? {
      RunThrough(task, ScanStep(task, db, sc).0, ScanStep(task, db, sc).1);
    }
  }

  /** Where the steps of one snapshot lead, and where one round leads. */
  predicate RoundMatches(task: ScanTask, db: Db, sc: Scanner)
    requires Ready(task, sc) && !Over(task, sc)
  {
    var s := task.listed[sc.n];
    var round := Round(Scan(db, sc.reported, sc.enqueued, None), task.known, s, task.canRun(s),
                       task.srcs(sc.n));
    var (db1, sc1) := ScanStep(task, db, sc);
    var (db', sc') := ToFresh(task, db1, sc1);
    db' == round.db && StandsAt(task, sc', sc.n + 1, round)
  }

  lemma FreshStep(task: ScanTask, db: Db, sc: Scanner)
    requires Ready(task, sc)
    ensures ToFresh(task, db, sc)
         == if Over(task, sc) || sc.stage.Fresh? then (db, sc)
            else ToFresh(task, ScanStep(task, db, sc).0, ScanStep(task, db, sc).1)
  {
  }

  /** At most three steps go into one snapshot. */
  lemma UpToThree(task: ScanTask, db: Db, sc: Scanner)
    requires Ready(task, sc)
    ensures var done := (sc: Scanner) => Over(task, sc) || sc.stage.Fresh?;
            && (done(sc) ==> ToFresh(task, db, sc) == (db, sc))
            && (!done(sc) ==>
                  var (db1, sc1) := ScanStep(task, db, sc);
                  && (done(sc1) ==> ToFresh(task, db, sc) == (db1, sc1))
                  && (!done(sc1) ==>
                        var (db2, sc2) := ScanStep(task, db1, sc1);
                        done(sc2) ==> ToFresh(task, db, sc) == (db2, sc2)))
  {
    hide Ready, ScanStep, ToFresh, Over;
    FreshStep(task, db, sc);
    if !Over(task, sc) && !sc.stage.Fresh? {
      var (db1, sc1) := ScanStep(task, db, sc);
      FreshStep(task, db1, sc1);
      if !Over(task, sc1) && !sc1.stage.Fresh? {
        FreshStep(task, ScanStep(task, db1, sc1).0, ScanStep(task, db1, sc1).1);
      }
    }
  }

  lemma KnownRound(task: ScanTask, db: Db, sc: Scanner)
    requires Ready(task, sc) && !Over(task, sc) && sc.stage.Fresh?
    requires Registered(task.known, sc.enqueued, task.listed[sc.n].jobId)
    ensures RoundMatches(task, db, sc)
  {
    hide ApplyStored, Load, ValidJob, Registered, FailureEvent, BareEvent, ToFresh, Conflict;
    UpToThree(task, ScanStep(task, db, sc).0, ScanStep(task, db, sc).1);
  }

  lemma CancelledRound(task: ScanTask, db: Db, sc: Scanner)
    requires Ready(task, sc) && !Over(task, sc) && sc.stage.Fresh?
    requires task.listed[sc.n].status.CancelRequested?
    ensures RoundMatches(task, db, sc)
  {
    hide ApplyStored, Load, ValidJob, Registered, FailureEvent, BareEvent, ToFresh,
      InterruptedWithRoom, Conflict;
    UpToThree(task, ScanStep(task, db, sc).0, ScanStep(task, db, sc).1);
  }

  lemma FailedRound(task: ScanTask, db: Db, sc: Scanner)
    requires Ready(task, sc) && !Over(task, sc) && sc.stage.Fresh?
    requires var s := task.listed[sc.n]; !s.status.CancelRequested? && !task.canRun(s)
    requires !Registered(task.known, sc.enqueued, task.listed[sc.n].jobId)
    ensures RoundMatches(task, db, sc)
  {
    hide ApplyStored, Load, ValidJob, Registered, FailureEvent, BareEvent, ToFresh,
      InterruptedWithRoom, Conflict;
    UpToThree(task, ScanStep(task, db, sc).0, ScanStep(task, db, sc).1);
  }

  lemma Unfinished(task: ScanTask, sc: Scanner)
    requires Ready(task, sc) && !Over(task, sc)
    ensures !Terminal(task.listed[sc.n].status)
  {
    hide ValidJob;
  }

  lemma QueuedRound(task: ScanTask, db: Db, sc: Scanner)
    requires Ready(task, sc) && !Over(task, sc) && sc.stage.Fresh?
    requires var s := task.listed[sc.n]; s.status.Pending? && task.canRun(s)
    ensures RoundMatches(task, db, sc)
  {
    hide ApplyStored, Load, ValidJob, Registered, FailureEvent, BareEvent, ToFresh, Conflict;
    UpToThree(task, ScanStep(task, db, sc).0, ScanStep(task, db, sc).1);
  }

  lemma InterruptedRound(task: ScanTask, db: Db, sc: Scanner)
    requires Ready(task, sc) && !Over(task, sc) && sc.stage.Fresh?
    requires var s := task.listed[sc.n]; s.status.Running? && task.canRun(s)
    requires !Registered(task.known, sc.enqueued, task.listed[sc.n].jobId)
    ensures RoundMatches(task, db, sc)
  {
    hide ApplyStored, Load, ValidJob, Registered, FailureEvent, BareEvent, ToFresh,
      InterruptedWithRoom, Conflict;
    UpToThree(task, ScanStep(task, db, sc).0, ScanStep(task, db, sc).1);
  }

  /** One round is the first few steps of the scanner. */
  lemma RoundIsSteps(task: ScanTask, db: Db, sc: Scanner) returns (sc': Scanner)
    requires Ready(task, sc) && !Over(task, sc) && sc.stage.Fresh?
    ensures var s := task.listed[sc.n];
            var round := Round(Scan(db, sc.reported, sc.enqueued, None), task.known, s,
                               task.canRun(s), task.srcs(sc.n));
            && Ready(task, sc') && StandsAt(task, sc', sc.n + 1, round)
            && RunScan(task, db, sc) == RunScan(task, round.db, sc')
  {
    hide ScanStep, Round, ToFresh, Ready;
    var s := task.listed[sc.n];
    var (db1, sc1) := ScanStep(task, db, sc);
    sc' := ToFresh(task, db1, sc1).1;
    RunThrough(task, db1, sc1);
    if Registered(task.known, sc.enqueued, s.jobId) {
      KnownRound(task, db, sc);
    } else if s.status.CancelRequested? {
      CancelledRound(task, db, sc);
    } else if !task.canRun(s) {
      FailedRound(task, db, sc);
    } else if s.status.Running? {
      InterruptedRound(task, db, sc);
    } else {
      Unfinished(task, sc);
      QueuedRound(task, db, sc);
    }
  }

  /** Left alone, the scanner does what the scan in whole rounds does. */
  lemma {:induction false} ScannerFollows(task: ScanTask, db: Db, n: nat) returns (sc: Scanner)
    requires Ready(task, START) && n <= |task.listed|
    ensures var scan := ScanUpTo(db, task.listed, n, task.known, task.canRun, task.srcs);
            && Ready(task, sc) && StandsAt(task, sc, n, scan)
            && RunScan(task, db, START) == RunScan(task, scan.db, sc)
  {
    hide RunScan, Round, ValidJob;
    if n == 0 {
      sc := START;
    } else {
      sc := ScannerFollows(task, db, n - 1);
      var scan := ScanUpTo(db, task.listed, n - 1, task.known, task.canRun, task.srcs);
      if sc.aborted.None? {
        sc := RoundIsSteps(task, scan.db, sc);
        assert scan == Scan(scan.db, scan.reported, scan.enqueued, None);
      } else {
        RoundAborted(scan, task.known, task.listed[n - 1], task.canRun(task.listed[n - 1]),
                     task.srcs(n - 1));
      }
    }
  }

  lemma RoundAborted(scan: Scan, known: set<Uuid>, s: Job, canRun: bool, src: Source)
    requires ValidJob(s) && scan.aborted.Some?
    ensures Round(scan, known, s, canRun, src) == scan
  {
  }

  lemma ScannerIsScan(task: ScanTask, db: Db)
    requires Ready(task, START)
    ensures var scan := ScanUpTo(db, task.listed, |task.listed|, task.known, task.canRun, task.srcs);
            var (db', sc) := RunScan(task, db, START);
            && db' == scan.db && sc.reported == scan.reported && sc.enqueued == scan.enqueued
            && sc.aborted == scan.aborted
  {
    hide ValidJob, Round;
    var sc := ScannerFollows(task, db, |task.listed|);
  }

  // ---------------------------------------------------------------- a scan among other writers

  /** Whose turn it is at the store. A scan that gets no more turns has died. */
  datatype Turn = Scanning | Writing(call: Call)

  ghost predicate HoldsStored(sys: System, task: ScanTask, sc: Scanner) {
    && Consistent(sys) && Ready(task, sc)
    && (forall i :: 0 <= i < |task.listed| ==> Held(sys, task.listed[i]))
    && (sc.stage.Retrying? || sc.stage.Failing? ==> Held(sys, sc.stage.held))
  }

  /** The call of a writer that the scan's next step is, where it saves something. */
  function ScanCall(task: ScanTask, sc: Scanner): Option<Call>
    requires Ready(task, sc) && !Over(task, sc)
  {
    match NextSave(task, sc)
    case Some(save) =>
      if 0 <= save.0.revision then Some(Apply(save.0.jobId, save.0.revision, save.1)) else None
    case None => None
  }

  ghost function AfterTurn(task: ScanTask, sys: System, sc: Scanner, turn: Turn): (System, Scanner)
    requires Ready(task, sc)
  {
    match turn
    case Writing(call) => (Step(sys, call), sc)
    case Scanning =>
      if Over(task, sc) then (sys, sc)
      else
        (match ScanCall(task, sc) case Some(call) => Step(sys, call) case None => sys,
         ScanStep(task, sys.db, sc).1)
  }

  lemma WriteRemembers(sys: System, call: Call)
    requires Consistent(sys)
    ensures Remembers(sys, Step(sys, call))
  {
    hide SaveCall, CreateResult, GoodHistory, ValidJob, Load, Submits;
    match call
    case Create(candidate) =>
      if ValidJob(candidate) {
        CreateRoundTrips(sys.db, candidate);
      }
    case Apply(id, snapshot, e) =>
  }

  /** The scan's turn changes the store as its step says, and is a call of a writer or nothing. */
  lemma ScanTurn(task: ScanTask, sys: System, sc: Scanner)
    requires HoldsStored(sys, task, sc) && !Over(task, sc)
    ensures var (sys', sc') := AfterTurn(task, sys, sc, Scanning);
            sys'.db == ScanStep(task, sys.db, sc).0 && HoldsStored(sys', task, sc')
  {
    hide Consistent, ValidJob, Step, ApplyStored, Load, Held, FailureEvent, BareEvent, Registered,
      InterruptedWithRoom;
    var save := NextSave(task, sc);
    if save.Some? {
      var (held, e) := save.value;
      RevisionIsPlace(sys, held);
      SaveIsStep(sys, held, e);
    }
  }

  ghost function AfterTurns(task: ScanTask, sys: System, turns: seq<Turn>): (r: (System, Scanner))
    requires Ready(task, START)
    ensures Ready(task, r.1)
  {
    if turns == [] then (sys, START)
    else
      var (sys', sc) := AfterTurns(task, sys, turns[..|turns| - 1]);
      AfterTurn(task, sys', sc, Last(turns))
  }

  /**
    Whatever other writers do between any two saves of a scan, and wherever it dies: all of it
    together is a list of writer calls, so each stored job is still the end of one run.
   */
  lemma {:induction false} ScanAmongWriters(task: ScanTask, sys: System, turns: seq<Turn>)
    returns (calls: seq<Call>)
    requires HoldsStored(sys, task, START)
    ensures var (sys', sc) := AfterTurns(task, sys, turns);
            && HoldsStored(sys', task, sc)
            && sys' == Execute(sys, calls)
  {
    hide HoldsStored, Step, ScanStep, ScanCall, Ready;
    HeldIsReady(sys, task, START);
    if turns == [] {
      calls := [];
    } else {
      var earlier := turns[..|turns| - 1];
      calls := ScanAmongWriters(task, sys, earlier);
      var (sys', sc) := AfterTurns(task, sys, earlier);
      HeldIsReady(sys', task, sc);
      match Last(turns) {
        case Writing(call) =>
          WriteKeepsHeld(sys', task, sc, call);
          ExecuteNext(sys, calls, call);
          calls := calls + [call];
        case Scanning =>
          if !Over(task, sc) {
            ScanTurn(task, sys', sc);
            if ScanCall(task, sc).Some? {
              ExecuteNext(sys, calls, ScanCall(task, sc).value);
              calls := calls + [ScanCall(task, sc).value];
            }
          }
      }
    }
  }

  lemma HeldIsReady(sys: System, task: ScanTask, sc: Scanner)
    requires HoldsStored(sys, task, sc)
    ensures Ready(task, sc) && Ready(task, START)
  {
    hide ValidJob;
  }

  lemma WriteKeepsHeld(sys: System, task: ScanTask, sc: Scanner, call: Call)
    requires HoldsStored(sys, task, sc)
    ensures HoldsStored(Step(sys, call), task, sc)
  {
    hide Consistent, Step, Held, Ready;
    StepKeepsConsistent(sys, call);
    WriteRemembers(sys, call);
  }

  lemma ExecuteNext(sys: System, calls: seq<Call>, call: Call)
    ensures Execute(sys, calls + [call]) == Step(Execute(sys, calls), call)
  {
    assert (calls + [call])[..|calls|] == calls;
  }

  // ---------------------------------------------------------------- restarts of reachable stores

  /** A restart over a consistent store, with usable clocks and identities, is undisturbed. */
  lemma ConsistentIsUndisturbed(sys: System, listed: seq<Job>, known: set<Uuid>,
                                srcs: nat -> Source)
    requires Consistent(sys) && ListsUnfinished(sys.db, listed)
    requires forall i :: 0 <= i < |listed| ==>
               GoodSource(listed[i], srcs(i)) && listed[i].jobId !in known
    ensures Undisturbed(sys.db, listed, known, srcs)
    ensures forall i :: 0 <= i < |listed| ==> Held(sys, listed[i])
  {
    hide Consistent, Load, ValidJob, PendingLeavesRoom, GoodSource, Held, OldestFirst;
    forall i | 0 <= i < |listed|
      ensures ValidJob(listed[i]) && PendingLeavesRoom(listed[i]) && Held(sys, listed[i])
    {
      assert listed[i] in listed;
      StoredStatus(sys.db, listed[i].jobId);
      StoredIsRecoverable(sys, listed[i].jobId);
    }
  }

  /**
    Whatever calls any writers made before the crash, one scan after it recovers every unfinished
    job, leaves no job of the store active, and leaves a store that calls could have left: the
    next crash and the next scan find the same.
   */
  lemma RestartsRecover(calls: seq<Call>, listed: seq<Job>, known: set<Uuid>,
                        canRun: Job -> bool, srcs: nat -> Source)
    returns (more: seq<Call>)
    requires var db := Execute(EMPTY, calls).db;
             ListsUnfinished(db, listed)
    requires forall i :: 0 <= i < |listed| ==>
               GoodSource(listed[i], srcs(i)) && listed[i].jobId !in known
    ensures var db := Execute(EMPTY, calls).db;
            && Undisturbed(db, listed, known, srcs)
            && var scan := ScanUpTo(db, listed, |listed|, known, canRun, srcs);
               && ScanProgress(db, listed, |listed|, canRun, scan)
               && Execute(EMPTY, calls + more).db == scan.db
               && forall id :: id in scan.db.jobs ==>
                    Load(scan.db, id).Ok? && !Active(Load(scan.db, id).value)
  {
    hide Consistent, Execute, Load, ValidJob, PendingLeavesRoom, GoodSource, Held, ScanUpTo,
      ListsUnfinished, ScanProgress, Remembers;
    var sys := Execute(EMPTY, calls);
    AlwaysConsistent(calls);
    ConsistentIsUndisturbed(sys, listed, known, srcs);
    ScanConverges(sys.db, listed, |listed|, known, canRun, srcs);
    more := ScanIsCalls(sys, listed, |listed|, known, canRun, srcs);
    ExecuteJoins(EMPTY, calls, more);
    var db' := ScanUpTo(sys.db, listed, |listed|, known, canRun, srcs).db;
    forall id | id in db'.jobs ensures Load(db', id).Ok? && !Active(Load(db', id).value) {
      StoredIsRecoverable(Execute(sys, more), id);
      NothingLeftActive(sys.db, listed, known, canRun, srcs, id);
    }
  }
}
