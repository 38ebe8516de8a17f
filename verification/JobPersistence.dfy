/**
  The single-worker runner on top of its store: every event is saved before the record in memory
  takes it over, a job that is not registered is read from the store, and a submission goes through
  the row its idempotency key may already have.
 */
module JobPersistence {
  import opened Common
  import opened JobSystem
  import opened JobStore
  import opened JobRunner
  import opened JobRecovery

  /** One process and the store it alone works on. */
  datatype Node = Node(runner: Runner, db: Db)

  /** A call is refused, or an error of the store or of a transition passes through it. */
  datatype NodeError = Refused(error: RunnerError) | Broken(cause: RecoveryError)

  lemma LoadedIsValid(db: Db, id: Uuid)
    requires Load(db, id).Ok?
    ensures ValidJob(Load(db, id).value) && Load(db, id).value.jobId == id
  {
  }

  // ---------------------------------------------------------------- single calls

  /** One event on a registered job: saved first, and then taken over into its record. */
  function Persist(n: Node, id: Uuid, e: Event): (a: (Node, Result<Job, RecoveryError>))
    requires ValidRecords(n.runner.jobs) && id in n.runner.jobs
    ensures ValidRecords(a.0.runner.jobs) && id in a.0.runner.jobs
    ensures a.1.Ok? ==> ValidJob(a.1.value)
  {
    var r := n.runner;
    var (db', a) := ApplyStored(n.db, r.jobs[id].state, e);
    (Node(if a.Ok? then r.(jobs := r.jobs[id := r.jobs[id].(state := a.value)]) else r, db'), a)
  }

  /** The record an action works on: the registered one, or one read from the store, not queued. */
  function Adopted(n: Node, id: Uuid): (a: (Node, Option<NodeError>))
    requires ValidRecords(n.runner.jobs)
    ensures ValidRecords(a.0.runner.jobs) && (a.1.None? ==> id in a.0.runner.jobs)
  {
    var r := n.runner;
    if id in r.jobs then (n, None)
    else if id !in n.db.jobs then (n, Some(Refused(JobNotFound)))
    else match Load(n.db, id)
      case Err(error) => (n, Some(Broken(Storage(error))))
      case Ok(s) =>
        LoadedIsValid(n.db, id);
        (n.(runner := r.(jobs := r.jobs[id := Record(s, false)],
                         index := r.index[s.idempotencyKey := id],
                         parked := if s.status.Pending? then r.parked + {id} else r.parked,
                         stuck := if Active(s) then r.stuck + {id} else r.stuck)),
         None)
  }

  function CancelNode(n: Node, id: Uuid, now: Time): (Node, Result<Job, NodeError>)
    requires ValidRecords(n.runner.jobs)
  {
    var (m, failed) := Adopted(n, id);
    if failed.Some? then (m, Err(failed.value))
    else
      var s := m.runner.jobs[id].state;
      if Terminal(s.status) then (m, Err(Refused(CancelNotAllowed)))
      else if s.status.CancelRequested? then (m, Ok(s))
      else
        var (k, a) := Persist(m, id, BareEvent(s, CancellationRequested, now, None));
        match a
        case Ok(t) => (k.(runner := k.runner.(jobs := k.runner.jobs[id := Record(t, true)])), Ok(t))
        case Err(error) =>
          (k, Err(if Conflict(a) || (error.Transition? && !error.error.ValidationFailed?)
                  then Refused(StateChanged) else Broken(error)))
  }

  function RetryNode(n: Node, id: Uuid, now: Time): (Node, Result<Job, NodeError>)
    requires ValidRecords(n.runner.jobs)
  {
    var (m, failed) := Adopted(n, id);
    if failed.Some? then (m, Err(failed.value))
    else
      var s := m.runner.jobs[id].state;
      if !s.status.Failed? || s.attempts == [] || !Last(s.attempts).retryable
         || s.maxAttempts <= |s.attempts|
      then (m, Err(Refused(RetryRefused)))
      else
        var (k, a) := Persist(m, id, BareEvent(s, RetryRequested, now, None));
        match a
        case Err(error) => (k, Err(if Conflict(a) then Refused(StateChanged) else Broken(error)))
        case Ok(t) =>
          var r := k.runner;
          if r.closed then
            (k.(runner := r.(jobs := r.jobs - {id}, index := r.index - {t.idempotencyKey})),
             Err(Refused(ExecutorDown)))
          else (k.(runner := r.(queue := r.queue + [id])), Ok(t))
  }

  /** An attempt starts; a start that loses a race leaves what is stored in the record. */
  function StartNode(n: Node, id: Uuid, now: Time): Node
    requires ValidRecords(n.runner.jobs) && id in n.runner.jobs
  {
    var attemptId := n.runner.nextId;
    var (k, a) := Persist(n.(runner := n.runner.(nextId := attemptId + 1)), id,
                          BareEvent(n.runner.jobs[id].state, Started, now, Some(attemptId)));
    var r := k.runner;
    if a.Ok? then
      k.(runner := r.(worker := Busy(id, attemptId), bodies := r.bodies + [(id, attemptId)]))
    else if Conflict(a) && Load(k.db, id).Ok? then
      k.(runner := r.(jobs := r.jobs[id := r.jobs[id].(state := Load(k.db, id).value)]))
    else k
  }

  /** A queue entry is taken, and starts an attempt or is stale. */
  function BeginNode(n: Node, now: Time): Node
    requires ValidRecords(n.runner.jobs) && n.runner.worker.Idle? && n.runner.queue != []
  {
    var id := n.runner.queue[0];
    var m := n.(runner := n.runner.(queue := n.runner.queue[1..]));
    if id !in m.runner.jobs || !m.runner.jobs[id].state.status.Pending? then m
    else StartNode(m, id, now)
  }

  function ReportNode(n: Node, completed: int, total: Option<int>, phase: string, now: Time)
    : (Node, Result<Job, NodeError>)
    requires ValidRecords(n.runner.jobs) && n.runner.worker.Busy?
  {
    var id := n.runner.worker.jobId;
    if id !in n.runner.jobs then (n, Err(Refused(JobNotFound)))
    else
      var s := n.runner.jobs[id].state;
      var (m, a) := Persist(n, id, ProgressEvent(s, now, n.runner.worker.attemptId, completed, total,
                                                 phase));
      (m, match a case Ok(t) => Ok(t) case Err(error) => Err(Broken(error)))
  }

  function EndNode(n: Node, end: TaskEnd, now: Time): (Node, Result<Job, NodeError>)
    requires ValidRecords(n.runner.jobs) && n.runner.worker.Busy?
  {
    var id := n.runner.worker.jobId;
    var m := n.(runner := n.runner.(worker := Idle));
    if id !in n.runner.jobs then (m, Err(Refused(JobNotFound)))
    else
      var (k, a) := Persist(m, id, EndEvent(n.runner.jobs[id].state, end, now,
                                            n.runner.worker.attemptId));
      match a
      case Ok(t) => (k, Ok(t))
      case Err(error) => (k.(runner := k.runner.(stuck := k.runner.stuck + {id})), Err(Broken(error)))
  }

  /** The pending job in its record, under its key and in the queue. */
  function Queued(r: Runner, s: Job): Runner {
    r.(jobs := r.jobs[s.jobId := Record(s, false)], index := r.index[s.idempotencyKey := s.jobId],
       queue := r.queue + [s.jobId])
  }

  ghost function CreateRow(db: Db, candidate: Job): (a: (Db, Result<Job, StoreError>))
    ensures a.1.Ok? ==> ValidJob(a.1.value)
  {
    CreateResult(db, candidate)
  }

  /** A submission: a registered job with its key, the stored one recovered, or a new row. */
  ghost function SubmitNode(n: Node, q: Request, now: Time, src: Source)
    : (Node, Result<Job, NodeError>)
  {
    var r := n.runner;
    if r.closed then (n, Err(Refused(RunnerClosed)))
    else match Candidate(q, r.nextId, now)
      case Err(error) => (n, Err(Refused(Rejected(error))))
      case Ok(candidate) =>
        var m := n.(runner := r.(nextId := r.nextId + 1));
        if q.idempotencyKey in r.index then
          if r.index[q.idempotencyKey] !in r.jobs then (m, Err(Refused(JobNotFound)))
          else
            var existing := r.jobs[r.index[q.idempotencyKey]].state;
            if existing.kind != candidate.kind || existing.workspaceId != candidate.workspaceId
               || existing.taskVersion != candidate.taskVersion
               || existing.payload != candidate.payload
            then (m, Err(Refused(KeyConflict))) else (m, Ok(existing))
        else
          var (db', made) := CreateRow(n.db, candidate);
          match made
          case Err(error) =>
            (m.(db := db'), Err(if error.IdentityConflict? then Refused(KeyConflict)
                                else Broken(Storage(error))))
          case Ok(s) =>
            var (db'', recovered) := RecoverState(db', s, src);
            match recovered
            case Err(error) => (m.(db := db''), Err(Broken(error)))
            case Ok(t) =>
              (Node(if t.status.Pending? then Queued(m.runner, t) else m.runner, db''), Ok(t))
  }

  function IdsFrom(first: Uuid, count: nat): (ids: set<Uuid>)
    ensures forall id :: id in ids <==> first <= id < first + count
  {
    if count == 0 then {} else IdsFrom(first, count - 1) + {first + count - 1}
  }

  /** What a scan leaves behind: its store, its queue entries, and the identities set aside for it. */
  function Scanned(n: Node, scan: Scan, size: nat, done: Time): Node {
    var r := n.runner;
    Node(r.(jobs := JobsWith(r.jobs, scan.enqueued), index := IndexWith(r.index, scan.enqueued),
            queue := r.queue + IdList(scan.enqueued), clock := done, nextId := r.nextId + size,
            spared := r.spared + IdsFrom(r.nextId, size)),
         scan.db)
  }

  // ---------------------------------------------------------------- the runner itself

  class PersistentJobRunner {
    const store: SqlAlchemyJobStore
    var jobs: map<Uuid, Record>
    var index: map<string, Uuid>
    var queue: seq<Uuid>
    var worker: Worker
    var closed: bool
    var nextId: nat
    ghost var dropped: bool
    ghost var clock: Time
    ghost var bodies: seq<(Uuid, Uuid)>
    ghost var stuck: set<Uuid>
    ghost var parked: set<Uuid>
    ghost var spared: set<Uuid>

    ghost function View(): Node
      reads this, store
    {
      Node(Runner(jobs, index, queue, worker, closed, dropped, clock, nextId, bodies, stuck, parked,
                  spared),
           store.Contents())
    }

    /** A process starts with nothing in memory; identities already taken are not drawn again. */
    constructor (store: SqlAlchemyJobStore, nextId: nat, ghost start: Time,
                 ghost bodies: seq<(Uuid, Uuid)>, ghost spared: set<Uuid>)
      ensures this.store == store
      ensures View() == Node(NewRunner(start).(nextId := nextId, bodies := bodies, spared := spared),
                             store.Contents())
    {
      this.store, this.nextId, this.clock := store, nextId, start;
      this.bodies, this.spared := bodies, spared;
      jobs, index, queue, worker, closed := map[], map[], [], Idle, false;
      dropped, stuck, parked := false, {}, {};
    }

    method ApplyEventToState(s: Job, e: Event) returns (r: Result<Job, RecoveryError>)
      requires ValidJob(s)
      modifies store
      ensures (store.Contents(), r) == ApplyStored(old(store.Contents()), s, e)
    {
      hide TransitionJob, Lifecycle, SaveResult;
      var next := ApplyEvent(s, e);
      if next.Err? {
        return Err(Transition(next.error));
      }
      var saved := store.SaveTransition(s.revision, next.value);
      r := match saved case Ok(t) => Ok(t) case Err(error) => Err(Storage(error));
    }

    method CloseLeftoverAttempt(s: Job, now: Time) returns (r: Result<Job, RecoveryError>)
      requires ValidJob(s)
      modifies store
      ensures (store.Contents(), r) == CloseLeftover(old(store.Contents()), s, now)
    {
      hide ApplyStored;
      if s.status.Running? {
        r := ApplyEventToState(s, FailureEvent(s, FinishedInterrupted, now,
                                               Last(s.attempts).attemptId, "worker_interrupted",
                                               true));
      } else if s.status.CancelRequested? {
        r := ApplyEventToState(s, BareEvent(s, FinishedCancelled, now,
                                            Some(Last(s.attempts).attemptId)));
      } else {
        r := Ok(s);
      }
    }

    method RecoverPersistedState(s: Job, src: Source) returns (r: Result<Job, RecoveryError>)
      requires ValidJob(s)
      modifies store
      ensures (store.Contents(), r) == RecoverState(old(store.Contents()), s, src)
    {
      hide ApplyStored, CloseLeftover, Lifecycle;
      r := CloseLeftoverAttempt(s, src.first);
      if r.Ok? && !s.status.CancelRequested? && InterruptedWithRoom(r.value) {
        r := ApplyEventToState(r.value, BareEvent(r.value, RetryRequested, src.second, None));
      }
    }

    method FailPersistedState(s: Job, src: Source) returns (r: Result<Job, RecoveryError>)
      requires ValidJob(s)
      modifies store
      ensures (store.Contents(), r) == FailRecovery(old(store.Contents()), s, src)
    {
      assert s.status.Running? ==> s.attempts != [];
      hide ApplyStored, Lifecycle;
      if s.status.Running? {
        r := ApplyEventToState(s, FailureEvent(s, FinishedFailed, src.first,
                                               Last(s.attempts).attemptId, "recovery_required",
                                               false));
        return;
      }
      r := ApplyEventToState(s, BareEvent(s, Started, src.first, Some(src.freshId)));
      if r.Ok? {
        r := ApplyEventToState(r.value, FailureEvent(r.value, FinishedFailed, src.second,
                                                     src.freshId, "recovery_required", false));
      }
    }

    /** After a lost race, what is stored now; a job that is gone keeps its snapshot. */
    method SettleConflict(s: Job, r: Result<Job, RecoveryError>)
      returns (settled: Result<Job, RecoveryError>)
      ensures settled == Settle(store.Contents(), s, r)
    {
      if !Conflict(r) {
        return r;
      }
      var latest := store.Get(s.jobId);
      settled := match latest
        case None => Ok(s)
        case Some(Ok(t)) => Ok(t)
        case Some(Err(error)) => Err(Storage(error));
    }

    method RecoverOne(s: Job, canRun: bool, src: Source) returns (o: Outcome)
      requires ValidJob(s)
      modifies store
      ensures (store.Contents(), o) == ScanOne(old(store.Contents()), s, canRun, src)
    {
      hide ApplyStored, CloseLeftover, RecoverState, FailRecovery, StateFromRecords, Lifecycle;
      var r: Result<Job, RecoveryError>;
      if s.status.CancelRequested? {
        r := CloseLeftoverAttempt(s, src.first);
        r := SettleConflict(s, r);
        return Recorded(r);
      }
      if !canRun {
        r := FailPersistedState(s, src);
        r := SettleConflict(s, r);
        return Recorded(r);
      }
      r := RecoverPersistedState(s, src);
      if Conflict(r) {
        var latest := store.Get(s.jobId);
        if latest.None? {
          return Skipped;
        }
        if latest.value.Err? {
          return Aborted(Storage(latest.value.error));
        }
        var t := latest.value.value;
        return Recovered(t, t.status.Pending?);
      }
      return match r
        case Err(error) => Aborted(error)
        case Ok(t) => Recovered(t, t.status.Pending?);
    }

    method EnqueuePersistedState(s: Job)
      requires s.jobId !in jobs
      modifies this`jobs, this`index, this`queue
      ensures jobs == old(jobs)[s.jobId := Record(s, false)]
      ensures index == old(index)[s.idempotencyKey := s.jobId]
      ensures queue == old(queue) + [s.jobId]
    {
      jobs := jobs[s.jobId := Record(s, false)];
      index := index[s.idempotencyKey := s.jobId];
      queue := queue + [s.jobId];
    }

    /** One round of the scan's loop; `scan` is where the scan stood, starting from `old...`. */
    method RecoverSnapshot(s: Job, canRun: bool, src: Source, ghost scan: Scan,
                           ghost jobs0: map<Uuid, Record>)
      returns (reported: Option<Job>, aborted: Option<RecoveryError>)
      requires ValidJob(s) && scan.aborted.None? && store.Contents() == scan.db
      requires jobs == JobsWith(jobs0, scan.enqueued)
      modifies this`jobs, this`index, this`queue, store
      ensures var next := Round(scan, jobs0.Keys, s, canRun, src);
              && store.Contents() == next.db && aborted == next.aborted
              && next.reported == scan.reported
                                  + (if reported.Some? then [reported.value] else [])
              && scan.enqueued <= next.enqueued
              && var added := next.enqueued[|scan.enqueued|..];
                 && jobs == JobsWith(jobs0, next.enqueued)
                 && index == IndexWith(old(index), added)
                 && queue == old(queue) + IdList(added)
    {
      hide ScanOne, Lifecycle, JobsWith, IndexWith, Registered;
      NothingEnqueued(jobs, index);
      assert scan.enqueued[|scan.enqueued|..] == [];
      RegisteredIsKnown(jobs0, scan.enqueued, s.jobId);
      if s.jobId in jobs {
        return None, None;
      }
      var o := RecoverOne(s, canRun, src);
      match o {
        case Skipped => return None, None;
        case Aborted(error) => return None, Some(error);
        case Recovered(t, enqueue) =>
          RegisteredIsKnown(jobs0, scan.enqueued, t.jobId);
          if enqueue && t.jobId !in jobs {
            EnqueuePersistedState(t);
            EnqueuedExtend(jobs0, old(index), scan.enqueued, t);
            EnqueuedExtend(jobs0, old(index), [], t);
            assert (scan.enqueued + [t])[|scan.enqueued|..] == [] + [t];
          }
          return Some(t), None;
      }
    }

    /**
      The scan over the snapshots listed first. What it does to the store, reports and
      queues is what `ScanUpTo` says; the records and queue entries it adds are those it enqueued.
     */
    method RecoverSnapshots(listed: seq<Job>, canRun: Job -> bool, srcs: nat -> Source)
      returns (r: Result<seq<Job>, RecoveryError>)
      requires forall i :: 0 <= i < |listed| ==> ValidJob(listed[i])
      modifies this`jobs, this`index, this`queue, store
      ensures var scan := ScanUpTo(old(store.Contents()), listed, |listed|, old(jobs.Keys), canRun,
                                   srcs);
              && store.Contents() == scan.db
              && (r == if scan.aborted.Some? then Err(scan.aborted.value) else Ok(scan.reported))
              && jobs == JobsWith(old(jobs), scan.enqueued)
              && index == IndexWith(old(index), scan.enqueued)
              && queue == old(queue) + IdList(scan.enqueued)
    {
      hide ScanOne, Round, ValidJob, JobsWith, IndexWith, IdList;
      var reported: seq<Job> := [];
      ghost var scan := ScanUpTo(store.Contents(), listed, 0, jobs.Keys, canRun, srcs);
      NothingEnqueued(jobs, index);
      for i := 0 to |listed|
        invariant scan == ScanUpTo(old(store.Contents()), listed, i, old(jobs.Keys), canRun, srcs)
        invariant scan.aborted.None? && store.Contents() == scan.db && reported == scan.reported
        invariant jobs == JobsWith(old(jobs), scan.enqueued)
        invariant index == IndexWith(old(index), scan.enqueued)
        invariant queue == old(queue) + IdList(scan.enqueued)
      {
        ghost var next := Round(scan, old(jobs.Keys), listed[i], canRun(listed[i]), srcs(i));
        var found, aborted := RecoverSnapshot(listed[i], canRun(listed[i]), srcs(i), scan,
                                              old(jobs));
        IndexConcat(old(index), scan.enqueued, next.enqueued[|scan.enqueued|..]);
        assert next.enqueued == scan.enqueued + next.enqueued[|scan.enqueued|..];
        scan := next;
        if aborted.Some? {
          AbortStays(old(store.Contents()), listed, i + 1, |listed|, old(jobs.Keys), canRun, srcs);
          return Err(aborted.value);
        }
        if found.Some? {
          reported := reported + [found.value];
        }
      }
      return Ok(reported);
    }

    /** The whole scan: every unfinished job is listed first, and then recovered in that order. */
    method RecoverPersistedJobs(canRun: Job -> bool, srcs: nat -> Source, ghost done: Time)
      returns (r: Result<seq<Job>, NodeError>, ghost listed: Option<seq<Job>>)
      modifies this, store
      ensures listed.None? ==> r.Err? && View() == old(View())
      ensures listed.None? ==> closed || exists id :: id in store.jobs && Load(store.Contents(), id).Err?
      ensures listed.Some? ==>
                && !closed && ListsUnfinished(old(store.Contents()), listed.value)
                && (forall i :: 0 <= i < |listed.value| ==> ValidJob(listed.value[i]))
                && var scan := ScanUpTo(old(store.Contents()), listed.value, |listed.value|,
                                        old(jobs.Keys), canRun, srcs);
                   && View() == Scanned(old(View()), scan, |listed.value|, done)
                   && (r == if scan.aborted.Some? then Err(Broken(scan.aborted.value))
                            else Ok(scan.reported))
    {
      hide ScanUpTo, JobsWith, IndexWith, IdList, ValidJob, Load, ListsUnfinished, IdsFrom;
      if closed {
        return Err(Refused(RunnerClosed)), None;
      }
      var unfinished := store.ListUnfinished();
      if unfinished.Err? {
        return Err(Broken(Storage(unfinished.error))), None;
      }
      ListedValid(store.Contents(), unfinished.value);
      var answer := RecoverSnapshots(unfinished.value, canRun, srcs);
      r := match answer case Ok(reported) => Ok(reported) case Err(error) => Err(Broken(error));
      listed := Some(unfinished.value);
      clock := done;
      spared := spared + IdsFrom(nextId, |unfinished.value|);
      nextId := nextId + |unfinished.value|;
    }

    method GetActionRecord(id: Uuid) returns (failed: Option<NodeError>)
      requires ValidRecords(jobs)
      modifies this
      ensures (View(), failed) == Adopted(old(View()), id)
    {
      hide Lifecycle, StateFromRecords;
      if id in jobs {
        return None;
      }
      var found := store.Get(id);
      if found.None? {
        return Some(Refused(JobNotFound));
      }
      if found.value.Err? {
        return Some(Broken(Storage(found.value.error)));
      }
      var s := found.value.value;
      jobs := jobs[id := Record(s, false)];
      index := index[s.idempotencyKey := id];
      parked := if s.status.Pending? then parked + {id} else parked;
      stuck := if Active(s) then stuck + {id} else stuck;
      failed := None;
    }

    /** The event is saved, and only then does the record change. */
    method ApplyEventToRecord(id: Uuid, e: Event) returns (r: Result<Job, RecoveryError>)
      requires ValidRecords(jobs) && id in jobs
      modifies this`jobs, store
      ensures (View(), r) == Persist(old(View()), id, e)
    {
      hide ApplyStored, ValidJob;
      r := ApplyEventToState(jobs[id].state, e);
      if r.Ok? {
        jobs := jobs[id := jobs[id].(state := r.value)];
      }
    }

    method Cancel(id: Uuid, now: Time) returns (r: Result<Job, NodeError>)
      requires ValidRecords(jobs)
      modifies this, store
      ensures (View(), r) == CancelNode(old(View()), id, now)
    {
      hide Adopted, Persist, ValidJob;
      var failed := GetActionRecord(id);
      if failed.Some? {
        return Err(failed.value);
      }
      var state := jobs[id].state;
      if Terminal(state.status) {
        return Err(Refused(CancelNotAllowed));
      }
      if state.status.CancelRequested? {
        return Ok(state);
      }
      var next := ApplyEventToRecord(id, BareEvent(state, CancellationRequested, now, None));
      if next.Err? {
        return Err(if Conflict(next) || (next.error.Transition? && !next.error.error.ValidationFailed?)
                   then Refused(StateChanged) else Broken(next.error));
      }
      jobs := jobs[id := Record(next.value, true)];
      return Ok(next.value);
    }

    method Retry(id: Uuid, now: Time) returns (r: Result<Job, NodeError>)
      requires ValidRecords(jobs)
      modifies this, store
      ensures (View(), r) == RetryNode(old(View()), id, now)
    {
      hide Adopted, Persist, ValidJob;
      var failed := GetActionRecord(id);
      if failed.Some? {
        return Err(failed.value);
      }
      var state := jobs[id].state;
      if !state.status.Failed? || state.attempts == [] || !Last(state.attempts).retryable
         || state.maxAttempts <= |state.attempts|
      {
        return Err(Refused(RetryRefused));
      }
      var next := ApplyEventToRecord(id, BareEvent(state, RetryRequested, now, None));
      if next.Err? {
        return Err(if Conflict(next) then Refused(StateChanged) else Broken(next.error));
      }
      if closed {
        jobs := jobs - {id};
        index := index - {next.value.idempotencyKey};
        return Err(Refused(ExecutorDown));
      }
      queue := queue + [id];
      return Ok(next.value);
    }

    method Shutdown(wait: bool)
      modifies this
      ensures View() == old(View()).(runner := ShutdownStep(old(View()).runner, wait))
      ensures closed && jobs == old(jobs) && worker == old(worker)
      ensures queue == if wait || old(closed) then old(queue) else []
    {
      if closed {
        return;
      }
      closed := true;
      if !wait {
        queue := [];
      }
      dropped := !wait;
    }

    method BeginTask(now: Time)
      requires ValidRecords(jobs) && worker.Idle? && queue != []
      modifies this, store
      ensures View() == BeginNode(old(View()), now)
    {
      hide StartNode, ValidJob;
      var id := queue[0];
      queue := queue[1..];
      if id in jobs && jobs[id].state.status.Pending? {
        StartAttempt(id, now);
      }
    }

    method StartAttempt(id: Uuid, now: Time)
      requires ValidRecords(jobs) && id in jobs
      modifies this, store
      ensures View() == StartNode(old(View()), id, now)
    {
      hide Persist, ValidJob, Load, Conflict, BareEvent;
      var attemptId := nextId;
      nextId := nextId + 1;
      var next := ApplyEventToRecord(id, BareEvent(jobs[id].state, Started, now, Some(attemptId)));
      if next.Ok? {
        worker := Busy(id, attemptId);
        bodies := bodies + [(id, attemptId)];
      } else if Conflict(next) {
        TakeLatest(id);
      }
    }

    /** After a lost race the record shows what is stored now. */
    method TakeLatest(id: Uuid)
      requires id in jobs
      modifies this`jobs
      ensures var stored := Load(store.Contents(), id);
              jobs == if stored.Ok? then old(jobs)[id := old(jobs)[id].(state := stored.value)]
                      else old(jobs)
    {
      hide StateFromRecords;
      var latest := store.Get(id);
      if latest.Some? && latest.value.Ok? {
        jobs := jobs[id := jobs[id].(state := latest.value.value)];
      }
    }

    method ReportProgress(completed: int, total: Option<int>, phase: string, now: Time)
      returns (r: Result<Job, NodeError>)
      requires ValidRecords(jobs) && worker.Busy?
      modifies this, store
      ensures (View(), r) == ReportNode(old(View()), completed, total, phase, now)
    {
      hide Persist, ValidJob;
      if worker.jobId !in jobs {
        return Err(Refused(JobNotFound));
      }
      var next := ApplyEventToRecord(worker.jobId, ProgressEvent(jobs[worker.jobId].state, now,
                                                          worker.attemptId, completed, total, phase));
      r := match next case Ok(t) => Ok(t) case Err(error) => Err(Broken(error));
    }

    method FinishAttempt(end: TaskEnd, now: Time) returns (r: Result<Job, NodeError>)
      requires ValidRecords(jobs) && worker.Busy?
      modifies this, store
      ensures (View(), r) == EndNode(old(View()), end, now)
    {
      hide Persist, ValidJob;
      var id, attemptId := worker.jobId, worker.attemptId;
      worker := Idle;
      if id !in jobs {
        return Err(Refused(JobNotFound));
      }
      var next := ApplyEventToRecord(id, EndEvent(jobs[id].state, end, now, attemptId));
      if next.Err? {
        stuck := stuck + {id};
        return Err(Broken(next.error));
      }
      return Ok(next.value);
    }

    method Submit(q: Request, now: Time, src: Source) returns (r: Result<Job, NodeError>)
      requires Constraints(store.Contents())
      modifies this, store
      ensures (View(), r) == SubmitNode(old(View()), q, now, src)
    {
      hide Candidate, RecoverState, CreateResult, ValidJob, Constraints;
      if closed {
        return Err(Refused(RunnerClosed));
      }
      var built := Candidate(q, nextId, now);
      if built.Err? {
        return Err(Refused(Rejected(built.error)));
      }
      var candidate := built.value;
      nextId := nextId + 1;
      if q.idempotencyKey in index {
        var existingId := index[q.idempotencyKey];
        if existingId !in jobs {
          return Err(Refused(JobNotFound));
        }
        var existing := jobs[existingId].state;
        if existing.kind != candidate.kind || existing.workspaceId != candidate.workspaceId
           || existing.taskVersion != candidate.taskVersion
           || existing.payload != candidate.payload
        {
          return Err(Refused(KeyConflict));
        }
        return Ok(existing);
      }
      var made := store.CreateOrGet(candidate);
      assert (store.Contents(), made) == CreateRow(old(store.Contents()), candidate);
      if made.Err? {
        return Err(if made.error.IdentityConflict? then Refused(KeyConflict)
                   else Broken(Storage(made.error)));
      }
      var recovered := RecoverPersistedState(made.value, src);
      if recovered.Err? {
        return Err(Broken(recovered.error));
      }
      var state := recovered.value;
      if state.status.Pending? {
        jobs := jobs[state.jobId := Record(state, false)];
        index := index[state.idempotencyKey := state.jobId];
        queue := queue + [state.jobId];
      }
      return Ok(state);
    }
  }
}
