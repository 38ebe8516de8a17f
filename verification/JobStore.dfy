/**
  The job store: one row per job, one row per attempt, and a compare-and-set on the revision.

  Saving writes only the columns a transition may change; the others are compared with the
  submitted state first. The class updates its tables in place; `SaveResult` and `CreateResult`
  say what each call does to their contents.
 */
module JobStore {
  import opened Common
  import opened JobSystem
  import opened JobRuns

  datatype StoreError =
    | RevisionNotNext
    | NewJobRequired
    | NotFound
    | IdentityConflict
    | AttemptConflict
    | RevisionConflict
    | PayloadError
    | StoreFailure

  /** A row of the job table; its primary key is the key of the map that holds it. */
  datatype JobRow = JobRow(
    kind: JobKind,
    taskVersion: string,
    workspaceId: int,
    payload: Payload,
    payloadHash: Digest,
    idempotencyKey: string,
    status: JobStatus,
    maxAttempts: int,
    revision: int,
    createdAt: Time,
    cancelRequestedAt: Option<Time>,
    finishedAt: Option<Time>,
    errorCode: Option<string>)

  datatype AttemptRow = AttemptRow(
    attemptId: Uuid,
    jobId: Uuid,
    attemptNo: int,
    status: AttemptStatus,
    completedUnits: int,
    totalUnits: Option<int>,
    phaseCode: string,
    startedAt: Time,
    finishedAt: Option<Time>,
    errorCode: Option<string>,
    retryable: bool)

  /** Both tables; the attempts of a job are listed by attempt number. */
  datatype Db = Db(jobs: map<Uuid, JobRow>, attempts: map<Uuid, seq<AttemptRow>>)

  function AttemptsOf(db: Db, id: Uuid): seq<AttemptRow> {
    if id in db.attempts then db.attempts[id] else []
  }

  /** The unique constraint on the idempotency key and the foreign key of the attempt table. */
  ghost predicate Constraints(db: Db) {
    && db.attempts.Keys <= db.jobs.Keys
    && (forall a, b | a in db.jobs && b in db.jobs && a != b ::
          db.jobs[a].idempotencyKey != db.jobs[b].idempotencyKey)
  }

  // ---------------------------------------------------------------- encoding and decoding

  function NewJobRow(s: Job): JobRow {
    JobRow(s.kind, s.taskVersion, s.workspaceId, s.payload,
           if s.payloadHash.Some? then s.payloadHash.value else Digest(s.payload),
           s.idempotencyKey, s.status, s.maxAttempts, s.revision, s.createdAt,
           s.cancelRequestedAt, s.finishedAt, s.errorCode)
  }

  function NewAttemptRow(a: Attempt): AttemptRow {
    AttemptRow(a.attemptId, a.jobId, a.attemptNo, a.status, a.progress.completed,
               a.progress.total, a.progress.phase, a.startedAt, a.finishedAt, a.errorCode,
               a.retryable)
  }

  function AttemptFromRow(row: AttemptRow): Attempt {
    Attempt(row.attemptId, row.jobId, row.attemptNo, row.status,
            Progress(row.completedUnits, row.totalUnits, row.phaseCode),
            row.startedAt, row.finishedAt, row.errorCode, row.retryable)
  }

  function StateFromRecords(id: Uuid, row: JobRow, rows: seq<AttemptRow>): Result<Job, StoreError> {
    match BuildJob(Job(id, row.kind, row.taskVersion, row.workspaceId, row.payload,
                       Some(row.payloadHash), row.idempotencyKey, row.status, row.maxAttempts,
                       row.revision, row.createdAt, row.cancelRequestedAt, row.finishedAt,
                       row.errorCode,
                       seq(|rows|, i requires 0 <= i < |rows| => AttemptFromRow(rows[i]))))
    case Ok(state) => Ok(state)
    case Err(_) => Err(PayloadError)
  }

  function Load(db: Db, id: Uuid): Result<Job, StoreError> {
    if id in db.jobs then StateFromRecords(id, db.jobs[id], AttemptsOf(db, id)) else Err(NotFound)
  }

  // ---------------------------------------------------------------- checks before a save

  predicate SameIdentity(row: JobRow, s: Job) {
    && row.kind == s.kind
    && row.taskVersion == s.taskVersion
    && row.workspaceId == s.workspaceId
    && Some(row.payloadHash) == s.payloadHash
    && row.payload == s.payload
    && row.idempotencyKey == s.idempotencyKey
  }

  predicate SameStoredDefinition(row: JobRow, s: Job) {
    SameIdentity(row, s) && row.maxAttempts == s.maxAttempts && row.createdAt == s.createdAt
  }

  predicate SameAttemptIdentity(row: AttemptRow, a: Attempt) {
    && row.attemptNo == a.attemptNo
    && row.attemptId == a.attemptId
    && row.jobId == a.jobId
    && row.startedAt == a.startedAt
  }

  predicate CompatibleAttempts(rows: seq<AttemptRow>, incoming: seq<Attempt>) {
    && |rows| <= |incoming| <= |rows| + 1
    && forall i :: 0 <= i < |rows| ==> SameAttemptIdentity(rows[i], incoming[i])
  }

  // ---------------------------------------------------------------- what a save does

  function SavedJobRow(row: JobRow, s: Job): JobRow {
    row.(status := s.status, revision := s.revision, cancelRequestedAt := s.cancelRequestedAt,
         finishedAt := s.finishedAt, errorCode := s.errorCode)
  }

  function SavedAttemptRow(row: AttemptRow, a: Attempt): AttemptRow {
    row.(status := a.status, completedUnits := a.progress.completed,
         totalUnits := a.progress.total, phaseCode := a.progress.phase,
         finishedAt := a.finishedAt, errorCode := a.errorCode, retryable := a.retryable)
  }

  function SavedAttemptRows(rows: seq<AttemptRow>, incoming: seq<Attempt>): seq<AttemptRow> {
    seq(|incoming|, i requires 0 <= i < |incoming| =>
      if i < |rows| then SavedAttemptRow(rows[i], incoming[i]) else NewAttemptRow(incoming[i]))
  }

  function Saved(db: Db, s: Job): Db
    requires s.jobId in db.jobs
  {
    Db(db.jobs[s.jobId := SavedJobRow(db.jobs[s.jobId], s)],
       db.attempts[s.jobId := SavedAttemptRows(AttemptsOf(db, s.jobId), s.attempts)])
  }

  function SaveResult(db: Db, expectedRevision: int, s: Job): (Db, Result<Job, StoreError>) {
    if expectedRevision < 0 || s.revision != expectedRevision + 1 then (db, Err(RevisionNotNext))
    else if s.jobId !in db.jobs then (db, Err(NotFound))
    else if !SameStoredDefinition(db.jobs[s.jobId], s) then (db, Err(IdentityConflict))
    else if !CompatibleAttempts(AttemptsOf(db, s.jobId), s.attempts) then (db, Err(AttemptConflict))
    else if db.jobs[s.jobId].revision != expectedRevision then (db, Err(RevisionConflict))
    else (Saved(db, s), Load(Saved(db, s), s.jobId))
  }

  /** Whenever the checks let a save through, the rows decode to exactly the submitted state. */
  lemma SaveRoundTrips(db: Db, expectedRevision: int, s: Job)
    requires ValidJob(s)
    ensures var (db', r) := SaveResult(db, expectedRevision, s);
            && (r.Ok? ==>
                  && r.value == s
                  && Load(db', s.jobId) == Ok(s)
                  && (forall id :: id != s.jobId ==> Load(db', id) == Load(db, id))
                  && db.jobs[s.jobId].revision == expectedRevision == s.revision - 1)
            && (r.Err? ==> db' == db && r.error != PayloadError)
  {
    var (db', r) := SaveResult(db, expectedRevision, s);
    if db' != db || r.Ok? {
      var rows := AttemptsOf(db', s.jobId);
      var decoded := seq(|rows|, i requires 0 <= i < |rows| => AttemptFromRow(rows[i]));
      forall i | 0 <= i < |s.attempts| ensures decoded[i] == s.attempts[i] {
      }
      assert decoded == s.attempts;
    } else if s.jobId in db.jobs && CompatibleAttempts(AttemptsOf(db, s.jobId), s.attempts) {
      var rows := SavedAttemptRows(AttemptsOf(db, s.jobId), s.attempts);
      assert seq(|rows|, i requires 0 <= i < |rows| => AttemptFromRow(rows[i])) == s.attempts;
    }
  }

  // ---------------------------------------------------------------- what a create does

  ghost function FindByKey(db: Db, key: string): Option<Uuid> {
    if exists id :: id in db.jobs && db.jobs[id].idempotencyKey == key then
      var id :| id in db.jobs && db.jobs[id].idempotencyKey == key;
      Some(id)
    else None
  }

  ghost function CreateResult(db: Db, candidate: Job): (Db, Result<Job, StoreError>) {
    if !candidate.status.Pending? || candidate.revision != 0 || candidate.attempts != [] then
      (db, Err(NewJobRequired))
    else match FindByKey(db, candidate.idempotencyKey)
      case Some(id) =>
        (db, if SameIdentity(db.jobs[id], candidate) then Load(db, id) else Err(IdentityConflict))
      case None =>
        if candidate.jobId in db.jobs then (db, Err(StoreFailure))
        else
          var db' := db.(jobs := db.jobs[candidate.jobId := NewJobRow(candidate)]);
          (db', Load(db', candidate.jobId))
  }

  /** A new row decodes to the candidate; a repeated key changes nothing and never forks a job. */
  lemma CreateRoundTrips(db: Db, candidate: Job)
    requires Constraints(db) && ValidJob(candidate)
    ensures var (db', r) := CreateResult(db, candidate);
            && Constraints(db')
            && (forall id :: id != candidate.jobId ==> Load(db', id) == Load(db, id))
            && (db' != db ==>
                  NewJob(candidate) && r == Ok(candidate) && Load(db', candidate.jobId) == r
                  && candidate.jobId !in db.jobs && db'.jobs.Keys == db.jobs.Keys + {candidate.jobId})
            && (db' == db && r.Ok? ==>
                  exists id :: id in db.jobs && Load(db, id) == r
                               && db.jobs[id].idempotencyKey == candidate.idempotencyKey
                               && SameIdentity(db.jobs[id], candidate))
  {
    var (db', r) := CreateResult(db, candidate);
    if NewJob(candidate) && FindByKey(db, candidate.idempotencyKey).None?
       && candidate.jobId !in db.jobs
    {
      assert AttemptsOf(db', candidate.jobId) == [];
      assert db'.jobs[candidate.jobId] == NewJobRow(candidate);
      assert db' != db;
    }
  }

  /** The stored job `s` is the one a request for `candidate` means: only ids and dates may differ. */
  predicate SameJob(s: Job, candidate: Job) {
    && s.kind == candidate.kind && s.taskVersion == candidate.taskVersion
    && s.workspaceId == candidate.workspaceId && s.payload == candidate.payload
    && s.idempotencyKey == candidate.idempotencyKey
  }

  lemma IdentityIs(db: Db, id: Uuid, candidate: Job)
    requires Load(db, id).Ok? && ValidJob(candidate)
    ensures id in db.jobs && ValidJob(Load(db, id).value) && Load(db, id).value.jobId == id
    ensures db.jobs[id].idempotencyKey == Load(db, id).value.idempotencyKey
    ensures db.jobs[id].idempotencyKey == candidate.idempotencyKey ==>
              (SameIdentity(db.jobs[id], candidate) <==> SameJob(Load(db, id).value, candidate))
  {
  }

  /**
    A repeated key answers the stored job as it stands, or is refused when it belongs to another
    job; either way no row changes. A key that is not stored gets one new row, for the candidate.
   */
  lemma CreateAnswers(db: Db, candidate: Job)
    requires Constraints(db) && NewJob(candidate)
    requires forall id :: id in db.jobs ==> Load(db, id).Ok?
    ensures var (db', r) := CreateResult(db, candidate);
            && (forall id :: id in db.jobs
                             && Load(db, id).value.idempotencyKey == candidate.idempotencyKey ==>
                  && db' == db
                  && r == if SameJob(Load(db, id).value, candidate) then Load(db, id)
                          else Err(IdentityConflict))
            && ((forall id :: id in db.jobs ==>
                   Load(db, id).value.idempotencyKey != candidate.idempotencyKey) ==>
                  if candidate.jobId in db.jobs then r == Err(StoreFailure) && db' == db
                  else
                    && r == Ok(candidate) && db'.jobs.Keys == db.jobs.Keys + {candidate.jobId}
                    && Load(db', candidate.jobId) == Ok(candidate)
                    && forall id :: id in db.jobs ==> Load(db', id) == Load(db, id))
  {
    hide Load, CreateResult, FindByKey, Constraints, NewJob, SameIdentity, SameJob;
    NewIsValid(candidate);
    CreateRoundTrips(db, candidate);
    forall id | id in db.jobs ensures db.jobs[id].idempotencyKey == Load(db, id).value.idempotencyKey {
      IdentityIs(db, id, candidate);
    }
    if id :| id in db.jobs && Load(db, id).value.idempotencyKey == candidate.idempotencyKey {
      RepeatAnswers(db, candidate, id);
      IdentityIs(db, id, candidate);
      forall other | other in db.jobs
                     && Load(db, other).value.idempotencyKey == candidate.idempotencyKey
        ensures other == id
      {
        OneOwner(db, id, other);
      }
    } else {
      NewKeyAnswers(db, candidate);
    }
  }

  /** Only a new job can be created. */
  lemma OnlyNewIsCreated(db: Db, candidate: Job)
    requires ValidJob(candidate) && !NewJob(candidate)
    ensures CreateResult(db, candidate) == (db, Err(NewJobRequired))
  {
    hide Lifecycle;
  }

  /** The attempts a save may bring: the stored ones, by identity, and at most one more. */
  predicate ContinuesAttempts(stored: seq<Attempt>, incoming: seq<Attempt>) {
    && |stored| <= |incoming| <= |stored| + 1
    && forall i :: 0 <= i < |stored| ==>
         && stored[i].attemptId == incoming[i].attemptId && stored[i].jobId == incoming[i].jobId
         && stored[i].attemptNo == incoming[i].attemptNo
         && stored[i].startedAt == incoming[i].startedAt
  }

  /** What a save answers, told on the state stored before it: each refusal has its own reason. */
  lemma SaveAnswers(db: Db, expectedRevision: int, s: Job)
    requires ValidJob(s)
    requires s.jobId in db.jobs ==> Load(db, s.jobId).Ok?
    ensures var r := SaveResult(db, expectedRevision, s).1;
            if expectedRevision < 0 || s.revision != expectedRevision + 1 then r == Err(RevisionNotNext)
            else if s.jobId !in db.jobs then r == Err(NotFound)
            else
              var stored := Load(db, s.jobId).value;
              if !SameDefinition(stored, s) then r == Err(IdentityConflict)
              else if !ContinuesAttempts(stored.attempts, s.attempts) then r == Err(AttemptConflict)
              else if stored.revision != expectedRevision then r == Err(RevisionConflict)
              else r == Ok(s)
  {
    SaveRoundTrips(db, expectedRevision, s);
    if s.jobId in db.jobs {
      LoadedRows(db, s.jobId, s);
    }
    hide Load, ValidJob, Saved, SameStoredDefinition, CompatibleAttempts, ContinuesAttempts;
  }

  lemma LoadedRows(db: Db, id: Uuid, s: Job)
    requires id in db.jobs && Load(db, id).Ok? && ValidJob(s) && s.jobId == id
    ensures var stored := Load(db, id).value;
            && (SameStoredDefinition(db.jobs[id], s) <==> SameDefinition(stored, s))
            && (CompatibleAttempts(AttemptsOf(db, id), s.attempts)
                <==> ContinuesAttempts(stored.attempts, s.attempts))
            && db.jobs[id].revision == stored.revision
  {
    var rows, stored := AttemptsOf(db, id), Load(db, id).value;
    assert |rows| == |stored.attempts|;
    assert forall i :: 0 <= i < |rows| ==> stored.attempts[i] == AttemptFromRow(rows[i]);
  }

  lemma NewIsValid(s: Job)
    requires NewJob(s)
    ensures ValidJob(s)
  {
  }

  lemma OneOwner(db: Db, a: Uuid, b: Uuid)
    requires Constraints(db) && a in db.jobs && b in db.jobs
    requires db.jobs[a].idempotencyKey == db.jobs[b].idempotencyKey
    ensures a == b
  {
  }

  lemma RepeatAnswers(db: Db, candidate: Job, id: Uuid)
    requires Constraints(db) && NewJob(candidate)
    requires id in db.jobs && db.jobs[id].idempotencyKey == candidate.idempotencyKey
    ensures CreateResult(db, candidate)
         == (db, if SameIdentity(db.jobs[id], candidate) then Load(db, id) else Err(IdentityConflict))
  {
    hide Load, ValidJob, SameIdentity;
    var found := FindByKey(db, candidate.idempotencyKey);
    assert found.Some?;
    OneOwner(db, id, found.value);
  }

  lemma NewKeyAnswers(db: Db, candidate: Job)
    requires Constraints(db) && NewJob(candidate)
    requires forall id :: id in db.jobs ==> db.jobs[id].idempotencyKey != candidate.idempotencyKey
    ensures var (db', r) := CreateResult(db, candidate);
            if candidate.jobId in db.jobs then (db', r) == (db, Err(StoreFailure))
            else db' != db && db'.jobs.Keys == db.jobs.Keys + {candidate.jobId}
  {
    hide Load, ValidJob;
    if candidate.jobId !in db.jobs {
      assert candidate.jobId in CreateResult(db, candidate).0.jobs;
    }
  }

  // ---------------------------------------------------------------- unfinished jobs

  predicate Older(a: Job, b: Job) {
    a.createdAt < b.createdAt || (a.createdAt == b.createdAt && a.jobId < b.jobId)
  }

  predicate OldestFirst(listed: seq<Job>) {
    forall i, k :: 0 <= i < k < |listed| ==> Older(listed[i], listed[k])
  }

  /** The unfinished jobs, each once, by creation time and then identity. */
  ghost predicate ListsUnfinished(db: Db, listed: seq<Job>) {
    && OldestFirst(listed)
    && (forall s :: s in listed ==> Load(db, s.jobId) == Ok(s) && !Terminal(s.status))
    && (forall id :: id in db.jobs && !Terminal(db.jobs[id].status) ==>
          exists s :: s in listed && s.jobId == id)
  }

  function InsertByAge(listed: seq<Job>, s: Job): seq<Job> {
    if listed == [] || Older(s, listed[0]) then [s] + listed
    else [listed[0]] + InsertByAge(listed[1..], s)
  }

  lemma {:induction false} InsertedByAge(listed: seq<Job>, s: Job)
    requires OldestFirst(listed) && forall t :: t in listed ==> t.jobId != s.jobId
    ensures OldestFirst(InsertByAge(listed, s))
    ensures forall t :: t in InsertByAge(listed, s) <==> t == s || t in listed
  {
    if listed != [] && !Older(s, listed[0]) {
      var rest := InsertByAge(listed[1..], s);
      InsertedByAge(listed[1..], s);
      assert listed == [listed[0]] + listed[1..];
      assert listed[0] in listed;
      forall k | 0 <= k < |rest| ensures Older(listed[0], rest[k]) {
        assert rest[k] in rest;
        if rest[k] != s {
          assert rest[k] in listed[1..];
        }
      }
    }
  }

  // ---------------------------------------------------------------- the store itself

  class SqlAlchemyJobStore {
    var jobs: map<Uuid, JobRow>
    var attempts: map<Uuid, seq<AttemptRow>>

    ghost function Contents(): Db
      reads this
    {
      Db(jobs, attempts)
    }

    constructor ()
      ensures Contents() == Db(map[], map[])
    {
      jobs, attempts := map[], map[];
    }

    method GetAttempts(id: Uuid) returns (rows: seq<AttemptRow>)
      ensures rows == AttemptsOf(Contents(), id)
    {
      rows := if id in attempts then attempts[id] else [];
    }

    method Get(id: Uuid) returns (r: Option<Result<Job, StoreError>>)
      ensures r.None? <==> id !in jobs
      ensures r.Some? ==> r.value == Load(Contents(), id)
    {
      if id !in jobs {
        return None;
      }
      var rows := GetAttempts(id);
      r := Some(StateFromRecords(id, jobs[id], rows));
    }

    method ListUnfinished() returns (r: Result<seq<Job>, StoreError>)
      ensures r.Ok? ==> ListsUnfinished(Contents(), r.value)
      ensures r.Ok? ==> forall i, k :: 0 <= i < k < |r.value| ==>
                && r.value[i].createdAt <= r.value[k].createdAt
                && (r.value[i].createdAt == r.value[k].createdAt ==> r.value[i].jobId < r.value[k].jobId)
      ensures r.Err? ==> exists id :: id in jobs && !Terminal(jobs[id].status)
                                      && Load(Contents(), id) == Err(r.error)
    {
      var listed: seq<Job> := [];
      var remaining := jobs.Keys;
      while remaining != {}
        invariant remaining <= jobs.Keys && OldestFirst(listed)
        invariant forall s :: s in listed ==>
                    && Load(Contents(), s.jobId) == Ok(s)
                    && !Terminal(s.status) && s.jobId !in remaining
        invariant forall id :: id in jobs && id !in remaining && !Terminal(jobs[id].status) ==>
                    exists s :: s in listed && s.jobId == id
        decreases remaining
      {
        var id :| id in remaining;
        remaining := remaining - {id};
        if !Terminal(jobs[id].status) {
          var rows := GetAttempts(id);
          var state := StateFromRecords(id, jobs[id], rows);
          if state.Err? {
            return Err(state.error);
          }
          InsertedByAge(listed, state.value);
          listed := InsertByAge(listed, state.value);
        }
      }
      return Ok(listed);
    }

    method CreateOrGet(candidate: Job) returns (r: Result<Job, StoreError>)
      requires Constraints(Contents())
      modifies this
      ensures (Contents(), r) == CreateResult(old(Contents()), candidate)
    {
      if !candidate.status.Pending? || candidate.revision != 0 || candidate.attempts != [] {
        return Err(NewJobRequired);
      }
      if id: Uuid :| id in jobs && jobs[id].idempotencyKey == candidate.idempotencyKey {
        if !SameIdentity(jobs[id], candidate) {
          return Err(IdentityConflict);
        }
        var rows := GetAttempts(id);
        return StateFromRecords(id, jobs[id], rows);
      }
      if candidate.jobId in jobs {
        return Err(StoreFailure);
      }
      jobs := jobs[candidate.jobId := NewJobRow(candidate)];
      var rows := GetAttempts(candidate.jobId);
      r := StateFromRecords(candidate.jobId, jobs[candidate.jobId], rows);
    }

    method RequireCompatibleAttempts(rows: seq<AttemptRow>, incoming: seq<Attempt>)
      returns (ok: bool)
      ensures ok <==> CompatibleAttempts(rows, incoming)
    {
      if !(|rows| <= |incoming| <= |rows| + 1) {
        return false;
      }
      for i := 0 to |rows|
        invariant forall k :: 0 <= k < i ==> SameAttemptIdentity(rows[k], incoming[k])
      {
        if !SameAttemptIdentity(rows[i], incoming[i]) {
          return false;
        }
      }
      return true;
    }

    method SaveAttempts(id: Uuid, rows: seq<AttemptRow>, incoming: seq<Attempt>)
      requires rows == AttemptsOf(Contents(), id) && |rows| <= |incoming|
      modifies this`attempts
      ensures attempts == old(attempts)[id := SavedAttemptRows(rows, incoming)]
    {
      var saved := rows;
      for i := 0 to |incoming|
        invariant |saved| == if i < |rows| then |rows| else i
        invariant forall k :: 0 <= k < i ==> saved[k] == SavedAttemptRows(rows, incoming)[k]
        invariant forall k :: i <= k < |rows| ==> saved[k] == rows[k]
      {
        if i < |rows| {
          saved := saved[i := SavedAttemptRow(saved[i], incoming[i])];
        } else {
          saved := saved + [NewAttemptRow(incoming[i])];
        }
      }
      assert saved == SavedAttemptRows(rows, incoming);
      attempts := attempts[id := saved];
    }

    method SaveTransition(expectedRevision: int, state: Job) returns (r: Result<Job, StoreError>)
      modifies this
      ensures (Contents(), r) == SaveResult(old(Contents()), expectedRevision, state)
    {
      if expectedRevision < 0 || state.revision != expectedRevision + 1 {
        return Err(RevisionNotNext);
      }
      if state.jobId !in jobs {
        return Err(NotFound);
      }
      var record := jobs[state.jobId];
      if !SameStoredDefinition(record, state) {
        return Err(IdentityConflict);
      }
      var rows := GetAttempts(state.jobId);
      var compatible := RequireCompatibleAttempts(rows, state.attempts);
      if !compatible {
        return Err(AttemptConflict);
      }
      if record.revision != expectedRevision {
        return Err(RevisionConflict);
      }
      jobs := jobs[state.jobId := SavedJobRow(record, state)];
      SaveAttempts(state.jobId, rows, state.attempts);
      rows := GetAttempts(state.jobId);
      r := StateFromRecords(state.jobId, jobs[state.jobId], rows);
    }
  }
}
