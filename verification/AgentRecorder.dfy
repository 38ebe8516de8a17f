/**
  The rows an agent run leaves while it is recorded, crashed, recovered and resumed: its steps,
  their numbered messages, its numbered tool calls, and the checkpointed number of model turns.
 */
module AgentRecorder {
  import opened Common
  import opened Events

  datatype StepStatus =
    | StepPending | StepRunning | StepDone | StepMaxSteps | StepTimedOut | StepCancelled | StepFailed

  /** A step and the sequence numbers of its messages, in the order they were written. */
  datatype Step = Step(status: StepStatus, messages: seq<nat>)

  datatype Rows = Rows(
    status: RunStatus, modelTurns: nat, steps: map<nat, Step>, tools: seq<nat>, modelRuns: nat)

  datatype RecorderError = RunEnded | StepClosed | StepMissing | NumberTaken

  const NEW_RUN := Rows(Pending, 0, map[], [], 0)

  // ---- single commits ----

  predicate Resumable(status: RunStatus) {
    status.Cancelled? || status.Failed? || status.TimedOut? || status.MaxStepsReached?
  }

  function QueuedResume(r: Rows): Option<Rows> {
    if Resumable(r.status) then Some(r.(status := Pending)) else None
  }

  function StartedRun(r: Rows): Result<Rows, RecorderError> {
    if r.status.Pending? || r.status.Running? then Ok(r.(status := Running)) else Err(RunEnded)
  }

  /** A new step is created pending, a failed one reopened; a closed one is refused. */
  function OpenedStep(r: Rows, index: nat): Result<Rows, RecorderError> {
    if index !in r.steps then Ok(r.(steps := r.steps[index := Step(StepPending, [])]))
    else
      var s := r.steps[index];
      if s.status.StepPending? || s.status.StepRunning? then Ok(r)
      else if s.status.StepFailed? then Ok(r.(steps := r.steps[index := s.(status := StepPending)]))
      else Err(StepClosed)
  }

  function PromotedStep(r: Rows, index: nat): Result<Rows, RecorderError> {
    if index !in r.steps then Err(StepMissing)
    else if r.steps[index].status.StepPending? then
      Ok(r.(steps := r.steps[index := r.steps[index].(status := StepRunning)]))
    else if r.steps[index].status.StepRunning? then Ok(r)
    else Err(StepClosed)
  }

  function MaxOf(numbers: seq<nat>): int {
    if numbers == [] then -1
    else if Last(numbers) > MaxOf(numbers[..|numbers| - 1]) then Last(numbers)
    else MaxOf(numbers[..|numbers| - 1])
  }

  lemma {:induction false} MaxIs(numbers: seq<nat>)
    ensures forall i :: 0 <= i < |numbers| ==> numbers[i] <= MaxOf(numbers)
    ensures MaxOf(numbers) == -1 || (MaxOf(numbers) >= 0 && MaxOf(numbers) in numbers)
  {
    if numbers != [] {
      MaxIs(numbers[..|numbers| - 1]);
      assert numbers == numbers[..|numbers| - 1] + [Last(numbers)];
    }
  }

  function AddedMessage(r: Rows, index: nat, sequenceNo: nat): Result<Rows, RecorderError> {
    if index !in r.steps then Err(StepMissing)
    else
      var s := r.steps[index];
      if sequenceNo in s.messages then Err(NumberTaken)
      else Ok(r.(steps := r.steps[index := s.(messages := s.messages + [sequenceNo])]))
  }

  function StartedCall(r: Rows, sequenceNo: nat): Result<Rows, RecorderError> {
    if sequenceNo in r.tools then Err(NumberTaken) else Ok(r.(tools := r.tools + [sequenceNo]))
  }

  function Checkpointed(r: Rows, modelTurns: nat): Rows {
    r.(modelTurns := modelTurns)
  }

  function FinishedStep(r: Rows, index: nat, status: StepStatus): Result<Rows, RecorderError> {
    if index !in r.steps then Err(StepMissing)
    else if r.steps[index].status.StepPending? || r.steps[index].status.StepRunning? then
      Ok(r.(steps := r.steps[index := r.steps[index].(status := status)]))
    else Err(StepClosed)
  }

  function FinishedRun(r: Rows, status: RunStatus, modelTurns: nat): Rows {
    r.(status := status, modelTurns := modelTurns)
  }

  /** The recorder over its rows: every method commits once, `StartStep` twice. */
  class SqlAlchemyAgentRunRecorder {
    var rows: Rows

    constructor ()
      ensures rows == NEW_RUN
    {
      rows := NEW_RUN;
    }

    method QueueResume() returns (queued: bool)
      modifies this
      ensures queued <==> QueuedResume(old(rows)).Some?
      ensures queued <==> old(rows).status.Cancelled? || old(rows).status.Failed?
                          || old(rows).status.TimedOut? || old(rows).status.MaxStepsReached?
      ensures rows == if queued then QueuedResume(old(rows)).value else old(rows)
      ensures rows == old(rows).(status := if queued then Pending else old(rows).status)
    {
      queued := Resumable(rows.status);
      if queued { rows := rows.(status := Pending); }
    }

    method StartExistingRun() returns (error: Option<RecorderError>)
      modifies this
      ensures error == if StartedRun(old(rows)).Err? then Some(StartedRun(old(rows)).error) else None
      ensures rows == if error.None? then StartedRun(old(rows)).value else old(rows)
      ensures error == if old(rows).status.Pending? || old(rows).status.Running? then None else Some(RunEnded)
      ensures rows == old(rows).(status := if error.None? then Running else old(rows).status)
    {
      if !rows.status.Pending? && !rows.status.Running? { return Some(RunEnded); }
      rows := rows.(status := Running);
      error := None;
    }

    method StartStep(index: nat) returns (error: Option<RecorderError>)
      modifies this
      ensures OpenedStep(old(rows), index).Err? ==>
                error == Some(OpenedStep(old(rows), index).error) && rows == old(rows)
      ensures OpenedStep(old(rows), index).Ok? ==>
                && error.None?
                && PromotedStep(OpenedStep(old(rows), index).value, index) == Ok(rows)
      ensures if index !in old(rows).steps then
                error.None? && rows == old(rows).(steps := old(rows).steps[index := Step(StepRunning, [])])
              else
                var s := old(rows).steps[index];
                if s.status.StepPending? || s.status.StepRunning? || s.status.StepFailed? then
                  error.None?
                  && rows == old(rows).(steps := old(rows).steps[index := s.(status := StepRunning)])
                else error == Some(StepClosed) && rows == old(rows)
    {
      if index in rows.steps {
        var existing := rows.steps[index];
        if existing.status.StepFailed? {
          rows := rows.(steps := rows.steps[index := existing.(status := StepPending)]);
        } else if !existing.status.StepPending? && !existing.status.StepRunning? {
          return Some(StepClosed);
        }
      } else {
        rows := rows.(steps := rows.steps[index := Step(StepPending, [])]);
      }
      error := PromoteStepToRunning(index);
    }

    method PromoteStepToRunning(index: nat) returns (error: Option<RecorderError>)
      modifies this
      ensures error == if PromotedStep(old(rows), index).Err?
                       then Some(PromotedStep(old(rows), index).error) else None
      ensures rows == if error.None? then PromotedStep(old(rows), index).value else old(rows)
    {
      if index !in rows.steps { return Some(StepMissing); }
      var s := rows.steps[index];
      if s.status.StepPending? {
        rows := rows.(steps := rows.steps[index := s.(status := StepRunning)]);
      } else if !s.status.StepRunning? {
        return Some(StepClosed);
      }
      error := None;
    }

    method NextMessageSequence(index: nat) returns (r: Result<nat, RecorderError>)
      ensures r == if index in rows.steps then Ok(MaxOf(rows.steps[index].messages) + 1) else Err(StepMissing)
      ensures r.Ok? ==>
                && index in rows.steps
                && (forall i :: 0 <= i < |rows.steps[index].messages| ==> rows.steps[index].messages[i] < r.value)
                && (r.value == 0 || r.value - 1 in rows.steps[index].messages)
    {
      if index !in rows.steps { return Err(StepMissing); }
      var latest: int := -1;
      var numbers := rows.steps[index].messages;
      for i := 0 to |numbers|
        invariant latest == MaxOf(numbers[..i])
      {
        assert numbers[..i + 1][..i] == numbers[..i];
        if numbers[i] > latest { latest := numbers[i]; }
      }
      assert numbers[..|numbers|] == numbers;
      MaxIs(numbers);
      r := Ok(latest + 1);
    }

    method AddMessage(index: nat, sequenceNo: nat) returns (error: Option<RecorderError>)
      modifies this
      ensures error == if AddedMessage(old(rows), index, sequenceNo).Err?
                       then Some(AddedMessage(old(rows), index, sequenceNo).error) else None
      ensures rows == if error.None? then AddedMessage(old(rows), index, sequenceNo).value else old(rows)
      ensures if index !in old(rows).steps then error == Some(StepMissing)
              else if sequenceNo in old(rows).steps[index].messages then error == Some(NumberTaken)
              else
                var s := old(rows).steps[index];
                error.None? && rows == old(rows).(steps := old(rows).steps[
                  index := Step(s.status, s.messages + [sequenceNo])])
    {
      if index !in rows.steps { return Some(StepMissing); }
      var s := rows.steps[index];
      if sequenceNo in s.messages { return Some(NumberTaken); }
      rows := rows.(steps := rows.steps[index := s.(messages := s.messages + [sequenceNo])]);
      error := None;
    }

    method StartToolCall(sequenceNo: nat) returns (error: Option<RecorderError>)
      modifies this
      ensures error == if sequenceNo in old(rows).tools then Some(NumberTaken) else None
      ensures rows == if error.None? then StartedCall(old(rows), sequenceNo).value else old(rows)
      ensures rows.tools == old(rows).tools + if error.None? then [sequenceNo] else []
      ensures rows == old(rows).(tools := rows.tools)
    {
      if sequenceNo in rows.tools { return Some(NumberTaken); }
      rows := rows.(tools := rows.tools + [sequenceNo]);
      error := None;
    }

    method CheckpointRun(modelTurns: nat)
      modifies this
      ensures rows == Checkpointed(old(rows), modelTurns)
      ensures rows.modelTurns == modelTurns && rows == old(rows).(modelTurns := rows.modelTurns)
    {
      rows := rows.(modelTurns := modelTurns);
    }

    method FinishStep(index: nat, status: StepStatus) returns (error: Option<RecorderError>)
      modifies this
      ensures error == if FinishedStep(old(rows), index, status).Err?
                       then Some(FinishedStep(old(rows), index, status).error) else None
      ensures rows == if error.None? then FinishedStep(old(rows), index, status).value else old(rows)
      ensures if index !in old(rows).steps then error == Some(StepMissing)
              else
                var s := old(rows).steps[index];
                if s.status.StepPending? || s.status.StepRunning? then
                  error.None?
                  && rows == old(rows).(steps := old(rows).steps[index := Step(status, s.messages)])
                else error == Some(StepClosed)
    {
      if index !in rows.steps { return Some(StepMissing); }
      var s := rows.steps[index];
      if !s.status.StepPending? && !s.status.StepRunning? { return Some(StepClosed); }
      rows := rows.(steps := rows.steps[index := s.(status := status)]);
      error := None;
    }

    method FinishRun(status: RunStatus, modelTurns: nat)
      modifies this
      ensures rows == FinishedRun(old(rows), status, modelTurns)
      ensures rows.status == status && rows.modelTurns == modelTurns
      ensures rows == old(rows).(status := rows.status, modelTurns := rows.modelTurns)
    {
      rows := rows.(status := status, modelTurns := modelTurns);
    }
  }

  // ---- a run's life: workers, crashes, recoveries, resumes ----

  /** Where the worker is in its loop, with the counters it holds in memory. */
  datatype Worker =
    | Idle
    | AtStep(turns: nat, tool: nat)
    | Opened(turns: nat, tool: nat)
    | Promoted(turns: nat, tool: nat)
    | Asking(turns: nat, tool: nat, next: nat)
    | Answered(turns: nat, tool: nat, next: nat)
    | Replied(turns: nat, tool: nat, next: nat)
    | Saved(turns: nat, tool: nat, next: nat)
    | CallNoted(turns: nat, tool: nat, next: nat)
    | CallStarted(turns: nat, tool: nat, next: nat)
    | Closed(turns: nat, tool: nat, end: RunStatus)

  datatype Life = Life(rows: Rows, worker: Worker)

  /** What happens next. `Work` does the worker's next commit; the others settle a choice. */
  datatype Move =
    | Work
    | RequestEnds(end: RunStatus)
    | TurnEnds(end: RunStatus)
    | Crash | Recover | Resume | Begin

  function StepEnd(end: RunStatus): StepStatus {
    match end
    case Completed => StepDone
    case MaxStepsReached => StepMaxSteps
    case TimedOut => StepTimedOut
    case Cancelled => StepCancelled
    case _ => StepFailed
  }

  /** An exception in the worker is caught once, and the run marked failed. */
  function MarkedFailed(r: Rows): Life {
    Life(FinishedRun(r, Failed, r.modelTurns), Idle)
  }

  function After(r: Result<Rows, RecorderError>, before: Rows, w: Worker): Life {
    if r.Ok? then Life(r.value, w) else MarkedFailed(before)
  }

  function DoWork(l: Life): Life {
    var r := l.rows;
    match l.worker
    case Idle => l
    case AtStep(turns, tool) => After(OpenedStep(r, turns), r, Opened(turns, tool))
    case Opened(turns, tool) => After(PromotedStep(r, turns), r, Promoted(turns, tool))
    case Promoted(turns, tool) =>
      if turns !in r.steps then MarkedFailed(r)
      else
        var next := MaxOf(r.steps[turns].messages) + 1;
        if next < 0 then MarkedFailed(r)
        else After(AddedMessage(r, turns, next), r, Asking(turns, tool, next + 1))
    case Asking(turns, tool, next) => Life(r.(modelRuns := r.modelRuns + 1), Answered(turns, tool, next))
    case Answered(turns, tool, next) => After(AddedMessage(r, turns, next), r, Replied(turns, tool, next + 1))
    case Replied(turns, tool, next) => Life(Checkpointed(r, turns + 1), Saved(turns, tool, next))
    case Saved(turns, tool, next) => After(AddedMessage(r, turns, next), r, CallNoted(turns, tool, next + 1))
    case CallNoted(turns, tool, next) => After(StartedCall(r, tool + 1), r, CallStarted(turns, tool + 1, next))
    case CallStarted(turns, tool, next) => After(AddedMessage(r, turns, next), r, Saved(turns, tool, next + 1))
    case Closed(turns, tool, end) =>
      if end.Running? then Life(r, AtStep(turns + 1, tool))
      else Life(FinishedRun(r, end, r.modelTurns), Idle)
  }

  predicate RequestEnd(end: RunStatus) { end.TimedOut? || end.Cancelled? || end.Failed? }

  /** A turn with a reply is over: the run goes on (`Running`) or ends here. */
  predicate TurnEnd(end: RunStatus) {
    end.Running? || end.Completed? || end.MaxStepsReached? || end.TimedOut? || end.Cancelled?
  }

  predicate Possible(l: Life, m: Move) {
    match m
    case Work => !l.worker.Idle?
    case RequestEnds(end) => l.worker.Asking? && RequestEnd(end)
    case TurnEnds(end) => l.worker.Saved? && TurnEnd(end)
    case Crash => !l.worker.Idle?
    case Recover => l.worker.Idle? && l.rows.status.Running?
    case Resume => l.worker.Idle? && Resumable(l.rows.status) && CanResume(l.rows)
    case Begin => l.worker.Idle? && l.rows.status.Pending?
  }

  function Moved(l: Life, m: Move): Life
    requires Possible(l, m)
  {
    var r, w := l.rows, l.worker;
    match m
    case Work => DoWork(l)
    case RequestEnds(end) => After(FinishedStep(r, w.turns, StepEnd(end)), r, Closed(w.turns, w.tool, end))
    case TurnEnds(end) =>
      After(FinishedStep(r, w.turns, if end.Running? then StepDone else StepEnd(end)), r,
            Closed(w.turns, w.tool, end))
    case Crash => Life(r, Idle)
    case Recover => MarkedFailed(r)
    case Resume => Life(QueuedResume(r).value, Idle)
    case Begin =>
      Life(StartedRun(r).value,
           AtStep(r.modelTurns, if r.tools == [] || MaxOf(r.tools) < 0 then 0 else MaxOf(r.tools)))
  }

  /** The recovery inspector's verdict on the rows. */
  predicate CanResume(r: Rows) {
    && (forall i :: 0 <= i < r.modelTurns ==> i in r.steps)
    && (forall i :: i in r.steps ==> Contiguous(r.steps[i].messages, 0))
    && (r.modelTurns > 0 ==> r.modelRuns > 0)
  }

  predicate Contiguous(numbers: seq<nat>, first: nat) {
    forall i :: 0 <= i < |numbers| ==> numbers[i] == first + i
  }

  ghost predicate IsLife(lives: seq<Life>, moves: seq<Move>) {
    && |lives| == |moves| + 1
    && lives[0] == Life(NEW_RUN, Idle)
    && forall i :: 0 <= i < |moves| ==> Possible(lives[i], moves[i]) && lives[i + 1] == Moved(lives[i], moves[i])
  }

  // ---- what every life keeps ----

  /** The steps are numbered without a gap: one per checkpointed turn, and at most one ahead. */
  predicate StepsSound(r: Rows) {
    && (forall i :: i in r.steps ==> i <= r.modelTurns)
    && (forall i :: 0 <= i < r.modelTurns ==> i in r.steps)
    && (forall i :: i in r.steps ==> Contiguous(r.steps[i].messages, 0))
    && (r.modelTurns in r.steps ==>
          !r.steps[r.modelTurns].status.StepDone? && !r.steps[r.modelTurns].status.StepMaxSteps?)
  }

  predicate Writing(r: Rows, turns: nat, next: nat) {
    && turns in r.steps && r.steps[turns].status.StepRunning?
    && |r.steps[turns].messages| == next
  }

  predicate WorkerSound(r: Rows, w: Worker) {
    && (!w.Idle? ==> r.status.Running?)
    && match w
       case Idle => true
       case AtStep(turns, tool) => turns == r.modelTurns && tool == |r.tools|
       case Opened(turns, tool) =>
         && turns == r.modelTurns && tool == |r.tools| && turns in r.steps
         && (r.steps[turns].status.StepPending? || r.steps[turns].status.StepRunning?)
       case Promoted(turns, tool) =>
         && turns == r.modelTurns && tool == |r.tools|
         && turns in r.steps && r.steps[turns].status.StepRunning?
       case Asking(turns, tool, next) => turns == r.modelTurns && tool == |r.tools| && Writing(r, turns, next)
       case Answered(turns, tool, next) =>
         turns == r.modelTurns && tool == |r.tools| && Writing(r, turns, next) && r.modelRuns > 0
       case Replied(turns, tool, next) =>
         turns == r.modelTurns && tool == |r.tools| && Writing(r, turns, next) && r.modelRuns > 0
       case Saved(turns, tool, next) =>
         turns + 1 == r.modelTurns && tool == |r.tools| && Writing(r, turns, next)
       case CallNoted(turns, tool, next) =>
         turns + 1 == r.modelTurns && tool == |r.tools| && Writing(r, turns, next)
       case CallStarted(turns, tool, next) =>
         turns + 1 == r.modelTurns && tool == |r.tools| && Writing(r, turns, next)
       case Closed(turns, tool, end) =>
         && tool == |r.tools| && !end.Pending? && !end.WaitingApproval?
         && (end.Running? ==> turns + 1 == r.modelTurns)
  }

  predicate LifeSound(l: Life) {
    && StepsSound(l.rows)
    && Contiguous(l.rows.tools, 1)
    && (l.rows.modelTurns > 0 ==> l.rows.modelRuns > 0)
    && !l.rows.status.WaitingApproval?
    && WorkerSound(l.rows, l.worker)
  }

  lemma {:induction false} MaxOfContiguous(numbers: seq<nat>, first: nat)
    requires Contiguous(numbers, first)
    ensures MaxOf(numbers) == if numbers == [] then -1 else first + |numbers| - 1
  {
    if numbers != [] { MaxOfContiguous(numbers[..|numbers| - 1], first); }
  }

  /** Everything of the rows but the steps. */
  predicate SameBeside(r: Rows, r': Rows) {
    && r'.status == r.status && r'.modelTurns == r.modelTurns
    && r'.tools == r.tools && r'.modelRuns == r.modelRuns
  }

  lemma MessageFollows(r: Rows, index: nat, next: nat)
    requires StepsSound(r) && Writing(r, index, next)
    ensures var r' := AddedMessage(r, index, next);
            && r'.Ok? && StepsSound(r'.value) && Writing(r'.value, index, next + 1)
            && SameBeside(r, r'.value)
  {
  }

  lemma OpenIsSound(r: Rows)
    requires StepsSound(r)
    ensures var start := OpenedStep(r, r.modelTurns);
            start.Ok? ==>
              && StepsSound(start.value) && SameBeside(r, start.value)
              && r.modelTurns in start.value.steps
              && (start.value.steps[r.modelTurns].status.StepPending?
                  || start.value.steps[r.modelTurns].status.StepRunning?)
  {
  }

  lemma PromoteIsSound(r: Rows, index: nat)
    requires StepsSound(r) && index in r.steps
    requires r.steps[index].status.StepPending? || r.steps[index].status.StepRunning?
    ensures var promoted := PromotedStep(r, index);
            && promoted.Ok? && StepsSound(promoted.value) && SameBeside(r, promoted.value)
            && index in promoted.value.steps && promoted.value.steps[index].status.StepRunning?
  {
  }

  lemma InputFollows(r: Rows, index: nat)
    requires StepsSound(r) && index in r.steps && r.steps[index].status.StepRunning?
    ensures MaxOf(r.steps[index].messages) + 1 == |r.steps[index].messages|
    ensures Writing(r, index, |r.steps[index].messages|)
  {
    MaxOfContiguous(r.steps[index].messages, 0);
  }

  lemma CheckpointIsSound(r: Rows, next: nat)
    requires StepsSound(r) && Writing(r, r.modelTurns, next)
    ensures StepsSound(Checkpointed(r, r.modelTurns + 1))
    ensures Writing(Checkpointed(r, r.modelTurns + 1), r.modelTurns, next)
  {
  }

  lemma FinishIsSound(r: Rows, index: nat, next: nat, status: StepStatus)
    requires StepsSound(r) && Writing(r, index, next)
    requires index == r.modelTurns ==> !status.StepDone? && !status.StepMaxSteps?
    ensures var finished := FinishedStep(r, index, status);
            finished.Ok? && StepsSound(finished.value) && SameBeside(r, finished.value)
  {
  }

  lemma StepsElsewhere(r: Rows, r': Rows)
    requires StepsSound(r) && r'.steps == r.steps && r'.modelTurns == r.modelTurns
    ensures StepsSound(r')
    ensures forall i, next :: Writing(r, i, next) ==> Writing(r', i, next)
  {
  }

  /** Rows that differ only beside the steps are as sound. */
  lemma FailingIsSound(l: Life)
    requires LifeSound(l)
    ensures LifeSound(MarkedFailed(l.rows))
  {
    StepsElsewhere(l.rows, MarkedFailed(l.rows).rows);
  }

  lemma WorkKeepsLife(l: Life)
    requires LifeSound(l) && !l.worker.Idle?
    ensures LifeSound(DoWork(l))
  {
    hide StepsSound, Writing, AddedMessage, OpenedStep, PromotedStep, MaxOf;
    var r, r' := l.rows, DoWork(l).rows;
    match l.worker
    case AtStep(turns, _) => OpenIsSound(r); FailingIsSound(l);
    case Opened(turns, _) => PromoteIsSound(r, turns);
    case Promoted(turns, _) =>
      InputFollows(r, turns);
      MessageFollows(r, turns, |r.steps[turns].messages|);
    case Asking(turns, _, next) => StepsElsewhere(r, r');
    case Answered(turns, _, next) => MessageFollows(r, turns, next);
    case Replied(turns, _, next) => CheckpointIsSound(r, next);
    case Saved(turns, _, next) => MessageFollows(r, turns, next);
    case CallNoted(turns, _, next) => StepsElsewhere(r, r');
    case CallStarted(turns, _, next) => MessageFollows(r, turns, next);
    case Closed(turns, _, end) => StepsElsewhere(r, r');
  }

  lemma MoveKeepsLife(l: Life, m: Move)
    requires LifeSound(l) && Possible(l, m)
    ensures LifeSound(Moved(l, m))
  {
    hide StepsSound, Writing, FinishedStep, DoWork, MaxOf;
    var r, w := l.rows, l.worker;
    match m
    case Work => WorkKeepsLife(l);
    case RequestEnds(end) => FinishIsSound(r, w.turns, w.next, StepEnd(end));
    case TurnEnds(end) =>
      FinishIsSound(r, w.turns, w.next, if end.Running? then StepDone else StepEnd(end));
    case Crash =>
    case Recover => FailingIsSound(l);
    case Resume => StepsElsewhere(r, Moved(l, m).rows);
    case Begin =>
      StepsElsewhere(r, Moved(l, m).rows);
      MaxOfContiguous(r.tools, 1);
  }

  /** The end of a turn that closes its step with this status. */
  predicate Closes(end: RunStatus, status: StepStatus) {
    match status
    case StepDone => end.Completed? || end.Running?
    case StepMaxSteps => end.MaxStepsReached?
    case StepTimedOut => end.TimedOut?
    case StepCancelled => end.Cancelled?
    case StepFailed => end.Failed?
    case _ => false
  }

  /** A turn that ends closes its own step alike; then the run ends alike too, or its next step begins. */
  lemma EndIsRecorded(l: Life, m: Move, end: RunStatus)
    requires LifeSound(l) && Possible(l, m) && (m == RequestEnds(end) || m == TurnEnds(end))
    ensures var turns, l' := l.worker.turns, Moved(l, m);
            && turns in l.rows.steps && turns in l'.rows.steps
            && l'.worker == Closed(turns, l.worker.tool, end)
            && Closes(end, l'.rows.steps[turns].status)
            && l'.rows == l.rows.(steps := l.rows.steps[
                            turns := Step(l'.rows.steps[turns].status, l.rows.steps[turns].messages)])
            && Moved(l', Work) == (if end.Running? then Life(l'.rows, AtStep(turns + 1, l.worker.tool))
                                   else Life(l'.rows.(status := end), Idle))
  {
  }

  lemma {:induction false} LivesAreSound(lives: seq<Life>, moves: seq<Move>, i: nat)
    requires IsLife(lives, moves) && i < |lives|
    ensures LifeSound(lives[i])
  {
    hide LifeSound, Moved, Possible;
    if i == 0 {
      NewRunIsSound();
    } else {
      LivesAreSound(lives, moves, i - 1);
      MoveKeepsLife(lives[i - 1], moves[i - 1]);
    }
  }

  lemma NewRunIsSound()
    ensures LifeSound(Life(NEW_RUN, Idle))
  {
  }

  ghost predicate StepsUpTo(r: Rows, n: nat) {
    forall k :: k in r.steps <==> 0 <= k < n
  }

  /**
    Whatever crashed and however often: steps, messages and tool calls stay numbered without a gap,
    so the inspector lets every resumable run be resumed.
   */
  lemma NumbersNeverGap(lives: seq<Life>, moves: seq<Move>, i: nat)
    requires IsLife(lives, moves) && i < |lives|
    ensures var r := lives[i].rows;
            && (exists n :: r.modelTurns <= n <= r.modelTurns + 1 && StepsUpTo(r, n))
            && (forall k :: k in r.steps ==> Contiguous(r.steps[k].messages, 0))
            && Contiguous(r.tools, 1)
            && (r.modelTurns > 0 ==> r.modelRuns > 0)
            && CanResume(r)
  {
    LivesAreSound(lives, moves, i);
    var r := lives[i].rows;
    assert StepsUpTo(r, if r.modelTurns in r.steps then r.modelTurns + 1 else r.modelTurns);
  }

  // ---- resuming at a leftover step ----

  /** The step a resumed worker starts at exists already: its turn got no checkpointed reply. */
  predicate Leftover(r: Rows) { r.modelTurns in r.steps }

  predicate ClosedWithoutReply(r: Rows) {
    Leftover(r) && (r.steps[r.modelTurns].status.StepCancelled? || r.steps[r.modelTurns].status.StepTimedOut?)
  }

  /**
    A worker about to start a turn is let in exactly when that turn's step was not closed as
    cancelled or timed out before it had a reply.
   */
  lemma StepAcceptedExactly(lives: seq<Life>, moves: seq<Move>, i: nat)
    requires IsLife(lives, moves) && i < |lives| && lives[i].worker.AtStep?
    ensures lives[i].worker.turns == lives[i].rows.modelTurns
    ensures Moved(lives[i], Work).worker.Opened? <==> !ClosedWithoutReply(lives[i].rows)
    ensures ClosedWithoutReply(lives[i].rows) ==> Moved(lives[i], Work) == MarkedFailed(lives[i].rows)
  {
    LivesAreSound(lives, moves, i);
  }

  /** Once a turn's step is closed without a reply, no move gets the run past it. */
  lemma ClosedStepStays(l: Life, m: Move)
    requires LifeSound(l) && Possible(l, m)
    requires ClosedWithoutReply(l.rows) && (l.worker.Idle? || l.worker.AtStep? || EndsClosed(l))
    ensures var l' := Moved(l, m);
            && ClosedWithoutReply(l'.rows) && (l'.worker.Idle? || l'.worker.AtStep? || EndsClosed(l'))
            && l'.rows.steps == l.rows.steps && l'.rows.modelTurns == l.rows.modelTurns
            && l'.rows.tools == l.rows.tools
  {
  }

  /** The worker that closed the step has only the run left to close. */
  predicate EndsClosed(l: Life) {
    l.worker.Closed? && !l.worker.end.Running?
  }

  /** From then on every resume of the run ends in the same refusal, for good. */
  lemma {:induction false} StuckForGood(lives: seq<Life>, moves: seq<Move>, i: nat, k: nat)
    requires IsLife(lives, moves) && i <= k < |lives|
    requires ClosedWithoutReply(lives[i].rows) && lives[i].worker.Idle?
    ensures lives[k].rows.steps == lives[i].rows.steps
    ensures lives[k].rows.modelTurns == lives[i].rows.modelTurns
    ensures ClosedWithoutReply(lives[k].rows)
    ensures lives[k].worker.Idle? || lives[k].worker.AtStep? || EndsClosed(lives[k])
    decreases k
  {
    hide LifeSound, Moved, Possible;
    if i < k {
      StuckForGood(lives, moves, i, k - 1);
      LivesAreSound(lives, moves, k - 1);
      ClosedStepStays(lives[k - 1], moves[k - 1]);
    }
  }

  /** It takes one cancellation before the first reply to get there. */
  lemma CancellingStrandsTheRun() returns (lives: seq<Life>, moves: seq<Move>)
    ensures IsLife(lives, moves)
    ensures Last(lives).worker.Idle? && Resumable(Last(lives).rows.status)
    ensures ClosedWithoutReply(Last(lives).rows) && CanResume(Last(lives).rows)
  {
    lives, moves := [Life(NEW_RUN, Idle)], [];
    lives, moves := Extended(lives, moves, Begin);
    assert Last(lives) == Life(Rows(Running, 0, map[], [], 0), AtStep(0, 0));
    lives, moves := Extended(lives, moves, Work);
    assert Last(lives) == Life(Rows(Running, 0, map[0 := Step(StepPending, [])], [], 0), Opened(0, 0));
    lives, moves := Extended(lives, moves, Work);
    assert Last(lives) == Life(Rows(Running, 0, map[0 := Step(StepRunning, [])], [], 0), Promoted(0, 0));
    lives, moves := Extended(lives, moves, Work);
    assert Last(lives).rows.steps[0].status == StepRunning && Last(lives).worker == Asking(0, 0, 1);
    lives, moves := Extended(lives, moves, RequestEnds(Cancelled));
    lives, moves := Extended(lives, moves, Work);
    NumbersNeverGap(lives, moves, |lives| - 1);
  }

  lemma Extended(lives: seq<Life>, moves: seq<Move>, m: Move)
    returns (lives': seq<Life>, moves': seq<Move>)
    requires IsLife(lives, moves) && Possible(Last(lives), m)
    ensures IsLife(lives', moves') && Last(lives') == Moved(Last(lives), m)
  {
    hide Moved, Possible;
    lives', moves' := lives + [Moved(Last(lives), m)], moves + [m];
    forall i | 0 <= i < |moves'|
      ensures Possible(lives'[i], moves'[i]) && lives'[i + 1] == Moved(lives'[i], moves'[i])
    {
      assert lives'[i] == lives[i];
    }
  }
}
