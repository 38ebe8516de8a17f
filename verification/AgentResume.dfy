/**
  The transcript of an agent run over crashes and resumes: what is checkpointed, what a resumed
  worker goes on from, which tool calls were made, and what the model is asked.

  A tool call acts before its result is checkpointed, and a resume goes on from the checkpoint by
  asking the model again; calls of the last turn that have no result are not made up for.
 */
module AgentResume {
  import opened Common
  import opened AgentLoop

  /** Where the worker is with the messages it holds; `done` calls of the reply are answered. */
  datatype Worker =
    | Idle
    | Asking(held: seq<Message>)
    | Replied(held: seq<Message>, reply: Response)
    | Answering(held: seq<Message>, reply: Response, done: nat)
    | Made(held: seq<Message>, reply: Response, done: nat)

  /** The checkpoint, and what is remembered for reasoning: calls made, requests sent. */
  datatype Run = Run(
    context: seq<Message>,
    modelTurns: nat,
    completed: bool,
    worker: Worker,
    made: seq<(nat, nat)>,
    asked: seq<seq<Message>>)

  datatype Move =
    | Ask | Reply(reply: Response) | Save
    | Make(answer: string) | NextTurn
    | End(status: Status) | Crash | Resume

  function NewRun(input: seq<Message>): Run {
    Run(input, 0, false, Idle, [], [])
  }

  /** How a run may end where its worker stands. */
  predicate MayEnd(w: Worker, status: Status) {
    match w
    case Asking(_) => status.TimedOut? || status.Cancelled? || status.Failed?
    case Answering(_, reply, done) =>
      || status.TimedOut? || status.Cancelled?
      || (status.Completed? && reply.finish.Stop?)
      || (status.MaxStepsReached? && reply.finish.ToolCalls? && done == 0)
    case _ => false
  }

  predicate Possible(r: Run, m: Move) {
    match m
    case Ask => r.worker.Asking?
    case Reply(reply) =>
      r.worker.Asking? && r.asked != [] && Last(r.asked) == r.worker.held && ValidResponse(reply)
    case Save => r.worker.Replied? || r.worker.Made?
    case Make(_) => r.worker.Answering? && r.worker.done < |Calls(r.worker.reply)|
    case NextTurn =>
      && r.worker.Answering? && r.worker.reply.finish.ToolCalls?
      && r.worker.done == |Calls(r.worker.reply)|
    case End(status) => MayEnd(r.worker, status)
    case Crash => !r.worker.Idle?
    case Resume => r.worker.Idle? && !r.completed
  }

  function Calls(reply: Response): seq<ToolCall> {
    if reply.message.Assistant? then reply.message.calls else []
  }

  function Moved(r: Run, m: Move): Run
    requires Possible(r, m)
  {
    var w := r.worker;
    match m
    case Ask => r.(asked := r.asked + [w.held])
    case Reply(reply) => r.(worker := Replied(w.held + [reply.message], reply))
    case Save =>
      if w.Replied? then
        r.(context := w.held, modelTurns := r.modelTurns + 1, worker := Answering(w.held, w.reply, 0))
      else r.(context := w.held, worker := Answering(w.held, w.reply, w.done + 1))
    case Make(answer) =>
      r.(worker := Made(w.held + [ToolResult(answer, Calls(w.reply)[w.done].id)], w.reply, w.done),
         made := r.made + [(r.modelTurns, w.done)])
    case NextTurn => r.(worker := Asking(w.held))
    case End(status) => r.(worker := Idle, completed := status.Completed?)
    case Crash => r.(worker := Idle)
    case Resume => r.(worker := Asking(r.context))
  }

  /** The input is a system or user message each, as the first request of a run is built. */
  predicate Plain(input: seq<Message>) {
    forall i :: 0 <= i < |input| ==> input[i].System? || input[i].User?
  }

  ghost predicate IsLife(input: seq<Message>, runs: seq<Run>, moves: seq<Move>) {
    && Plain(input) && |runs| == |moves| + 1 && runs[0] == NewRun(input)
    && forall i :: 0 <= i < |moves| ==> Possible(runs[i], moves[i]) && runs[i + 1] == Moved(runs[i], moves[i])
  }

  // ---- what every life keeps ----

  predicate InTurns(turns: seq<Turn>) {
    forall i :: 0 <= i < |turns| ==> AnswersPrefix(turns[i])
  }

  /** The call was made for a turn that asked for it, before or just after the results it has. */
  predicate MadeFor(turns: seq<Turn>, call: (nat, nat)) {
    && 1 <= call.0 <= |turns| && turns[call.0 - 1].reply.Assistant?
    && call.1 < |turns[call.0 - 1].reply.calls| && call.1 <= |turns[call.0 - 1].results|
  }

  predicate MadeOnce(turns: seq<Turn>, made: seq<(nat, nat)>) {
    && (forall i :: 0 <= i < |made| ==> MadeFor(turns, made[i]))
    && (forall i, k :: 0 <= i < k < |made| ==> made[i] != made[k])
    && (forall t, j :: 1 <= t <= |turns| && 0 <= j < |turns[t - 1].results| ==> (t, j) in made)
  }

  /** The worker is with the last turn, and has made no call of it beyond `upTo`. */
  predicate WorksOn(turns: seq<Turn>, made: seq<(nat, nat)>, reply: Response, done: nat, upTo: int) {
    && turns != [] && Last(turns).reply == reply.message && ValidResponse(reply)
    && |Last(turns).results| == done
    && forall i :: 0 <= i < |made| && made[i].0 == |turns| ==> made[i].1 < upTo
  }

  predicate WorkerFits(r: Run, turns: seq<Turn>) {
    match r.worker
    case Idle => true
    case Asking(held) => held == r.context
    case Replied(held, reply) => held == r.context + [reply.message] && ValidResponse(reply)
    case Answering(held, reply, done) =>
      held == r.context && WorksOn(turns, r.made, reply, done, done)
    case Made(held, reply, done) =>
      && WorksOn(turns, r.made, reply, done, done + 1)
      && done < |reply.message.calls| && (r.modelTurns, done) in r.made
      && |held| > 0 && held == r.context + [Last(held)]
      && Last(held).ToolResult? && Last(held).callId == reply.message.calls[done].id
  }

  /** The checkpoint is the input and whole turns, each answered in order as far as it is. */
  predicate Fits(input: seq<Message>, r: Run, turns: seq<Turn>) {
    && r.context == input + Rendered(turns) && |turns| == r.modelTurns && InTurns(turns)
    && MadeOnce(turns, r.made) && WorkerFits(r, turns)
  }

  lemma RenderedNext(turns: seq<Turn>, t: Turn)
    ensures Rendered(turns + [t]) == Rendered(turns) + [t.reply] + t.results
  {
    assert (turns + [t])[..|turns|] == turns;
  }

  /** The last turn with one more result. */
  function Answered(turns: seq<Turn>, result: Message): seq<Turn>
    requires turns != []
  {
    var last := Last(turns);
    turns[..|turns| - 1] + [last.(results := last.results + [result])]
  }

  lemma RenderedAnswer(turns: seq<Turn>, result: Message)
    requires turns != []
    ensures Rendered(Answered(turns, result)) == Rendered(turns) + [result]
  {
    var rest, last := turns[..|turns| - 1], Last(turns);
    RenderedNext(rest, last.(results := last.results + [result]));
  }

  lemma ReplyFits(input: seq<Message>, r: Run, turns: seq<Turn>)
    requires Fits(input, r, turns) && r.worker.Replied?
    ensures Fits(input, Moved(r, Save), turns + [Turn(r.worker.reply.message, [])])
  {
    var t := Turn(r.worker.reply.message, []);
    RenderedNext(turns, t);
    hide Rendered;
    var turns' := turns + [t];
    assert forall i :: 0 <= i < |turns| ==> turns'[i] == turns[i];
    assert forall i :: 0 <= i < |r.made| ==> MadeFor(turns, r.made[i]);
  }

  lemma AnswerFits(input: seq<Message>, r: Run, turns: seq<Turn>)
    requires Fits(input, r, turns) && r.worker.Made?
    ensures turns != [] && Fits(input, Moved(r, Save), Answered(turns, Last(r.worker.held)))
  {
    var result := Last(r.worker.held);
    RenderedAnswer(turns, result);
    hide Rendered, MadeOnce, InTurns;
    AnswerInTurns(r, turns, result);
    AnswerMade(r, turns, result);
  }

  lemma AnswerInTurns(r: Run, turns: seq<Turn>, result: Message)
    requires r.worker.Made? && InTurns(turns) && WorkerFits(r, turns) && result == Last(r.worker.held)
    ensures InTurns(Answered(turns, result))
  {
    hide MadeOnce;
    var turns' := Answered(turns, result);
    assert AnswersPrefix(turns[|turns| - 1]);
    assert forall i :: 0 <= i < |turns| - 1 ==> turns'[i] == turns[i];
  }

  lemma AnswerMade(r: Run, turns: seq<Turn>, result: Message)
    requires r.worker.Made? && MadeOnce(turns, r.made) && WorkerFits(r, turns)
    requires r.modelTurns == |turns|
    ensures MadeOnce(Answered(turns, result), r.made)
  {
    var turns' := Answered(turns, result);
    assert forall i :: 0 <= i < |turns| - 1 ==> turns'[i] == turns[i];
    assert forall i :: 0 <= i < |r.made| ==> MadeFor(turns, r.made[i]);
  }

  lemma MakeFits(input: seq<Message>, r: Run, turns: seq<Turn>, answer: string)
    requires Fits(input, r, turns) && Possible(r, Make(answer))
    ensures Fits(input, Moved(r, Make(answer)), turns)
  {
    hide Rendered;
    var call := (r.modelTurns, r.worker.done);
    assert call !in r.made;
  }

  /** The turns after a move: the same, one more, or one more result of the last. */
  function TurnsAfter(turns: seq<Turn>, r: Run, m: Move): seq<Turn> {
    if !m.Save? then turns
    else if r.worker.Replied? then turns + [Turn(r.worker.reply.message, [])]
    else if r.worker.Made? && turns != [] && r.worker.held != [] then Answered(turns, Last(r.worker.held))
    else turns
  }

  lemma MoveFits(input: seq<Message>, r: Run, turns: seq<Turn>, m: Move)
    requires Fits(input, r, turns) && Possible(r, m)
    ensures Fits(input, Moved(r, m), TurnsAfter(turns, r, m))
  {
    hide Rendered, MadeOnce, InTurns;
    match m
    case Save =>
      if r.worker.Replied? { ReplyFits(input, r, turns); } else { AnswerFits(input, r, turns); }
    case Make(answer) => MakeFits(input, r, turns, answer);
    case _ =>
  }

  /**
    However often a run crashed and was resumed: its checkpoint is the input and whole turns, the
    results of each answering its first calls in order, and it counts these turns.
   */
  lemma {:induction false} LivesFit(input: seq<Message>, runs: seq<Run>, moves: seq<Move>, i: nat)
    returns (turns: seq<Turn>)
    requires IsLife(input, runs, moves) && i < |runs|
    ensures Fits(input, runs[i], turns)
  {
    hide Fits, Moved, Possible, Plain;
    if i == 0 {
      turns := [];
      NewRunFits(input);
    } else {
      turns := LivesFit(input, runs, moves, i - 1);
      MoveFits(input, runs[i - 1], turns, moves[i - 1]);
      turns := TurnsAfter(turns, runs[i - 1], moves[i - 1]);
    }
  }

  lemma NewRunFits(input: seq<Message>)
    ensures Fits(input, NewRun(input), [])
  {
  }

  /** No crash and no resume takes back a checkpointed message. */
  lemma {:induction false} ContextGrows(input: seq<Message>, runs: seq<Run>, moves: seq<Move>,
                                        i: nat, k: nat)
    requires IsLife(input, runs, moves) && i <= k < |runs|
    ensures runs[i].context <= runs[k].context && runs[i].modelTurns <= runs[k].modelTurns
    decreases k
  {
    hide Plain, Fits, Moved, Possible;
    if i < k {
      ContextGrows(input, runs, moves, i, k - 1);
      var turns := LivesFit(input, runs, moves, k - 1);
      MoveGrows(input, runs[k - 1], turns, moves[k - 1]);
    }
  }

  lemma MoveGrows(input: seq<Message>, r: Run, turns: seq<Turn>, m: Move)
    requires Fits(input, r, turns) && Possible(r, m)
    ensures r.context <= Moved(r, m).context && r.modelTurns <= Moved(r, m).modelTurns
  {
    hide Rendered, MadeOnce, InTurns;
  }

  /**
    Each call of each turn is made at most once over all workers of the run, in its turn; a result
    is in the transcript only of a call that was made.
   */
  lemma CallsAreMadeOnce(input: seq<Message>, runs: seq<Run>, moves: seq<Move>, i: nat)
    returns (turns: seq<Turn>)
    requires IsLife(input, runs, moves) && i < |runs|
    ensures Fits(input, runs[i], turns) && MadeOnce(turns, runs[i].made)
  {
    turns := LivesFit(input, runs, moves, i);
  }

  /**
    Everything in a checkpoint came from outside, unchanged: a request asks with the checkpoint, a
    reply is added to it, and so is the answer to the next call of the reply, under its id.
   */
  lemma CheckpointsKeepWhatCame(input: seq<Message>, runs: seq<Run>, moves: seq<Move>, i: nat)
    requires IsLife(input, runs, moves) && i < |moves|
    ensures var r, m := runs[i], moves[i];
            && (m.Ask? ==> runs[i + 1].asked == r.asked + [r.context] && runs[i + 1].context == r.context)
            && (!m.Save? ==> runs[i + 1].context == r.context)
            && (m.Reply? && i + 1 < |moves| && moves[i + 1].Save? ==>
                  runs[i + 2].context == r.context + [m.reply.message])
            && (m.Make? && i + 1 < |moves| && moves[i + 1].Save? ==>
                  && r.worker.Answering? && r.worker.done < |r.worker.reply.message.calls|
                  && runs[i + 2].context
                     == r.context + [ToolResult(m.answer, r.worker.reply.message.calls[r.worker.done].id)])
  {
    hide Fits, InTurns, MadeOnce, Plain;
    var turns := LivesFit(input, runs, moves, i);
    WorkerHolds(input, runs[i], turns);
    assert Possible(runs[i], moves[i]) && runs[i + 1] == Moved(runs[i], moves[i]);
    if i + 1 < |moves| {
      assert runs[i + 2] == Moved(runs[i + 1], moves[i + 1]);
    }
  }

  lemma WorkerHolds(input: seq<Message>, r: Run, turns: seq<Turn>)
    requires Fits(input, r, turns)
    ensures r.worker.Asking? || r.worker.Answering? ==> r.worker.held == r.context
    ensures r.worker.Answering? ==> r.worker.reply.message.Assistant?
  {
    hide InTurns, MadeOnce, Rendered;
  }

  /** A completed run is over for good, and one that ended otherwise can be resumed. */
  lemma CompletedIsFinal(input: seq<Message>, runs: seq<Run>, moves: seq<Move>, i: nat)
    requires IsLife(input, runs, moves) && i < |moves| && moves[i].End?
    ensures if moves[i].status.Completed? then i + 1 == |moves| else Possible(runs[i + 1], Resume)
  {
    hide Plain;
    assert runs[i + 1] == Moved(runs[i], moves[i]);
    if i + 1 < |moves| { assert Possible(runs[i + 1], moves[i + 1]); }
  }

  // ---- calls left open ----

  /** Calls asked for in a transcript, less the results it has. */
  function Unanswered(ms: seq<Message>): int {
    if ms == [] then 0
    else
      Unanswered(ms[..|ms| - 1])
      + (match Last(ms)
         case Assistant(_, calls) => |calls|
         case ToolResult(_, _) => -1
         case _ => 0)
  }

  lemma UnansweredNext(ms: seq<Message>, m: Message)
    ensures Unanswered(ms + [m]) == Unanswered(ms) + Unanswered([m])
  {
    assert (ms + [m])[..|ms|] == ms;
    assert [m][..0] == [];
    assert Unanswered([m][..0]) == 0;
  }

  lemma {:induction false} UnansweredConcat(a: seq<Message>, b: seq<Message>)
    ensures Unanswered(a + b) == Unanswered(a) + Unanswered(b)
  {
    if b == [] {
      assert a + b == a;
    } else {
      var rest := b[..|b| - 1];
      UnansweredConcat(a, rest);
      assert (a + b) == (a + rest) + [Last(b)] && b == rest + [Last(b)];
      UnansweredNext(a + rest, Last(b));
      UnansweredNext(rest, Last(b));
    }
  }

  lemma {:induction false} PlainHasNoCalls(input: seq<Message>)
    requires Plain(input)
    ensures Unanswered(input) == 0
  {
    if input != [] {
      PlainHasNoCalls(input[..|input| - 1]);
    }
  }

  lemma {:induction false} ResultsCount(results: seq<Message>)
    requires forall i :: 0 <= i < |results| ==> results[i].ToolResult?
    ensures Unanswered(results) == -|results|
  {
    if results != [] {
      ResultsCount(results[..|results| - 1]);
    }
  }

  /** A transcript in turns leaves nothing open exactly when every turn is answered in full. */
  lemma {:induction false} UnansweredTurns(turns: seq<Turn>)
    requires InTurns(turns)
    ensures Unanswered(Rendered(turns)) >= 0
    ensures Unanswered(Rendered(turns)) == 0
            <==> forall i :: 0 <= i < |turns| ==> AnswersAll(turns[i])
  {
    if turns != [] {
      var rest, t := turns[..|turns| - 1], Last(turns);
      UnansweredTurns(rest);
      assert AnswersPrefix(turns[|turns| - 1]);
      UnansweredTurn(rest, t);
      assert turns == rest + [t];
    }
  }

  lemma UnansweredTurn(turns: seq<Turn>, t: Turn)
    requires AnswersPrefix(t)
    ensures Unanswered(Rendered(turns + [t]))
         == Unanswered(Rendered(turns)) + |t.reply.calls| - |t.results|
  {
    RenderedNext(turns, t);
    hide Rendered;
    UnansweredConcat(Rendered(turns) + [t.reply], t.results);
    UnansweredNext(Rendered(turns), t.reply);
    UnansweredNext([], t.reply);
    assert [t.reply][..0] == [];
    ResultsCount(t.results);
  }

  /** What is open for good: all of a transcript, less the turn a worker is answering. */
  function OpenFor(r: Run): int {
    if r.worker.Answering? then
      Unanswered(r.context) - (|Calls(r.worker.reply)| - r.worker.done)
    else if r.worker.Made? then
      Unanswered(r.context) - (|Calls(r.worker.reply)| - r.worker.done)
    else Unanswered(r.context)
  }

  lemma FitsOpen(input: seq<Message>, r: Run, turns: seq<Turn>)
    requires Plain(input) && Fits(input, r, turns)
    ensures Unanswered(r.context) >= 0 && OpenFor(r) >= 0
    ensures Unanswered(r.context) == 0 <==> forall i :: 0 <= i < |turns| ==> AnswersAll(turns[i])
  {
    PlainHasNoCalls(input);
    UnansweredConcat(input, Rendered(turns));
    UnansweredTurns(turns);
    if r.worker.Answering? || r.worker.Made? {
      var rest, t := turns[..|turns| - 1], Last(turns);
      UnansweredTurns(rest);
      assert AnswersPrefix(turns[|turns| - 1]) && turns == rest + [t];
      UnansweredTurn(rest, t);
    }
  }

  /** One move: what is open for good stays so, and only a stop can add to it. */
  lemma OpenMoves(input: seq<Message>, r: Run, turns: seq<Turn>, m: Move)
    requires Plain(input) && Fits(input, r, turns) && Possible(r, m)
    ensures OpenFor(Moved(r, m)) >= OpenFor(r)
    ensures !m.End? && !m.Crash? ==> OpenFor(Moved(r, m)) == OpenFor(r)
  {
    hide Rendered, MadeOnce, InTurns, Unanswered;
    FitsOpen(input, r, turns);
    if m.Save? {
      SaveKeepsOpen(r, turns);
    } else if (m.End? || m.Crash?) && (r.worker.Answering? || r.worker.Made?) {
      WorkerIsWithin(r, turns);
    }
  }

  lemma SaveKeepsOpen(r: Run, turns: seq<Turn>)
    requires WorkerFits(r, turns) && Possible(r, Save)
    ensures OpenFor(Moved(r, Save)) == OpenFor(r)
  {
    hide Unanswered;
    var last := Last(r.worker.held);
    UnansweredNext(r.context, last);
    OneMessage(last);
  }

  lemma OneMessage(m: Message)
    ensures Unanswered([m]) == match m
                               case Assistant(_, calls) => |calls|
                               case ToolResult(_, _) => -1
                               case _ => 0
  {
    assert [m][..0] == [];
    assert Unanswered([m][..0]) == 0;
  }

  lemma WorkerIsWithin(r: Run, turns: seq<Turn>)
    requires InTurns(turns) && WorkerFits(r, turns) && (r.worker.Answering? || r.worker.Made?)
    ensures r.worker.done <= |Calls(r.worker.reply)|
  {
    assert AnswersPrefix(turns[|turns| - 1]);
  }

  /** A call a stopped worker left open is never answered: whoever resumes the run goes on without. */
  lemma {:induction false} OpenForGood(input: seq<Message>, runs: seq<Run>, moves: seq<Move>,
                                       i: nat, k: nat)
    requires IsLife(input, runs, moves) && i <= k < |runs|
    ensures OpenFor(runs[i]) <= OpenFor(runs[k])
    ensures runs[k].worker.Asking? ==> OpenFor(runs[i]) <= Unanswered(runs[k].worker.held)
    decreases k
  {
    hide Moved, Possible, Fits, OpenFor, Unanswered;
    if i < k {
      OpenForGood(input, runs, moves, i, k - 1);
      var turns := LivesFit(input, runs, moves, k - 1);
      OpenMoves(input, runs[k - 1], turns, moves[k - 1]);
    }
    var turns := LivesFit(input, runs, moves, k);
    AskingIsOpen(input, runs[k], turns);
  }

  lemma AskingIsOpen(input: seq<Message>, r: Run, turns: seq<Turn>)
    requires Fits(input, r, turns)
    ensures r.worker.Asking? ==> r.worker.held == r.context && OpenFor(r) == Unanswered(r.context)
    ensures r.worker.Idle? ==> OpenFor(r) == Unanswered(r.context)
  {
    hide Rendered, MadeOnce, InTurns, Unanswered;
  }

  /** Some resume so far went on from a checkpoint with open calls. */
  predicate ResumedOpen(runs: seq<Run>, moves: seq<Move>, k: nat)
    requires |runs| == |moves| + 1
  {
    exists i :: 0 <= i < k && i < |moves| && moves[i].Resume? && Unanswered(runs[i].context) > 0
  }

  /**
    The model is asked with every earlier call answered exactly as long as every resume found a
    checkpoint without open calls.
   */
  lemma {:induction false} RequestsCompleteExactly(input: seq<Message>, runs: seq<Run>,
                                                   moves: seq<Move>, k: nat)
    requires IsLife(input, runs, moves) && k < |runs|
    ensures !runs[k].worker.Idle? ==> (OpenFor(runs[k]) > 0 <==> ResumedOpen(runs, moves, k))
    ensures ResumedOpen(runs, moves, k) ==> OpenFor(runs[k]) > 0
    ensures runs[k].worker.Asking? ==>
              (Unanswered(runs[k].worker.held) == 0 <==> !ResumedOpen(runs, moves, k))
  {
    hide Moved, Possible, Fits, OpenFor, Unanswered, ResumedOpen, Plain;
    var now := LivesFit(input, runs, moves, k);
    AskingIsOpen(input, runs[k], now);
    LifeIsPlain(input, runs, moves);
    FitsOpen(input, runs[k], now);
    if k == 0 {
      NoResumeYet(runs, moves);
    } else {
      RequestsCompleteExactly(input, runs, moves, k - 1);
      var turns := LivesFit(input, runs, moves, k - 1);
      OpenMoves(input, runs[k - 1], turns, moves[k - 1]);
      AskingIsOpen(input, runs[k - 1], turns);
      ResumedNext(runs, moves, k);
      FitsOpen(input, runs[k - 1], turns);
      WhoIsIdle(runs[k - 1], moves[k - 1]);
    }
  }

  lemma LifeIsPlain(input: seq<Message>, runs: seq<Run>, moves: seq<Move>)
    requires IsLife(input, runs, moves)
    ensures Plain(input) && runs[0].worker.Idle?
  {
  }

  lemma NoResumeYet(runs: seq<Run>, moves: seq<Move>)
    requires |runs| == |moves| + 1
    ensures !ResumedOpen(runs, moves, 0)
  {
  }

  lemma ResumedNext(runs: seq<Run>, moves: seq<Move>, k: nat)
    requires |runs| == |moves| + 1 && 0 < k <= |moves|
    ensures ResumedOpen(runs, moves, k)
            <==> ResumedOpen(runs, moves, k - 1)
                 || (moves[k - 1].Resume? && Unanswered(runs[k - 1].context) > 0)
  {
    hide Unanswered;
  }

  lemma WhoIsIdle(r: Run, m: Move)
    requires Possible(r, m)
    ensures r.worker.Idle? <==> m.Resume?
    ensures Moved(r, m).worker.Idle? <==> m.End? || m.Crash?
    ensures m.Resume? ==> Moved(r, m).context == r.context && Moved(r, m).worker.Asking?
  {
  }

  /** After a run stopped at its step limit, every later request carries open calls. */
  lemma StepLimitLeavesOpen(input: seq<Message>, runs: seq<Run>, moves: seq<Move>, i: nat, k: nat)
    requires IsLife(input, runs, moves) && i < k < |runs|
    requires moves[i] == End(MaxStepsReached) && runs[k].worker.Asking?
    ensures Unanswered(runs[k].worker.held) > 0
  {
    hide Unanswered, Rendered, MadeOnce;
    var turns := LivesFit(input, runs, moves, i);
    FitsOpen(input, runs[i], turns);
    OpenForGood(input, runs, moves, i + 1, k);
  }

  lemma LifeGoesOn(input: seq<Message>, runs: seq<Run>, moves: seq<Move>, m: Move)
    returns (runs': seq<Run>, moves': seq<Move>)
    requires IsLife(input, runs, moves) && Possible(Last(runs), m)
    ensures IsLife(input, runs', moves') && runs' != [] && Last(runs') == Moved(Last(runs), m)
  {
    hide Moved, Possible, Plain;
    runs', moves' := runs + [Moved(Last(runs), m)], moves + [m];
    forall i | 0 <= i < |moves'|
      ensures Possible(runs'[i], moves'[i]) && runs'[i + 1] == Moved(runs'[i], moves'[i])
    {
      assert runs'[i] == runs[i];
    }
  }

  lemma LifeBegins(input: seq<Message>) returns (runs: seq<Run>, moves: seq<Move>)
    requires Plain(input)
    ensures IsLife(input, runs, moves) && runs != [] && Last(runs) == NewRun(input)
  {
    runs, moves := [NewRun(input)], [];
  }

  /** Such a resume is possible: the model asks for a call, and the step limit is reached. */
  lemma OpenResumeReachable(input: seq<Message>, call: ToolCall)
    returns (runs: seq<Run>, moves: seq<Move>)
    requires Plain(input)
    ensures IsLife(input, runs, moves)
    ensures Last(runs).worker.Asking? && Unanswered(Last(runs).worker.held) == 1
  {
    hide IsLife, Unanswered, Plain;
    var reply := Response(Assistant(None, [call]), ToolCalls);
    runs, moves := LifeBegins(input);
    runs, moves := LifeGoesOn(input, runs, moves, Resume);
    runs, moves := LifeGoesOn(input, runs, moves, Ask);
    runs, moves := LifeGoesOn(input, runs, moves, Reply(reply));
    runs, moves := LifeGoesOn(input, runs, moves, Save);
    runs, moves := LifeGoesOn(input, runs, moves, End(MaxStepsReached));
    runs, moves := LifeGoesOn(input, runs, moves, Resume);
    assert Last(runs).worker.held == input + [reply.message];
    UnansweredNext(input, reply.message);
    OneMessage(reply.message);
    PlainHasNoCalls(input);
    LifeIsNotEmpty(input, runs, moves);
  }

  lemma LifeIsNotEmpty(input: seq<Message>, runs: seq<Run>, moves: seq<Move>)
    requires IsLife(input, runs, moves)
    ensures runs != []
  {
  }
}
