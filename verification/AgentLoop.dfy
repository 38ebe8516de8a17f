/**
  The turn loop of an agent run: ask the model, run the tools it calls, ask again, within a number
  of steps, a deadline and a cancellation. The model client, the tools, the clock and the
  cancellation flag are outside; they answer as they like.
 */
module AgentLoop {
  import opened Common

  datatype ToolCall = ToolCall(id: string, name: string, arguments: string)

  datatype Message =
    | System(text: string)
    | User(text: string)
    | Assistant(content: Option<string>, calls: seq<ToolCall>)
    | ToolResult(text: string, callId: string)

  datatype FinishReason = Stop | ToolCalls

  datatype Response = Response(message: Message, finish: FinishReason)

  datatype RequestError = RequestError(code: string, retryable: bool)

  datatype Status = Completed | MaxStepsReached | TimedOut | Cancelled | Failed

  datatype RunError = RunError(code: string, retryable: bool, attempts: nat)

  datatype RunResult = RunResult(
    status: Status, messages: seq<Message>, modelTurns: nat,
    finalAnswer: Option<string>, error: Option<RunError>)

  datatype ArgumentError = BadArgument

  const MAX_MODEL_RETRIES := 5

  /** Everything the loop does not decide: the k-th clock or flag reading, request and tool call. */
  datatype Outside = Outside(
    client: (nat, seq<Message>) -> Result<Response, RequestError>,
    tool: (nat, ToolCall) -> string,
    now: nat -> real,
    cancelled: nat -> bool)

  predicate Blank(s: string) {
    forall i :: 0 <= i < |s| ==> s[i] in {' ', '\t', '\n', '\r'}
  }

  predicate HasText(content: Option<string>) {
    content.Some? && !Blank(content.value)
  }

  /** An assistant message with text or calls, and calls exactly when the turn is to go on. */
  predicate ValidResponse(r: Response) {
    && r.message.Assistant?
    && (HasText(r.message.content) || r.message.calls != [])
    && (r.finish.ToolCalls? <==> r.message.calls != [])
  }

  ghost predicate ValidOutside(o: Outside) {
    && (forall k: nat, ms: seq<Message> {:trigger o.client(k, ms)} ::
          o.client(k, ms).Ok? ==> ValidResponse(o.client(k, ms).value))
    && (forall i: nat, k: nat {:trigger o.now(i), o.now(k)} :: i <= k ==> o.now(i) <= o.now(k))
  }

  predicate ValidResult(r: RunResult) {
    && (r.status.Completed? ==>
          r.finalAnswer.Some? && r.finalAnswer.value != "" && r.modelTurns >= 1)
    && (!r.status.Completed? ==> r.finalAnswer.None?)
    && (r.status.Failed? <==> r.error.Some?)
    && (r.error.Some? ==> r.error.value.attempts >= 1)
  }

  // ---- transcripts ----

  /** One model turn: the assistant's message and the tool results that follow it. */
  datatype Turn = Turn(reply: Message, results: seq<Message>)

  function Rendered(turns: seq<Turn>): seq<Message> {
    if turns == [] then []
    else Rendered(turns[..|turns| - 1]) + [Last(turns).reply] + Last(turns).results
  }

  function ResultsOf(turns: seq<Turn>): seq<Message> {
    if turns == [] then [] else ResultsOf(turns[..|turns| - 1]) + Last(turns).results
  }

  /** The results answer the turn's first calls, in order, each by its id. */
  predicate AnswersPrefix(t: Turn) {
    && t.reply.Assistant?
    && |t.results| <= |t.reply.calls|
    && forall i :: 0 <= i < |t.results| ==>
         t.results[i].ToolResult? && t.results[i].callId == t.reply.calls[i].id
  }

  predicate AnswersAll(t: Turn) {
    AnswersPrefix(t) && |t.results| == |t.reply.calls|
  }

  function AssistantCount(ms: seq<Message>): nat {
    if ms == [] then 0
    else AssistantCount(ms[..|ms| - 1]) + (if Last(ms).Assistant? then 1 else 0)
  }

  // ---- what the loop did to the outside ----

  /** An act and the reading of clock and flag it came right after. */
  datatype Act =
    | Asked(at: nat, messages: seq<Message>)
    | Ran(at: nat, call: ToolCall, answer: string)
    | Waited(at: nat, delay: real)

  function BoundaryAt(o: Outside, deadline: real, k: nat): (r: Option<Status>)
    ensures r.Some? ==> r.value.TimedOut? || r.value.Cancelled?
  {
    if o.cancelled(k) then Some(Cancelled)
    else if o.now(k) >= deadline then Some(TimedOut)
    else None
  }

  /** Work starts only inside the boundary, and no wait reaches past the deadline. */
  predicate Disciplined(o: Outside, deadline: real, acts: seq<Act>) {
    forall i :: 0 <= i < |acts| ==>
      match acts[i]
      case Asked(at, _) => BoundaryAt(o, deadline, at).None?
      case Ran(at, _, _) => BoundaryAt(o, deadline, at).None?
      case Waited(at, delay) => 0.0 < delay <= deadline - o.now(at)
  }

  function AskCount(acts: seq<Act>): nat {
    if acts == [] then 0
    else AskCount(acts[..|acts| - 1]) + (if Last(acts).Asked? then 1 else 0)
  }

  function WaitSum(acts: seq<Act>): real {
    if acts == [] then 0.0
    else WaitSum(acts[..|acts| - 1]) + (if Last(acts).Waited? then Last(acts).delay else 0.0)
  }

  /** The results of the tools that were run, in order. */
  function RanResults(acts: seq<Act>): seq<Message> {
    if acts == [] then []
    else
      RanResults(acts[..|acts| - 1])
      + (if Last(acts).Ran? then [ToolResult(Last(acts).answer, Last(acts).call.id)] else [])
  }

  lemma {:induction false} ActsAdd(a: seq<Act>, b: seq<Act>)
    ensures AskCount(a + b) == AskCount(a) + AskCount(b)
    ensures WaitSum(a + b) == WaitSum(a) + WaitSum(b)
    ensures RanResults(a + b) == RanResults(a) + RanResults(b)
    decreases |b|
  {
    if b == [] {
      assert a + b == a;
    } else {
      ActsAdd(a, b[..|b| - 1]);
      assert (a + b)[..|a + b| - 1] == a + b[..|b| - 1];
    }
  }

  lemma {:induction false} CountsAdd(a: seq<Message>, b: seq<Message>)
    ensures AssistantCount(a + b) == AssistantCount(a) + AssistantCount(b)
    decreases |b|
  {
    if b == [] {
      assert a + b == a;
    } else {
      CountsAdd(a, b[..|b| - 1]);
      assert (a + b)[..|a + b| - 1] == a + b[..|b| - 1];
    }
  }

  lemma {:induction false} NoAssistants(results: seq<Message>)
    requires forall i :: 0 <= i < |results| ==> results[i].ToolResult?
    ensures AssistantCount(results) == 0
  {
    if results != [] { NoAssistants(results[..|results| - 1]); }
  }

  /** Every turn adds one assistant message. */
  lemma {:induction false} RenderedCounts(turns: seq<Turn>)
    requires forall i :: 0 <= i < |turns| ==> AnswersPrefix(turns[i])
    ensures AssistantCount(Rendered(turns)) == |turns|
  {
    if turns != [] {
      var t := Last(turns);
      RenderedCounts(turns[..|turns| - 1]);
      CountsAdd(Rendered(turns[..|turns| - 1]), [t.reply]);
      CountsAdd(Rendered(turns[..|turns| - 1]) + [t.reply], t.results);
      NoAssistants(t.results);
      assert AssistantCount([t.reply]) == 1;
    }
  }

  function Pow2(n: nat): nat { if n == 0 then 1 else 2 * Pow2(n - 1) }

  /** The most a turn may ask to wait: the delays of all its retries. */
  function Backoff(base: real, retries: nat): real {
    base * (Pow2(retries) - 1) as real
  }

  /** The delay planned before retry number `attempts`: it doubles every time. */
  function Planned(base: real, attempts: nat): real
    requires attempts >= 1
  {
    base * Pow2(attempts - 1) as real
  }

  lemma PlannedIsPositive(base: real, attempts: nat)
    requires attempts >= 1 && base >= 0.0
    ensures Planned(base, attempts) >= 0.0
  {
    PowPositive(attempts - 1);
  }

  lemma BackoffGrows(base: real, retries: nat)
    ensures Backoff(base, retries + 1) == Backoff(base, retries) + Planned(base, retries + 1)
  {
    var p := (Pow2(retries) - 1) as real;
    assert (Pow2(retries + 1) - 1) as real == p + Pow2(retries) as real;
    assert base * (p + Pow2(retries) as real) == base * p + base * Pow2(retries) as real;
  }

  lemma BackoffMonotone(base: real, few: nat, many: nat)
    requires few <= many && base >= 0.0
    ensures 0.0 <= Backoff(base, few) <= Backoff(base, many)
    decreases many
  {
    if few < many {
      BackoffMonotone(base, few, many - 1);
      BackoffGrows(base, many - 1);
      PlannedIsPositive(base, many);
    } else {
      PowPositive(few);
    }
  }

  lemma PowPositive(n: nat)
    ensures Pow2(n) >= 1
  {
  }

  /** Requests with these messages, and waits; no tool is run. */
  predicate OnlyAsksFor(messages: seq<Message>, acts: seq<Act>) {
    && (forall i :: 0 <= i < |acts| ==> !acts[i].Ran?)
    && (forall i :: 0 <= i < |acts| && acts[i].Asked? ==> acts[i].messages == messages)
  }

  /** What the acts of one turn's requests are: all for the same messages, few, and briefly waited for. */
  ghost predicate TurnActs(o: Outside, deadline: real, base: real, retries: nat,
                           messages: seq<Message>, acts: seq<Act>) {
    && Disciplined(o, deadline, acts)
    && OnlyAsksFor(messages, acts)
    && AskCount(acts) <= retries + 1
    && WaitSum(acts) <= Backoff(base, retries)
    && RanResults(acts) == []
  }

  /** The wait before retry number `attempts`; none once the deadline has come. */
  function Waits(o: Outside, deadline: real, base: real, at: nat, attempts: nat): seq<Act>
    requires attempts >= 1
  {
    var planned := Planned(base, attempts);
    var remaining := deadline - o.now(at);
    if planned > 0.0 && remaining > 0.0
    then [Waited(at, if planned <= remaining then planned else remaining)] else []
  }

  // ---- a whole run ----

  /** Every request was made with the transcript as it stood after some number of whole turns. */
  ghost predicate AskedInContext(input: seq<Message>, turns: seq<Turn>, acts: seq<Act>) {
    forall i :: 0 <= i < |acts| && acts[i].Asked? ==>
      exists k :: 0 <= k <= |turns| && acts[i].messages == input + Rendered(turns[..k])
  }

  /** What a run has done to the outside after `asks` turns' worth of requests. */
  ghost predicate RunActs(o: Outside, deadline: real, base: real, retries: nat, input: seq<Message>,
                          turns: seq<Turn>, asks: nat, acts: seq<Act>) {
    && Disciplined(o, deadline, acts)
    && AskedInContext(input, turns, acts)
    && RanResults(acts) == ResultsOf(turns)
    && AskCount(acts) <= asks * (retries + 1)
    && WaitSum(acts) <= asks as real * Backoff(base, retries)
  }

  /** The first of `calls` were run, as the tool calls from number `first` on, with these results. */
  predicate RunsInOrder(o: Outside, first: nat, calls: seq<ToolCall>, results: seq<Message>,
                        ran: seq<Act>) {
    && |ran| == |results| <= |calls|
    && forall i :: 0 <= i < |ran| ==>
         && ran[i].Ran? && ran[i].call == calls[i] && ran[i].answer == o.tool(first + i, calls[i])
         && results[i] == ToolResult(o.tool(first + i, calls[i]), calls[i].id)
  }

  /** The acts of running calls: nothing but their runs, each inside the boundary. */
  ghost predicate ToolActs(o: Outside, deadline: real, first: nat, calls: seq<ToolCall>,
                           results: seq<Message>, ran: seq<Act>) {
    Disciplined(o, deadline, ran) && RunsInOrder(o, first, calls, results, ran)
  }

  lemma {:induction false} RunsRender(o: Outside, first: nat, calls: seq<ToolCall>,
                                      results: seq<Message>, ran: seq<Act>)
    requires RunsInOrder(o, first, calls, results, ran)
    ensures RanResults(ran) == results && forall i :: 0 <= i < |ran| ==> ran[i].Ran?
  {
    if ran != [] {
      var n := |ran| - 1;
      RunsRender(o, first, calls, results[..n], ran[..n]);
      assert results == results[..n] + [results[n]];
    }
  }

  function CallsOf(turn: Option<Turn>): seq<ToolCall> {
    if turn.Some? && turn.value.reply.Assistant? then turn.value.reply.calls else []
  }

  function ResultsIn(turn: Option<Turn>): seq<Message> {
    if turn.Some? then turn.value.results else []
  }

  /** A turn's results are what its own calls answered, as the tool calls from number `first` on. */
  predicate TurnRan(o: Outside, first: nat, t: Turn) {
    && t.reply.Assistant? && |t.results| <= |t.reply.calls|
    && forall i :: 0 <= i < |t.results| ==>
         t.results[i] == ToolResult(o.tool(first + i, t.reply.calls[i]), t.reply.calls[i].id)
  }

  /** So it is with every turn, the tool calls numbered through. */
  predicate TurnsRan(o: Outside, first: nat, turns: seq<Turn>) {
    forall i :: 0 <= i < |turns| ==> TurnRan(o, first + |ResultsOf(turns[..i])|, turns[i])
  }

  /** The reply is what the model answered to these messages, in one of these requests. */
  ghost predicate Answers(o: Outside, low: nat, high: nat, messages: seq<Message>, reply: Message) {
    exists k: nat :: low <= k < high && o.client(k, messages).Ok? && o.client(k, messages).value.message == reply
  }

  /** The error is the one the request with number `k` for these messages ended in. */
  predicate FailedBy(o: Outside, k: int, messages: seq<Message>, retries: nat, error: Option<RunError>) {
    && k >= 0 && o.client(k, messages).Err? && error.Some?
    && error.value.code == o.client(k, messages).error.code
    && error.value.retryable == o.client(k, messages).error.retryable
    && (error.value.retryable ==> error.value.attempts == retries + 1)
  }

  /** Each turn's reply is what the model answered to the transcript before that turn. */
  ghost predicate RepliesCome(o: Outside, low: nat, high: nat, input: seq<Message>, turns: seq<Turn>) {
    forall i :: 0 <= i < |turns| ==>
      Answers(o, low, high, input + Rendered(turns[..i]), turns[i].reply)
  }

  lemma ResultsNext(turns: seq<Turn>, t: Turn)
    ensures ResultsOf(turns + [t]) == ResultsOf(turns) + t.results
  {
    assert (turns + [t])[..|turns|] == turns;
  }

  lemma RanExtends(o: Outside, first: nat, turns: seq<Turn>, turn: Option<Turn>)
    requires TurnsRan(o, first, turns)
    requires turn.Some? ==> TurnRan(o, first + |ResultsOf(turns)|, turn.value)
    ensures TurnsRan(o, first, WithTurn(turns, turn))
    ensures |ResultsOf(WithTurn(turns, turn))| == |ResultsOf(turns)| + |ResultsIn(turn)|
  {
    hide TurnRan, ResultsOf;
    var all := WithTurn(turns, turn);
    assert all[..|turns|] == turns;
    if turn.Some? { ResultsNext(turns, turn.value); }
    forall i | 0 <= i < |all| ensures TurnRan(o, first + |ResultsOf(all[..i])|, all[i]) {
      if i < |turns| { assert all[..i] == turns[..i]; }
    }
  }

  lemma RepliesExtend(o: Outside, low: nat, mid: nat, high: nat, input: seq<Message>,
                      turns: seq<Turn>, turn: Option<Turn>)
    requires RepliesCome(o, low, mid, input, turns) && low <= mid <= high
    requires turn.Some? ==> Answers(o, mid, high, input + Rendered(turns), turn.value.reply)
    ensures RepliesCome(o, low, high, input, WithTurn(turns, turn))
  {
    hide Rendered;
    var all := WithTurn(turns, turn);
    assert all[..|turns|] == turns;
    forall i | 0 <= i < |all|
      ensures Answers(o, low, high, input + Rendered(all[..i]), all[i].reply)
    {
      if i < |turns| {
        assert all[..i] == turns[..i];
        assert Answers(o, low, mid, input + Rendered(turns[..i]), turns[i].reply);
      }
    }
  }

  lemma NothingTold(o: Outside, first: nat, low: nat, input: seq<Message>)
    ensures TurnsRan(o, first, []) && RepliesCome(o, low, low, input, []) && ResultsOf([]) == []
  {
  }

  /** A wait follows a request and lasts what is planned after so many, or up to the deadline. */
  predicate WaitFits(o: Outside, deadline: real, base: real, before: seq<Act>, w: Act) {
    w.Waited? ==>
      && before != [] && Last(before).Asked?
      && var planned := base * Pow2(AskCount(before) - 1) as real;
         w.delay == if planned <= deadline - o.now(w.at) then planned else deadline - o.now(w.at)
  }

  /** Each wait fits; and only without a base delay does one request follow another at once. */
  predicate Paced(o: Outside, deadline: real, base: real, made: seq<Act>) {
    forall i :: 0 <= i < |made| ==>
      && WaitFits(o, deadline, base, made[..i], made[i])
      && (i > 0 && made[i - 1].Asked? && made[i].Asked? ==> base == 0.0)
  }

  lemma PacedNext(o: Outside, deadline: real, base: real, made: seq<Act>, act: Act)
    requires Paced(o, deadline, base, made) && WaitFits(o, deadline, base, made, act)
    requires made != [] && Last(made).Asked? && act.Asked? ==> base == 0.0
    ensures Paced(o, deadline, base, made + [act])
  {
    hide WaitFits;
    var longer := made + [act];
    forall i | 0 <= i < |longer|
      ensures WaitFits(o, deadline, base, longer[..i], longer[i])
              && (i > 0 && longer[i - 1].Asked? && longer[i].Asked? ==> base == 0.0)
    {
      if i < |made| {
        assert longer[..i] == made[..i] && longer[i] == made[i];
      } else {
        assert longer[..i] == made;
      }
    }
  }

  lemma PacedAsks(o: Outside, deadline: real, base: real, made: seq<Act>, ask: Act)
    requires Paced(o, deadline, base, made) && ask.Asked?
    requires made != [] && Last(made).Asked? ==> base == 0.0
    ensures Paced(o, deadline, base, made + [ask])
  {
    hide Paced;
    PacedNext(o, deadline, base, made, ask);
  }

  lemma PacedWaits(o: Outside, deadline: real, base: real, made: seq<Act>, at: nat)
    requires Paced(o, deadline, base, made) && made != [] && Last(made).Asked?
    requires AskCount(made) >= 1 && base >= 0.0
    ensures var waits := Waits(o, deadline, base, at, AskCount(made));
            && Paced(o, deadline, base, made + waits) && made + waits != []
            && (Last(made + waits).Asked? ==> base == 0.0 || o.now(at) >= deadline)
  {
    hide Paced, AskCount, Planned;
    var waits := Waits(o, deadline, base, at, AskCount(made));
    DelayIsPositive(base, AskCount(made));
    if waits == [] {
      assert made + waits == made;
    } else {
      PlannedIs(base, AskCount(made));
      PacedNext(o, deadline, base, made, waits[0]);
      assert waits == [waits[0]];
    }
  }

  lemma PlannedIs(base: real, attempts: nat)
    requires attempts >= 1
    ensures Planned(base, attempts) == base * Pow2(attempts - 1) as real
  {
  }

  lemma DelayIsPositive(base: real, attempts: nat)
    requires attempts >= 1 && base >= 0.0
    ensures Planned(base, attempts) <= 0.0 ==> base == 0.0
  {
    PowPositive(attempts - 1);
    var p := Pow2(attempts - 1) as real;
    assert p >= 1.0;
    if base > 0.0 { assert base * p >= base * 1.0; }
  }

  /** A request made inside the boundary, when the last one was made or its wait is over. */
  lemma PacedRequest(o: Outside, deadline: real, base: real, made: seq<Act>, at: nat,
                     messages: seq<Message>)
    requires ValidOutside(o) && Paced(o, deadline, base, made) && BoundaryAt(o, deadline, at).None?
    requires made != [] && Last(made).Asked? ==>
               base == 0.0 || (at > 0 && o.now(at - 1) >= deadline)
    ensures Paced(o, deadline, base, made + [Asked(at, messages)])
  {
    hide Paced, ValidOutside, BoundaryAt;
    if made != [] && Last(made).Asked? && base != 0.0 {
      TimeHasCome(o, deadline, at - 1, at);
    }
    PacedAsks(o, deadline, base, made, Asked(at, messages));
  }

  lemma TimeHasCome(o: Outside, deadline: real, early: nat, late: nat)
    requires ValidOutside(o) && early <= late && o.now(early) >= deadline
    ensures BoundaryAt(o, deadline, late).Some?
  {
    assert o.now(early) <= o.now(late);
  }

  lemma {:induction false} OnlyRuns(ran: seq<Act>)
    requires forall i :: 0 <= i < |ran| ==> ran[i].Ran?
    ensures AskCount(ran) == 0 && WaitSum(ran) == 0.0
  {
    if ran != [] { OnlyRuns(ran[..|ran| - 1]); }
  }

  lemma ContextExtends(input: seq<Message>, turns: seq<Turn>, t: Turn, acts: seq<Act>)
    requires AskedInContext(input, turns, acts)
    ensures AskedInContext(input, turns + [t], acts)
  {
    forall i | 0 <= i < |acts| && acts[i].Asked?
      ensures exists k :: 0 <= k <= |turns + [t]| && acts[i].messages == input + Rendered((turns + [t])[..k])
    {
      var k :| 0 <= k <= |turns| && acts[i].messages == input + Rendered(turns[..k]);
      assert (turns + [t])[..k] == turns[..k];
    }
  }

  lemma RequestsInContext(input: seq<Message>, turns: seq<Turn>, acts: seq<Act>, made: seq<Act>)
    requires AskedInContext(input, turns, acts)
    requires forall i :: 0 <= i < |made| && made[i].Asked? ==> made[i].messages == input + Rendered(turns)
    ensures AskedInContext(input, turns, acts + made)
  {
    assert turns[..|turns|] == turns;
    forall i | 0 <= i < |acts + made| && (acts + made)[i].Asked?
      ensures exists k :: 0 <= k <= |turns| && (acts + made)[i].messages == input + Rendered(turns[..k])
    {
      if i >= |acts| { assert (acts + made)[i].messages == input + Rendered(turns[..|turns|]); }
    }
  }

  /** The requests of one more turn. */
  lemma AfterRequests(o: Outside, deadline: real, base: real, retries: nat, input: seq<Message>,
                      turns: seq<Turn>, asks: nat, acts: seq<Act>, made: seq<Act>)
    requires RunActs(o, deadline, base, retries, input, turns, asks, acts)
    requires TurnActs(o, deadline, base, retries, input + Rendered(turns), made)
    ensures RunActs(o, deadline, base, retries, input, turns, asks + 1, acts + made)
  {
    hide Rendered, ResultsOf, Backoff, AskCount, WaitSum, RanResults, AskedInContext;
    ActsAdd(acts, made);
    RequestsInContext(input, turns, acts, made);
    var each := Backoff(base, retries);
    assert (asks + 1) as real * each == asks as real * each + each;
  }

  /** A turn's reply, and the calls of it that were run. */
  lemma AfterTools(o: Outside, deadline: real, base: real, retries: nat, input: seq<Message>,
                   turns: seq<Turn>, asks: nat, acts: seq<Act>, t: Turn, ran: seq<Act>)
    requires RunActs(o, deadline, base, retries, input, turns, asks, acts)
    requires Disciplined(o, deadline, ran) && RanResults(ran) == t.results
    requires forall i :: 0 <= i < |ran| ==> ran[i].Ran?
    ensures RunActs(o, deadline, base, retries, input, turns + [t], asks, acts + ran)
    ensures Rendered(turns + [t]) == Rendered(turns) + [t.reply] + t.results
  {
    hide AskedInContext, Backoff, AskCount, WaitSum, RanResults;
    assert (turns + [t])[..|turns|] == turns;
    ActsAdd(acts, ran);
    OnlyRuns(ran);
    ContextExtends(input, turns, t, acts);
    ContextIgnoresRuns(input, turns + [t], acts, ran);
  }

  lemma ContextIgnoresRuns(input: seq<Message>, turns: seq<Turn>, acts: seq<Act>, ran: seq<Act>)
    requires AskedInContext(input, turns, acts) && forall i :: 0 <= i < |ran| ==> ran[i].Ran?
    ensures AskedInContext(input, turns, acts + ran)
  {
    RequestsInContext(input, turns, acts, ran);
  }

  /** All a run promises: how it ends, and what it did on the way. */
  ghost predicate RunOutcome(o: Outside, deadline: real, base: real, retries: nat, lastTick: nat,
                             maxSteps: nat, input: seq<Message>, initialTurns: nat,
                             turns: seq<Turn>, acts: seq<Act>, r: RunResult) {
    && EndsAs(o, deadline, lastTick, maxSteps, input, initialTurns, turns, r)
    && Disciplined(o, deadline, acts)
    && AskedInContext(input, turns, acts)
    && RanResults(acts) == ResultsOf(turns)
    && AskCount(acts) <= maxSteps * (retries + 1)
    && WaitSum(acts) <= maxSteps as real * Backoff(base, retries)
  }

  lemma RunEnds(o: Outside, deadline: real, base: real, retries: nat, lastTick: nat, maxSteps: nat,
                input: seq<Message>, initialTurns: nat, turns: seq<Turn>, asks: nat, acts: seq<Act>,
                r: RunResult)
    requires RunActs(o, deadline, base, retries, input, turns, asks, acts)
    requires asks <= maxSteps && base >= 0.0
    requires EndsAs(o, deadline, lastTick, maxSteps, input, initialTurns, turns, r)
    ensures RunOutcome(o, deadline, base, retries, lastTick, maxSteps, input, initialTurns, turns, acts, r)
  {
    hide EndsAs;
    RunBounds(o, deadline, base, retries, input, turns, asks, acts, maxSteps);
  }

  /** What that comes to over a whole run of at most `maxSteps` turns. */
  lemma RunBounds(o: Outside, deadline: real, base: real, retries: nat, input: seq<Message>,
                  turns: seq<Turn>, asks: nat, acts: seq<Act>, maxSteps: nat)
    requires RunActs(o, deadline, base, retries, input, turns, asks, acts)
    requires asks <= maxSteps && base >= 0.0
    ensures AskCount(acts) <= maxSteps * (retries + 1)
    ensures WaitSum(acts) <= maxSteps as real * Backoff(base, retries)
  {
    hide *;
    ActBounds(o, deadline, base, retries, input, turns, asks, acts);
    BackoffMonotone(base, retries, retries);
    AsksGrow(AskCount(acts), asks, maxSteps, retries + 1);
    WaitsGrow(WaitSum(acts), asks, maxSteps, Backoff(base, retries));
  }

  lemma ActBounds(o: Outside, deadline: real, base: real, retries: nat, input: seq<Message>,
                  turns: seq<Turn>, asks: nat, acts: seq<Act>)
    requires RunActs(o, deadline, base, retries, input, turns, asks, acts)
    ensures AskCount(acts) <= asks * (retries + 1)
    ensures WaitSum(acts) <= asks as real * Backoff(base, retries)
  {
    hide Disciplined, AskedInContext, RanResults, ResultsOf, AskCount, WaitSum, Backoff;
  }

  lemma AsksGrow(count: nat, few: nat, many: nat, each: nat)
    requires few <= many && count <= few * each
    ensures count <= many * each
  {
    assert many * each == few * each + (many - few) * each;
  }

  lemma WaitsGrow(sum: real, few: nat, many: nat, each: real)
    requires few <= many && each >= 0.0 && sum <= few as real * each
    ensures sum <= many as real * each
  {
    assert many as real * each == few as real * each + (many - few) as real * each;
  }

  ghost predicate AllAnswered(turns: seq<Turn>) {
    forall i :: 0 <= i < |turns| ==> AnswersAll(turns[i])
  }

  /** All turns but the last are answered in full, the last as far as it came. */
  ghost predicate AnsweredUpToLast(turns: seq<Turn>) {
    && (forall i :: 0 <= i < |turns| - 1 ==> AnswersAll(turns[i]))
    && (turns != [] ==> AnswersPrefix(Last(turns)))
  }

  /** The transcript a run leaves, by the status it ends in. */
  ghost predicate EndsAs(o: Outside, deadline: real, lastTick: nat, maxSteps: nat, input: seq<Message>,
                         initialTurns: nat, turns: seq<Turn>, r: RunResult) {
    && ValidResult(r)
    && r.messages == input + Rendered(turns)
    && r.modelTurns == initialTurns + |turns|
    && |turns| <= maxSteps
    && AnsweredUpToLast(turns)
    && match r.status
       case Completed =>
         && turns != [] && AllAnswered(turns) && Last(turns).reply.calls == []
         && r.finalAnswer == Last(turns).reply.content
       case Failed => AllAnswered(turns) && |turns| < maxSteps
       case MaxStepsReached =>
         turns != [] && |turns| == maxSteps && Last(turns).reply.calls != [] && Last(turns).results == []
       case _ => BoundaryAt(o, deadline, lastTick) == Some(r.status)
  }

  class AgentLoop {
    const outside: Outside
    var ticks: nat
    var requests: nat
    var toolRuns: nat
    ghost var acts: seq<Act>

    constructor (outside: Outside)
      ensures this.outside == outside && acts == []
    {
      this.outside := outside;
      ticks, requests, toolRuns, acts := 0, 0, 0, [];
    }

    /** Cancellation first, then the deadline. */
    method BoundaryStatus(deadline: real) returns (status: Option<Status>)
      modifies this`ticks
      ensures ticks == old(ticks) + 1
      ensures status == BoundaryAt(outside, deadline, old(ticks))
    {
      if outside.cancelled(ticks) {
        status := Some(Cancelled);
      } else if outside.now(ticks) >= deadline {
        status := Some(TimedOut);
      } else {
        status := None;
      }
      ticks := ticks + 1;
    }

    method WaitBeforeRetry(failedAttempts: nat, baseDelay: real, deadline: real)
      requires failedAttempts >= 1 && baseDelay >= 0.0
      modifies this`ticks, this`acts
      ensures ticks == old(ticks) + 1
      ensures acts == old(acts) + Waits(outside, deadline, baseDelay, old(ticks), failedAttempts)
    {
      PlannedIsPositive(baseDelay, failedAttempts);
      var now := outside.now(ticks);
      var remaining := if deadline - now > 0.0 then deadline - now else 0.0;
      var planned := Planned(baseDelay, failedAttempts);
      var delay := if planned <= remaining then planned else remaining;
      if delay > 0.0 {
        acts := acts + [Waited(ticks, delay)];
      }
      ticks := ticks + 1;
    }

    /** Retries only requests that failed before any response came, and only retryable failures. */
    method RequestModelTurnWithRetries(messages: seq<Message>, completedTurns: nat, deadline: real,
                                       maxRetries: nat, baseDelay: real)
      returns (r: Result<Response, RunResult>, ghost made: seq<Act>)
      requires ValidOutside(outside) && baseDelay >= 0.0
      modifies this
      ensures acts == old(acts) + made && ticks > old(ticks) && toolRuns == old(toolRuns)
      ensures requests == old(requests) + AskCount(made)
      ensures Paced(outside, deadline, baseDelay, made)
      ensures TurnActs(outside, deadline, baseDelay, maxRetries, messages, made)
      ensures r.Ok? ==>
                && ValidResponse(r.value) && requests > old(requests)
                && outside.client(requests - 1, messages) == Ok(r.value)
      ensures r.Err? ==>
                && ValidResult(r.error)
                && r.error.messages == messages && r.error.modelTurns == completedTurns
                && (r.error.status.Failed? || r.error.status.TimedOut? || r.error.status.Cancelled?)
                && (r.error.status.Failed? ==>
                      && FailedBy(outside, requests - 1, messages, maxRetries, r.error.error)
                      && r.error.error.value.attempts == AskCount(made))
                && (!r.error.status.Failed? ==>
                      BoundaryAt(outside, deadline, ticks - 1) == Some(r.error.status))
    {
      hide TurnActs, Backoff, Waits, ValidOutside, ValidResponse, BoundaryAt, AskCount, WaitSum, Paced;
      var attempts := 0;
      made := [];
      NothingAsked(outside, deadline, baseDelay, maxRetries, messages);
      while true
        invariant acts == old(acts) + made && ticks >= old(ticks)
        invariant attempts <= maxRetries && AskCount(made) == attempts
        invariant requests == old(requests) + attempts && toolRuns == old(toolRuns)
        invariant Paced(outside, deadline, baseDelay, made)
        invariant made != [] && Last(made).Asked? ==>
                    baseDelay == 0.0 || (ticks > 0 && outside.now(ticks - 1) >= deadline)
        invariant WaitSum(made) <= Backoff(baseDelay, attempts)
        invariant TurnActs(outside, deadline, baseDelay, maxRetries, messages, made)
        decreases maxRetries - attempts
      {
        var boundary := BoundaryStatus(deadline);
        if boundary.Some? {
          return Err(RunResult(boundary.value, messages, completedTurns, None, None)), made;
        }

        attempts := attempts + 1;
        PacedRequest(outside, deadline, baseDelay, made, ticks - 1, messages);
        AskExtends(outside, deadline, baseDelay, maxRetries, messages, made, ticks - 1);
        made := made + [Asked(ticks - 1, messages)];
        acts := acts + [Asked(ticks - 1, messages)];
        var answer := outside.client(requests, messages);
        requests := requests + 1;
        if answer.Ok? {
          AnswersAreValid(outside, requests - 1, messages);
          return Ok(answer.value), made;
        }

        boundary := BoundaryStatus(deadline);
        if boundary.Some? {
          return Err(RunResult(boundary.value, messages, completedTurns, None, None)), made;
        }
        if !answer.error.retryable || attempts > maxRetries {
          return Err(RunResult(Failed, messages, completedTurns, None,
                               Some(RunError(answer.error.code, answer.error.retryable, attempts)))), made;
        }
        WaitExtends(outside, deadline, baseDelay, maxRetries, messages, made, ticks, attempts);
        PacedWaits(outside, deadline, baseDelay, made, ticks);
        made := made + Waits(outside, deadline, baseDelay, ticks, attempts);
        WaitBeforeRetry(attempts, baseDelay, deadline);
      }
    }

    /** Runs the calls of one reply in order, stopping at the first boundary. */
    method RunToolCalls(calls: seq<ToolCall>, deadline: real)
      returns (results: seq<Message>, stopped: Option<Status>, ghost ran: seq<Act>)
      modifies this`ticks, this`acts, this`toolRuns
      ensures ticks >= old(ticks) && acts == old(acts) + ran
      ensures toolRuns == old(toolRuns) + |results|
      ensures ToolActs(outside, deadline, old(toolRuns), calls, results, ran)
      ensures stopped.None? ==> |results| == |calls|
      ensures stopped.Some? ==> ticks > 0 && (stopped.value.TimedOut? || stopped.value.Cancelled?) && stopped == BoundaryAt(outside, deadline, ticks - 1)
    {
      results, ran := [], [];
      for i := 0 to |calls|
        invariant ticks >= old(ticks) && acts == old(acts) + ran && |results| == i
        invariant toolRuns == old(toolRuns) + i
        invariant ToolActs(outside, deadline, old(toolRuns), calls, results, ran)
      {
        var boundary := BoundaryStatus(deadline);
        if boundary.Some? { return results, boundary, ran; }
        var answer := outside.tool(toolRuns, calls[i]);
        toolRuns := toolRuns + 1;
        ghost var act := Ran(ticks - 1, calls[i], answer);
        ran, acts := ran + [act], acts + [act];
        results := results + [ToolResult(answer, calls[i].id)];
        boundary := BoundaryStatus(deadline);
        if boundary.Some? { return results, boundary, ran; }
      }
      stopped := None;
    }

    /** One turn: the request, and, unless it ends the run, the calls of the reply. */
    method RunTurn(current: seq<Message>, modelTurns: nat, isLast: bool, deadline: real, maxRetries: nat,
                   baseDelay: real)
      returns (ended: Option<RunResult>, current': seq<Message>, ghost turn: Option<Turn>,
               ghost asked: seq<Act>, ghost ran: seq<Act>)
      requires ValidOutside(outside) && baseDelay >= 0.0 && modelTurns >= 1
      modifies this
      ensures ticks > old(ticks) && acts == old(acts) + asked + ran
      ensures requests == old(requests) + AskCount(asked)
      ensures toolRuns == old(toolRuns) + |ResultsIn(turn)|
      ensures TurnActs(outside, deadline, baseDelay, maxRetries, current, asked)
      ensures Paced(outside, deadline, baseDelay, asked)
      ensures ToolActs(outside, deadline, old(toolRuns), CallsOf(turn), ResultsIn(turn), ran)
      ensures turn.Some? ==>
                && TurnRan(outside, old(toolRuns), turn.value)
                && Answers(outside, old(requests), requests, current, turn.value.reply)
      ensures current' == if turn.None? then current else current + [turn.value.reply] + turn.value.results
      ensures ended.None? ==> turn.Some? && AnswersAll(turn.value) && !isLast
      ensures ended.Some? ==>
                && ended.value.messages == current'
                && (ended.value.status.Failed? ==>
                      FailedBy(outside, requests - 1, current', maxRetries, ended.value.error))
                && TurnEnds(outside, deadline, ticks - 1, isLast, modelTurns, turn, ended.value)
    {
      hide TurnActs, ToolActs, ValidOutside, BoundaryAt, Paced;
      current', turn, ran := current, None, [];
      var answer;
      answer, asked := RequestModelTurnWithRetries(current, modelTurns - 1, deadline, maxRetries, baseDelay);
      NoTools(outside, deadline, toolRuns, []);
      if answer.Err? {
        ended := Some(answer.error);
        return;
      }
      var reply := answer.value.message;
      NoTools(outside, deadline, toolRuns, reply.calls);
      assert Answers(outside, old(requests), requests, current, reply);
      turn := Some(Turn(reply, []));
      current' := current + [reply];

      var boundary := BoundaryStatus(deadline);
      if boundary.Some? {
        ended := Some(RunResult(boundary.value, current', modelTurns, None, None));
        return;
      }
      if answer.value.finish.Stop? {
        ended := Some(RunResult(Completed, current', modelTurns, reply.content, None));
        return;
      }
      if isLast {
        ended := Some(RunResult(MaxStepsReached, current', modelTurns, None, None));
        return;
      }

      var results, stopped;
      results, stopped, ran := RunToolCalls(reply.calls, deadline);
      RunsAnswer(outside, deadline, old(toolRuns), Turn(reply, results), ran);
      turn := Some(Turn(reply, results));
      current' := current + [reply] + results;
      ended := if stopped.Some? then Some(RunResult(stopped.value, current', modelTurns, None, None)) else None;
    }

    method Run(messages: seq<Message>, initialModelTurns: int, maxSteps: int, timeout: real,
               maxRetries: int, baseDelay: real)
      returns (r: Result<RunResult, ArgumentError>, ghost turns: seq<Turn>, ghost made: seq<Act>)
      requires ValidOutside(outside)
      modifies this
      ensures r.Err? <==> maxSteps < 1 || initialModelTurns < 0 || timeout <= 0.0
                          || !(0 <= maxRetries <= MAX_MODEL_RETRIES) || baseDelay < 0.0
      ensures r.Ok? ==>
                && ticks > 0 && acts == old(acts) + made && requests == old(requests) + AskCount(made)
                && RunOutcome(outside, outside.now(old(ticks)) + timeout, baseDelay, maxRetries, ticks - 1,
                              maxSteps, messages, initialModelTurns, turns, made, r.value)
                && TurnsRan(outside, old(toolRuns), turns) && toolRuns == old(toolRuns) + |ResultsOf(turns)|
                && RepliesCome(outside, old(requests), requests, messages, turns)
                && (r.value.status.Failed? ==>
                      FailedBy(outside, requests - 1, r.value.messages, maxRetries, r.value.error))
    {
      hide RunOutcome, TurnsRan, RepliesCome, ValidOutside, ResultsOf, AskCount, FailedBy;
      turns, made := [], [];
      if maxSteps < 1 || initialModelTurns < 0 || timeout <= 0.0
         || !(0 <= maxRetries <= MAX_MODEL_RETRIES) || baseDelay < 0.0
      {
        return Err(BadArgument), turns, made;
      }
      var deadline := outside.now(ticks) + timeout;
      ticks := ticks + 1;
      var result;
      result, turns, made := RunSteps(messages, initialModelTurns, maxSteps, deadline, maxRetries, baseDelay);
      r := Ok(result);
    }

    /** The turns of a run whose arguments have been checked. */
    method RunSteps(messages: seq<Message>, initialModelTurns: nat, maxSteps: nat, deadline: real,
                    maxRetries: nat, baseDelay: real)
      returns (r: RunResult, ghost turns: seq<Turn>, ghost made: seq<Act>)
      requires ValidOutside(outside) && maxSteps >= 1 && baseDelay >= 0.0
      modifies this
      ensures ticks > old(ticks) && acts == old(acts) + made
      ensures requests == old(requests) + AskCount(made)
      ensures RunOutcome(outside, deadline, baseDelay, maxRetries, ticks - 1, maxSteps, messages,
                         initialModelTurns, turns, made, r)
      ensures TurnsRan(outside, old(toolRuns), turns) && toolRuns == old(toolRuns) + |ResultsOf(turns)|
      ensures RepliesCome(outside, old(requests), requests, messages, turns)
      ensures r.status.Failed? ==> FailedBy(outside, requests - 1, r.messages, maxRetries, r.error)
    {
      hide *;
      turns, made := [], [];
      var current := messages;
      var step: nat := 0;
      NothingDone(outside, deadline, baseDelay, maxRetries, messages);
      NothingTold(outside, toolRuns, requests, messages);
      while true
        invariant step == |turns| < maxSteps
        invariant ticks >= old(ticks) && acts == old(acts) + made
        invariant requests == old(requests) + AskCount(made)
        invariant TurnsRan(outside, old(toolRuns), turns)
        invariant toolRuns == old(toolRuns) + |ResultsOf(turns)|
        invariant RepliesCome(outside, old(requests), requests, messages, turns)
        invariant AllAnswered(turns)
        invariant current == messages + Rendered(turns)
        invariant RunActs(outside, deadline, baseDelay, maxRetries, messages, turns, step, made)
        decreases maxSteps - step
      {
        ghost var before := requests;
        var ended, next, turn, asked, ran := RunTurn(
          current, initialModelTurns + step + 1, step + 1 == maxSteps, deadline, maxRetries, baseDelay);
        AfterTurn(outside, deadline, baseDelay, maxRetries, old(toolRuns) + |ResultsOf(turns)|, messages,
                  turns, step, made, turn, asked, ran);
        RanExtends(outside, old(toolRuns), turns, turn);
        RepliesExtend(outside, old(requests), before, requests, messages, turns, turn);
        Regroup(old(acts), made, asked, ran);
        made := made + asked + ran;
        if ended.Some? {
          TurnEndsRun(outside, deadline, baseDelay, maxRetries, ticks - 1, maxSteps, messages,
                      initialModelTurns, turns, turn, made, ended.value);
          return ended.value, WithTurn(turns, turn), made;
        }
        AnsweredOn(turns, turn.value);
        turns, current, step := WithTurn(turns, turn), next, step + 1;
      }
    }
  }

  lemma Regroup(before: seq<Act>, made: seq<Act>, asked: seq<Act>, ran: seq<Act>)
    ensures before + made + asked + ran == before + (made + asked + ran)
  {
  }

  function WithTurn(turns: seq<Turn>, turn: Option<Turn>): seq<Turn> {
    if turn.Some? then turns + [turn.value] else turns
  }

  /** How a turn ends a run; no turn at all when no response came. */
  predicate TurnEnds(o: Outside, deadline: real, lastTick: nat, isLast: bool, modelTurns: nat,
                     turn: Option<Turn>, r: RunResult)
  {
    && ValidResult(r)
    && r.modelTurns + (if turn.None? then 1 else 0) == modelTurns
    && (turn.Some? ==> AnswersPrefix(turn.value))
    && match r.status
       case Completed =>
         turn.Some? && turn.value.reply.calls == [] && r.finalAnswer == turn.value.reply.content
       case Failed => turn.None?
       case MaxStepsReached =>
         isLast && turn.Some? && turn.value.reply.calls != [] && turn.value.results == []
       case _ => BoundaryAt(o, deadline, lastTick) == Some(r.status)
  }

  lemma TurnEndsRun(o: Outside, deadline: real, base: real, retries: nat, lastTick: nat, maxSteps: nat,
                    input: seq<Message>, initialTurns: nat, turns: seq<Turn>, turn: Option<Turn>,
                    acts: seq<Act>, r: RunResult)
    requires RunActs(o, deadline, base, retries, input, WithTurn(turns, turn), |turns| + 1, acts)
    requires AllAnswered(turns) && |turns| < maxSteps && base >= 0.0
    requires TurnEnds(o, deadline, lastTick, |turns| + 1 == maxSteps, initialTurns + |turns| + 1, turn, r)
    requires r.messages == if turn.None? then input + Rendered(turns)
                           else input + Rendered(turns) + [turn.value.reply] + turn.value.results
    ensures RunOutcome(o, deadline, base, retries, lastTick, maxSteps, input, initialTurns,
                       WithTurn(turns, turn), acts, r)
  {
    hide *;
    if turn.Some? {
      RenderedNext(input, turns, turn.value);
      TurnEndsWith(o, deadline, lastTick, maxSteps, input, initialTurns, turns, turn.value, r);
    } else {
      EndsWithoutTurn(o, deadline, lastTick, maxSteps, input, initialTurns, turns, r);
    }
    RunEnds(o, deadline, base, retries, lastTick, maxSteps, input, initialTurns, WithTurn(turns, turn),
            |turns| + 1, acts, r);
  }

  /** The run ends before a reply of the next turn. */
  lemma EndsWithoutTurn(o: Outside, deadline: real, lastTick: nat, maxSteps: nat, input: seq<Message>,
                        initialTurns: nat, turns: seq<Turn>, r: RunResult)
    requires AllAnswered(turns) && |turns| < maxSteps && r.messages == input + Rendered(turns)
    requires TurnEnds(o, deadline, lastTick, |turns| + 1 == maxSteps, initialTurns + |turns| + 1, None, r)
    ensures EndsAs(o, deadline, lastTick, maxSteps, input, initialTurns, WithTurn(turns, None), r)
  {
    hide Rendered, BoundaryAt, ValidResult;
  }

  /** The run ends with the turn just taken. */
  lemma TurnEndsWith(o: Outside, deadline: real, lastTick: nat, maxSteps: nat, input: seq<Message>,
                     initialTurns: nat, turns: seq<Turn>, turn: Turn, r: RunResult)
    requires AllAnswered(turns) && |turns| < maxSteps && r.messages == input + Rendered(turns + [turn])
    requires TurnEnds(o, deadline, lastTick, |turns| + 1 == maxSteps, initialTurns + |turns| + 1, Some(turn), r)
    ensures EndsAs(o, deadline, lastTick, maxSteps, input, initialTurns, WithTurn(turns, Some(turn)), r)
  {
    hide Rendered, BoundaryAt, ValidResult;
    var all := turns + [turn];
    assert WithTurn(turns, Some(turn)) == all && Last(all) == turn;
    assert forall i :: 0 <= i < |turns| ==> all[i] == turns[i];
  }

  lemma RenderedNext(input: seq<Message>, turns: seq<Turn>, t: Turn)
    ensures input + Rendered(turns + [t]) == input + Rendered(turns) + [t.reply] + t.results
  {
    assert (turns + [t])[..|turns|] == turns;
    assert Rendered(turns + [t]) == Rendered(turns) + [t.reply] + t.results;
  }

  lemma AfterTurn(o: Outside, deadline: real, base: real, retries: nat, first: nat, input: seq<Message>,
                  turns: seq<Turn>, asks: nat, acts: seq<Act>, turn: Option<Turn>,
                  asked: seq<Act>, ran: seq<Act>)
    requires RunActs(o, deadline, base, retries, input, turns, asks, acts)
    requires TurnActs(o, deadline, base, retries, input + Rendered(turns), asked)
    requires ToolActs(o, deadline, first, CallsOf(turn), ResultsIn(turn), ran)
    ensures RunActs(o, deadline, base, retries, input, WithTurn(turns, turn), asks + 1, acts + asked + ran)
    ensures AskCount(acts + asked + ran) == AskCount(acts) + AskCount(asked)
    ensures turn.Some? ==> input + Rendered(turns + [turn.value])
                           == input + Rendered(turns) + [turn.value.reply] + turn.value.results
  {
    hide RunActs, TurnActs, Rendered, AskCount, WaitSum, Disciplined;
    RunsRender(o, first, CallsOf(turn), ResultsIn(turn), ran);
    AfterRequests(o, deadline, base, retries, input, turns, asks, acts, asked);
    ActsAdd(acts, asked);
    ActsAdd(acts + asked, ran);
    OnlyRuns(ran);
    if turn.Some? {
      AfterTools(o, deadline, base, retries, input, turns, asks + 1, acts + asked, turn.value, ran);
    } else {
      assert acts + asked + ran == acts + asked;
    }
  }

  lemma NoTools(o: Outside, deadline: real, first: nat, calls: seq<ToolCall>)
    ensures ToolActs(o, deadline, first, calls, [], [])
  {
  }

  lemma RunsAnswer(o: Outside, deadline: real, first: nat, t: Turn, ran: seq<Act>)
    requires t.reply.Assistant? && ToolActs(o, deadline, first, t.reply.calls, t.results, ran)
    ensures TurnRan(o, first, t) && AnswersPrefix(t)
  {
  }

  lemma AnsweredOn(turns: seq<Turn>, turn: Turn)
    requires AllAnswered(turns) && AnswersAll(turn)
    ensures WithTurn(turns, Some(turn)) == turns + [turn] && AllAnswered(turns + [turn])
  {
  }

  lemma NothingDone(o: Outside, deadline: real, base: real, retries: nat, input: seq<Message>)
    ensures RunActs(o, deadline, base, retries, input, [], 0, []) && AskCount([]) == 0
    ensures Rendered([]) == [] && AllAnswered([])
  {
  }

  lemma NothingAsked(o: Outside, deadline: real, base: real, retries: nat, messages: seq<Message>)
    requires base >= 0.0
    ensures AskCount([]) == 0 && WaitSum([]) == 0.0 && Backoff(base, 0) == 0.0
    ensures TurnActs(o, deadline, base, retries, messages, []) && Paced(o, deadline, base, [])
  {
    BackoffMonotone(base, 0, retries);
  }

  lemma AnswersAreValid(o: Outside, k: nat, messages: seq<Message>)
    requires ValidOutside(o) && o.client(k, messages).Ok?
    ensures ValidResponse(o.client(k, messages).value)
  {
  }

  lemma OneAct(act: Act)
    ensures AskCount([act]) == (if act.Asked? then 1 else 0)
    ensures WaitSum([act]) == (if act.Waited? then act.delay else 0.0)
    ensures !act.Ran? ==> RanResults([act]) == []
  {
    assert [act][..0] == [];
  }

  lemma ActsJoin(o: Outside, deadline: real, messages: seq<Message>, a: seq<Act>, b: seq<Act>)
    requires Disciplined(o, deadline, a) && Disciplined(o, deadline, b)
    requires OnlyAsksFor(messages, a) && OnlyAsksFor(messages, b)
    ensures Disciplined(o, deadline, a + b) && OnlyAsksFor(messages, a + b)
  {
    hide BoundaryAt;
  }

  /** One more request, made right after reading `at` found nothing in its way. */
  lemma AskExtends(o: Outside, deadline: real, base: real, retries: nat, messages: seq<Message>,
                   acts: seq<Act>, at: nat)
    requires TurnActs(o, deadline, base, retries, messages, acts)
    requires AskCount(acts) <= retries && BoundaryAt(o, deadline, at).None?
    ensures var acts' := acts + [Asked(at, messages)];
            && TurnActs(o, deadline, base, retries, messages, acts')
            && AskCount(acts') == AskCount(acts) + 1 && WaitSum(acts') == WaitSum(acts)
  {
    hide BoundaryAt, AskCount, WaitSum, RanResults, Backoff;
    var one := [Asked(at, messages)];
    assert Disciplined(o, deadline, one) && OnlyAsksFor(messages, one);
    OneAct(one[0]);
    ActsAdd(acts, one);
    ActsJoin(o, deadline, messages, acts, one);
  }

  lemma WaitExtends(o: Outside, deadline: real, base: real, retries: nat, messages: seq<Message>,
                    acts: seq<Act>, at: nat, attempts: nat)
    requires TurnActs(o, deadline, base, retries, messages, acts) && base >= 0.0
    requires 1 <= attempts <= retries && AskCount(acts) == attempts
    requires WaitSum(acts) <= Backoff(base, attempts - 1)
    ensures var acts' := acts + Waits(o, deadline, base, at, attempts);
            && TurnActs(o, deadline, base, retries, messages, acts')
            && AskCount(acts') == attempts && WaitSum(acts') <= Backoff(base, attempts)
  {
    hide BoundaryAt, AskCount, WaitSum, RanResults, Backoff, Planned;
    var more := Waits(o, deadline, base, at, attempts);
    assert Disciplined(o, deadline, more) && OnlyAsksFor(messages, more);
    BackoffGrows(base, attempts - 1);
    PlannedIsPositive(base, attempts);
    BackoffMonotone(base, attempts, retries);
    if more == [] {
      assert acts + more == acts;
    } else {
      OneAct(more[0]);
      ActsAdd(acts, more);
      ActsJoin(o, deadline, messages, acts, more);
    }
  }

  /** The turns a result reports are the assistant messages the run added, however it ended. */
  lemma TurnsCountReplies(o: Outside, deadline: real, lastTick: nat, maxSteps: nat, input: seq<Message>,
                          initialTurns: nat, turns: seq<Turn>, r: RunResult)
    requires EndsAs(o, deadline, lastTick, maxSteps, input, initialTurns, turns, r)
    ensures AssistantCount(r.messages) == AssistantCount(input) + (r.modelTurns - initialTurns)
  {
    CountsAdd(input, Rendered(turns));
    assert forall i :: 0 <= i < |turns| ==> AnswersPrefix(turns[i]);
    RenderedCounts(turns);
  }
}
