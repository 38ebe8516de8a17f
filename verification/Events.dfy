/** The event stream of an agent run, built afresh from its rows at every poll. */
module Events {
  import opened Common
  import opened Sorting

  datatype RunStatus =
    | Pending | Running | WaitingApproval
    | Completed | MaxStepsReached | TimedOut | Cancelled | Failed

  datatype CallStatus = Requested | Succeeded | CallFailed | Rejected

  datatype ToolCallRow = ToolCallRow(
    id: nat, sequenceNo: nat, toolName: string, status: CallStatus, errorCode: Option<string>,
    startedAt: Time, finishedAt: Option<Time>)

  datatype RunRow = RunRow(
    id: nat, status: RunStatus, modelTurns: nat, errorCode: Option<string>,
    startedAt: Time, finishedAt: Option<Time>)

  datatype Payload =
    | RunStatusChanged(at: Time, runId: nat, status: RunStatus, modelTurns: nat, code: Option<string>)
    | AgentStarted(at: Time, runId: nat)
    | AgentResumed(at: Time, runId: nat)
    | ToolStatusChanged(at: Time, runId: nat, callId: nat, sequenceNo: nat, toolName: string,
                        callStatus: CallStatus, code: Option<string>)
    | StepStarted(at: Time, runId: nat, callId: nat, sequenceNo: nat, toolName: string)
    | StepCompleted(at: Time, runId: nat, callId: nat, sequenceNo: nat, toolName: string,
                    callStatus: CallStatus, code: Option<string>)
    | AgentCancelled(at: Time, runId: nat)
    | AgentError(at: Time, runId: nat, error: string)

  datatype SseEvent = SseEvent(eventId: nat, data: Payload)

  predicate Active(status: RunStatus) {
    status.Pending? || status.Running? || status.WaitingApproval?
  }

  // ---- what the stream is ----

  function Opening(run: RunRow, resumed: bool): seq<Payload> {
    [ RunStatusChanged(run.startedAt, run.id, if Active(run.status) then run.status else Running, 0, None),
      if resumed then AgentResumed(run.startedAt, run.id) else AgentStarted(run.startedAt, run.id) ]
  }

  function CallEvents(runId: nat, c: ToolCallRow): seq<Payload> {
    [ ToolStatusChanged(c.startedAt, runId, c.id, c.sequenceNo, c.toolName, Requested, None),
      StepStarted(c.startedAt, runId, c.id, c.sequenceNo, c.toolName) ]
    + (if c.finishedAt.None? then []
       else
         [ ToolStatusChanged(c.finishedAt.value, runId, c.id, c.sequenceNo, c.toolName, c.status, c.errorCode),
           StepCompleted(c.finishedAt.value, runId, c.id, c.sequenceNo, c.toolName, c.status, c.errorCode) ])
  }

  function AllCallEvents(runId: nat, calls: seq<ToolCallRow>): seq<Payload> {
    if calls == [] then []
    else AllCallEvents(runId, calls[..|calls| - 1]) + CallEvents(runId, Last(calls))
  }

  function EndOf(run: RunRow): Time {
    if run.finishedAt.Some? then run.finishedAt.value else run.startedAt
  }

  function Closing(run: RunRow): seq<Payload> {
    if Active(run.status) then []
    else
      (if run.status.Cancelled? then [AgentCancelled(EndOf(run), run.id)]
       else if run.status.Failed? || run.status.TimedOut? then
         [AgentError(EndOf(run), run.id,
                     if run.errorCode.Some? then run.errorCode.value
                     else if run.status.TimedOut? then "agent_timed_out" else "agent_failed")]
       else [])
      + [RunStatusChanged(EndOf(run), run.id, run.status, run.modelTurns, run.errorCode)]
  }

  function Story(run: RunRow, calls: seq<ToolCallRow>, resumed: bool): seq<Payload> {
    Opening(run, resumed) + AllCallEvents(run.id, calls) + Closing(run)
  }

  /** Events are numbered from one. */
  function Numbered(data: seq<Payload>): seq<SseEvent> {
    seq(|data|, i requires 0 <= i < |data| => SseEvent(i + 1, data[i]))
  }

  predicate InOrder(calls: seq<ToolCallRow>) {
    forall i, k :: 0 <= i < k < |calls| ==> calls[i].sequenceNo <= calls[k].sequenceNo
  }

  function NumberOf(c: ToolCallRow): int { c.sequenceNo }

  /** The calls by number, calls with equal numbers as they came. */
  function Sorted(calls: seq<ToolCallRow>): seq<ToolCallRow> {
    SortBy(NumberOf, calls)
  }

  /** Sorting keeps every call. */
  lemma SortedIsSorted(calls: seq<ToolCallRow>)
    ensures InOrder(Sorted(calls)) && multiset(Sorted(calls)) == multiset(calls)
  {
    hide SortBy, InsertBy, WithKey, Ascending, InOrder;
    SortBySorts(NumberOf, calls, 0);
    AscendingIsInOrder(Sorted(calls));
  }

  lemma AscendingIsInOrder(calls: seq<ToolCallRow>)
    requires Ascending(NumberOf, calls)
    ensures InOrder(calls)
  {
    assert forall i :: 0 <= i < |calls| ==> NumberOf(calls[i]) == calls[i].sequenceNo;
  }

  /** Calls that are in order are left as they are. */
  lemma SortedKeepsOrder(calls: seq<ToolCallRow>)
    requires InOrder(calls)
    ensures Sorted(calls) == calls
  {
    SortByKeepsOrder(NumberOf, calls);
  }

  // ---- what the rows say, and the stream with them ----

  predicate OfCall(x: Payload) {
    x.ToolStatusChanged? || x.StepStarted? || x.StepCompleted?
  }

  /** The event is about this row: its request or start, or, once it is finished, its outcome. */
  predicate TellsRow(runId: nat, c: ToolCallRow, x: Payload) {
    match x
    case ToolStatusChanged(at, r, id, no, name, status, code) =>
      && r == runId && id == c.id && no == c.sequenceNo && name == c.toolName
      && ((at == c.startedAt && status == Requested && code == None)
          || (c.finishedAt == Some(at) && status == c.status && code == c.errorCode))
    case StepStarted(at, r, id, no, name) =>
      r == runId && id == c.id && no == c.sequenceNo && name == c.toolName && at == c.startedAt
    case StepCompleted(at, r, id, no, name, status, code) =>
      && r == runId && id == c.id && no == c.sequenceNo && name == c.toolName
      && c.finishedAt == Some(at) && status == c.status && code == c.errorCode
    case _ => false
  }

  predicate Once(data: seq<Payload>, x: Payload) { multiset(data)[x] == 1 }

  /** A row is told by its request and its start, and, once it is finished, by its outcome twice. */
  predicate RowIsTold(data: seq<Payload>, runId: nat, c: ToolCallRow) {
    && Once(data, ToolStatusChanged(c.startedAt, runId, c.id, c.sequenceNo, c.toolName, Requested, None))
    && Once(data, StepStarted(c.startedAt, runId, c.id, c.sequenceNo, c.toolName))
    && (c.finishedAt.Some? ==>
          var at := c.finishedAt.value;
          && Once(data, ToolStatusChanged(at, runId, c.id, c.sequenceNo, c.toolName, c.status, c.errorCode))
          && Once(data, StepCompleted(at, runId, c.id, c.sequenceNo, c.toolName, c.status, c.errorCode)))
  }

  /** Rows have ids of their own, and a finished one has an outcome. */
  predicate ProperRows(calls: seq<ToolCallRow>) {
    && (forall i, k :: 0 <= i < k < |calls| ==> calls[i].id != calls[k].id)
    && (forall i :: 0 <= i < |calls| && calls[i].finishedAt.Some? ==> !calls[i].status.Requested?)
  }

  /** What the stream says of an ended run behind its calls. */
  predicate TellsEnding(run: RunRow, ending: seq<Payload>) {
    var at := if run.finishedAt.Some? then run.finishedAt.value else run.startedAt;
    var over := RunStatusChanged(at, run.id, run.status, run.modelTurns, run.errorCode);
    match run.status
    case Cancelled => ending == [AgentCancelled(at, run.id), over]
    case Failed =>
      ending == [AgentError(at, run.id, if run.errorCode.Some? then run.errorCode.value
                                        else "agent_failed"), over]
    case TimedOut =>
      ending == [AgentError(at, run.id, if run.errorCode.Some? then run.errorCode.value
                                        else "agent_timed_out"), over]
    case Completed => ending == [over]
    case MaxStepsReached => ending == [over]
    case _ => ending == []
  }

  /** The stream tells the run's start, each of its calls by its own row, nothing else, and its end. */
  ghost predicate TellsRun(data: seq<Payload>, run: RunRow, calls: seq<ToolCallRow>, resumed: bool) {
    && |data| >= 2
    && data[0] == RunStatusChanged(run.startedAt, run.id,
                                   if Active(run.status) then run.status else Running, 0, None)
    && data[1] == (if resumed then AgentResumed(run.startedAt, run.id)
                   else AgentStarted(run.startedAt, run.id))
    && (exists n :: 2 <= n <= |data| && TellsEnding(run, data[n..])
                    && forall k :: 2 <= k < n ==> OfCall(data[k]))
    && (forall k :: 0 <= k < |data| && OfCall(data[k]) ==>
          exists i :: 0 <= i < |calls| && TellsRow(run.id, calls[i], data[k]))
    && (ProperRows(calls) ==> forall i :: 0 <= i < |calls| ==> RowIsTold(data, run.id, calls[i]))
  }

  lemma {:induction false} InsertTells(runId: nat, calls: seq<ToolCallRow>, c: ToolCallRow)
    ensures multiset(AllCallEvents(runId, InsertBy(NumberOf, calls, c)))
         == multiset(AllCallEvents(runId, calls)) + multiset(CallEvents(runId, c))
  {
    hide CallEvents;
    if calls == [] || NumberOf(Last(calls)) <= NumberOf(c) {
      assert (calls + [c])[..|calls|] == calls;
    } else {
      var rest := calls[..|calls| - 1];
      InsertTells(runId, rest, c);
      var longer := InsertBy(NumberOf, rest, c) + [Last(calls)];
      assert longer[..|longer| - 1] == InsertBy(NumberOf, rest, c);
    }
  }

  lemma {:induction false} SortTells(runId: nat, calls: seq<ToolCallRow>)
    ensures multiset(AllCallEvents(runId, Sorted(calls))) == multiset(AllCallEvents(runId, calls))
  {
    hide CallEvents;
    if calls != [] {
      SortTells(runId, calls[..|calls| - 1]);
      InsertTells(runId, Sorted(calls[..|calls| - 1]), Last(calls));
    }
  }

  lemma CallTells(runId: nat, c: ToolCallRow, x: Payload)
    ensures x in multiset(CallEvents(runId, c)) ==>
              TellsRow(runId, c, x) && OfCall(x) && x.callId == c.id
    ensures (c.finishedAt.Some? ==> !c.status.Requested?) && OfCall(x) && TellsRow(runId, c, x) ==>
              multiset(CallEvents(runId, c))[x] == 1
  {
  }

  /** Only rows with the id of an event tell it. */
  lemma {:induction false} CallsTell(runId: nat, calls: seq<ToolCallRow>, x: Payload)
    ensures x in multiset(AllCallEvents(runId, calls)) ==>
              exists i :: 0 <= i < |calls| && TellsRow(runId, calls[i], x)
  {
    hide CallEvents, TellsRow;
    if calls != [] {
      var rest := calls[..|calls| - 1];
      CallsTell(runId, rest, x);
      CallTells(runId, Last(calls), x);
      if i :| 0 <= i < |rest| && TellsRow(runId, rest[i], x) {
        assert TellsRow(runId, calls[i], x);
      }
    }
  }

  lemma TellsItsId(runId: nat, c: ToolCallRow, x: Payload)
    requires TellsRow(runId, c, x)
    ensures OfCall(x) && x.callId == c.id
  {
  }

  lemma {:induction false} RowTellsOnce(runId: nat, calls: seq<ToolCallRow>, i: nat, x: Payload)
    requires ProperRows(calls) && i < |calls| && TellsRow(runId, calls[i], x)
    ensures multiset(AllCallEvents(runId, calls))[x] == 1
  {
    hide CallEvents, TellsRow;
    var n := |calls| - 1;
    var rest := calls[..n];
    TellsItsId(runId, calls[i], x);
    CallTells(runId, calls[n], x);
    if i == n {
      CallsTell(runId, rest, x);
      forall k | 0 <= k < |rest| ensures !TellsRow(runId, rest[k], x) {
        if TellsRow(runId, rest[k], x) { TellsItsId(runId, rest[k], x); }
      }
    } else {
      RowTellsOnce(runId, rest, i, x);
    }
  }

  lemma RowTold(runId: nat, calls: seq<ToolCallRow>, i: nat)
    requires ProperRows(calls) && i < |calls|
    ensures RowIsTold(AllCallEvents(runId, calls), runId, calls[i])
  {
    hide AllCallEvents, ProperRows;
    var c := calls[i];
    RowTellsOnce(runId, calls, i,
                 ToolStatusChanged(c.startedAt, runId, c.id, c.sequenceNo, c.toolName, Requested, None));
    RowTellsOnce(runId, calls, i, StepStarted(c.startedAt, runId, c.id, c.sequenceNo, c.toolName));
    if c.finishedAt.Some? {
      var at := c.finishedAt.value;
      RowTellsOnce(runId, calls, i, ToolStatusChanged(at, runId, c.id, c.sequenceNo, c.toolName,
                                                      c.status, c.errorCode));
      RowTellsOnce(runId, calls, i, StepCompleted(at, runId, c.id, c.sequenceNo, c.toolName,
                                                  c.status, c.errorCode));
    }
  }

  lemma ClosingIs(run: RunRow)
    ensures TellsEnding(run, Closing(run))
    ensures forall k :: 0 <= k < |Closing(run)| ==> !OfCall(Closing(run)[k])
  {
  }

  lemma OpeningIs(run: RunRow, resumed: bool)
    ensures |Opening(run, resumed)| == 2
    ensures forall k :: 0 <= k < 2 ==> !OfCall(Opening(run, resumed)[k])
  {
  }

  lemma {:induction false} MiddleIsCalls(runId: nat, calls: seq<ToolCallRow>)
    ensures forall k :: 0 <= k < |AllCallEvents(runId, calls)| ==> OfCall(AllCallEvents(runId, calls)[k])
  {
    if calls != [] { MiddleIsCalls(runId, calls[..|calls| - 1]); }
  }

  lemma RowShown(before: seq<Payload>, middle: seq<Payload>, behind: seq<Payload>, runId: nat,
                 c: ToolCallRow)
    requires RowIsTold(middle, runId, c)
    requires forall k :: 0 <= k < |before| ==> !OfCall(before[k])
    requires forall k :: 0 <= k < |behind| ==> !OfCall(behind[k])
    ensures RowIsTold(before + middle + behind, runId, c)
  {
    forall x: Payload | OfCall(x)
      ensures multiset(before + middle + behind)[x] == multiset(middle)[x]
    {
      assert x !in multiset(before) && x !in multiset(behind);
    }
  }

  /** The story of a run tells it, row by row. */
  lemma StoryTellsRun(run: RunRow, calls: seq<ToolCallRow>, resumed: bool)
    ensures TellsRun(Story(run, Sorted(calls), resumed), run, calls, resumed)
  {
    hide AllCallEvents, Closing, TellsRow, RowIsTold, ProperRows, TellsEnding, Sorted;
    var before, middle, behind := Opening(run, resumed), AllCallEvents(run.id, Sorted(calls)), Closing(run);
    var data := Story(run, Sorted(calls), resumed);
    assert data == before + middle + behind;
    OpeningIs(run, resumed);
    ClosingIs(run);
    MiddleIsCalls(run.id, Sorted(calls));
    SortTells(run.id, calls);
    var n := 2 + |middle|;
    assert data[n..] == behind;
    forall k | 0 <= k < |data| && OfCall(data[k])
      ensures exists i :: 0 <= i < |calls| && TellsRow(run.id, calls[i], data[k])
    {
      assert data[k] == middle[k - 2];
      assert data[k] in multiset(middle);
      CallsTell(run.id, calls, data[k]);
    }
    if ProperRows(calls) {
      forall i | 0 <= i < |calls| ensures RowIsTold(data, run.id, calls[i]) {
        RowTold(run.id, calls, i);
        SameTold(AllCallEvents(run.id, calls), middle, run.id, calls[i]);
        RowShown(before, middle, behind, run.id, calls[i]);
      }
    }
  }

  lemma SameTold(a: seq<Payload>, b: seq<Payload>, runId: nat, c: ToolCallRow)
    requires RowIsTold(a, runId, c) && multiset(a) == multiset(b)
    ensures RowIsTold(b, runId, c)
  {
  }

  function DataOf(events: seq<SseEvent>): seq<Payload> {
    seq(|events|, i requires 0 <= i < |events| => events[i].data)
  }

  /** The stream is the run's story, numbered from one: its rows are told, each by itself. */
  method BuildAgentRunEventStream(run: RunRow, calls: seq<ToolCallRow>, resumed: bool)
    returns (events: seq<SseEvent>)
    ensures events == Numbered(Story(run, Sorted(calls), resumed))
    ensures forall i :: 0 <= i < |events| ==> events[i].eventId == i + 1
    ensures TellsRun(DataOf(events), run, calls, resumed)
  {
    hide Numbered, CallEvents, Closing, Sorted, TellsRun;
    StoryTellsRun(run, calls, resumed);
    NumberedIs(Story(run, Sorted(calls), resumed));
    var sorted := SortCalls(calls);
    ghost var told: seq<Payload> := [];
    events := [];
    NothingNumbered();
    events, told := Append(events, told, RunStatusChanged(
      run.startedAt, run.id, if Active(run.status) then run.status else Running, 0, None));
    events, told := Append(
      events, told,
      if resumed then AgentResumed(run.startedAt, run.id) else AgentStarted(run.startedAt, run.id));
    for i := 0 to |sorted|
      invariant told == Opening(run, resumed) + AllCallEvents(run.id, sorted[..i])
      invariant events == Numbered(told)
    {
      events, told := AppendCall(events, told, run.id, sorted[i]);
      assert sorted[..i + 1][..i] == sorted[..i];
    }
    assert sorted[..|sorted|] == sorted;
    events, told := AppendClosing(events, told, run);
  }

  method AppendCall(events: seq<SseEvent>, ghost told: seq<Payload>, runId: nat, c: ToolCallRow)
    returns (events': seq<SseEvent>, ghost told': seq<Payload>)
    requires events == Numbered(told)
    ensures told' == told + CallEvents(runId, c) && events' == Numbered(told')
  {
    hide Numbered;
    events', told' := Append(events, told, ToolStatusChanged(
      c.startedAt, runId, c.id, c.sequenceNo, c.toolName, Requested, None));
    events', told' := Append(events', told', StepStarted(c.startedAt, runId, c.id, c.sequenceNo, c.toolName));
    if c.finishedAt.Some? {
      events', told' := Append(events', told', ToolStatusChanged(
        c.finishedAt.value, runId, c.id, c.sequenceNo, c.toolName, c.status, c.errorCode));
      events', told' := Append(events', told', StepCompleted(
        c.finishedAt.value, runId, c.id, c.sequenceNo, c.toolName, c.status, c.errorCode));
    }
  }

  method AppendClosing(events: seq<SseEvent>, ghost told: seq<Payload>, run: RunRow)
    returns (events': seq<SseEvent>, ghost told': seq<Payload>)
    requires events == Numbered(told)
    ensures told' == told + Closing(run) && events' == Numbered(told')
  {
    hide Numbered;
    events', told' := events, told;
    if !Active(run.status) {
      if run.status.Cancelled? {
        events', told' := Append(events', told', AgentCancelled(EndOf(run), run.id));
      } else if run.status.Failed? || run.status.TimedOut? {
        events', told' := Append(events', told', AgentError(
          EndOf(run), run.id,
          if run.errorCode.Some? then run.errorCode.value
          else if run.status.TimedOut? then "agent_timed_out" else "agent_failed"));
      }
      events', told' := Append(events', told', RunStatusChanged(
        EndOf(run), run.id, run.status, run.modelTurns, run.errorCode));
    }
  }

  lemma NumberedIs(data: seq<Payload>)
    ensures DataOf(Numbered(data)) == data
    ensures forall i :: 0 <= i < |Numbered(data)| ==> Numbered(data)[i].eventId == i + 1
  {
  }

  lemma NothingNumbered()
    ensures Numbered([]) == []
  {
  }

  method SortCalls(calls: seq<ToolCallRow>) returns (sorted: seq<ToolCallRow>)
    ensures sorted == Sorted(calls)
  {
    sorted := [];
    for i := 0 to |calls|
      invariant sorted == Sorted(calls[..i])
    {
      assert calls[..i + 1][..i] == calls[..i];
      sorted := InsertBy(NumberOf, sorted, calls[i]);
    }
    assert calls[..|calls|] == calls;
  }

  method Append(events: seq<SseEvent>, ghost told: seq<Payload>, data: Payload)
    returns (events': seq<SseEvent>, ghost told': seq<Payload>)
    requires events == Numbered(told)
    ensures told' == told + [data] && events' == Numbered(told')
  {
    told' := told + [data];
    events' := events + [SseEvent(|events| + 1, data)];
    assert events' == Numbered(told');
  }

  // ---- what a story tells ----

  /** The four events of one finished call, ending at position `k`. */
  predicate ToldTogether(data: seq<Payload>, k: int) {
    && 3 <= k < |data| && data[k].StepCompleted?
    && var e := data[k];
    && data[k - 3].ToolStatusChanged? && data[k - 3].callStatus.Requested?
    && data[k - 3].callId == e.callId && data[k - 3].sequenceNo == e.sequenceNo
    && data[k - 2] == StepStarted(data[k - 3].at, e.runId, e.callId, e.sequenceNo, e.toolName)
    && data[k - 1] == ToolStatusChanged(e.at, e.runId, e.callId, e.sequenceNo, e.toolName,
                                        e.callStatus, e.code)
  }

  lemma {:induction false} CallsAreTold(runId: nat, calls: seq<ToolCallRow>, k: nat)
    requires k < |AllCallEvents(runId, calls)|
    ensures !AllCallEvents(runId, calls)[k].RunStatusChanged?
    ensures AllCallEvents(runId, calls)[k].StepCompleted? ==> ToldTogether(AllCallEvents(runId, calls), k)
  {
    var rest := AllCallEvents(runId, calls[..|calls| - 1]);
    if k < |rest| {
      CallsAreTold(runId, calls[..|calls| - 1], k);
    }
  }

  /** The parts of a story: two opening events, the calls' events, and a closing without steps. */
  lemma StoryParts(run: RunRow, calls: seq<ToolCallRow>, resumed: bool, k: nat)
    requires k < |Story(run, calls, resumed)|
    ensures var middle, story := AllCallEvents(run.id, calls), Story(run, calls, resumed);
            && |story| == 2 + |middle| + |Closing(run)|
            && (k < 2 ==> story[k] == Opening(run, resumed)[k])
            && (2 <= k < 2 + |middle| ==> story[k] == middle[k - 2])
            && (2 + |middle| <= k ==> story[k] == Closing(run)[k - 2 - |middle|])
  {
    hide AllCallEvents, Closing;
  }

  lemma CompletedInTheMiddle(run: RunRow, calls: seq<ToolCallRow>, resumed: bool, k: nat)
    requires k < |Story(run, calls, resumed)| && Story(run, calls, resumed)[k].StepCompleted?
    ensures 2 <= k < 2 + |AllCallEvents(run.id, calls)|
    ensures AllCallEvents(run.id, calls)[k - 2].StepCompleted?
    ensures |Opening(run, resumed)| == 2
  {
    hide AllCallEvents, Story;
    StoryParts(run, calls, resumed, k);
  }

  lemma TogetherShifts(before: seq<Payload>, middle: seq<Payload>, behind: seq<Payload>, k: nat)
    requires ToldTogether(middle, k)
    ensures ToldTogether(before + middle + behind, |before| + k)
  {
    var all, n := before + middle + behind, |before|;
    assert all[n + k] == middle[k] && all[n + k - 1] == middle[k - 1];
    assert all[n + k - 2] == middle[k - 2] && all[n + k - 3] == middle[k - 3];
  }

  /** Whenever a step is told completed, its request, start and outcome were told right before. */
  lemma CompletedIsTold(run: RunRow, calls: seq<ToolCallRow>, resumed: bool, k: nat)
    requires k < |Story(run, calls, resumed)| && Story(run, calls, resumed)[k].StepCompleted?
    ensures ToldTogether(Story(run, calls, resumed), k)
  {
    hide AllCallEvents, ToldTogether, Opening, Closing;
    CompletedInTheMiddle(run, calls, resumed, k);
    CallsAreTold(run.id, calls, k - 2);
    TogetherShifts(Opening(run, resumed), AllCallEvents(run.id, calls), Closing(run), k - 2);
  }

  predicate TellsEnd(data: seq<Payload>, k: int) {
    0 <= k < |data| && data[k].RunStatusChanged? && !Active(data[k].status)
  }

  /** An end is told exactly when there is one: with the run's status, last, and only there. */
  lemma EndIsToldOnce(run: RunRow, calls: seq<ToolCallRow>, resumed: bool, k: nat)
    ensures var story := Story(run, calls, resumed);
            && (TellsEnd(story, k) <==> !Active(run.status) && k == |story| - 1)
            && (TellsEnd(story, k) ==>
                  story[k].status == run.status && story[k].modelTurns == run.modelTurns
                  && story[k].code == run.errorCode)
  {
    hide AllCallEvents;
    var middle := AllCallEvents(run.id, calls);
    if 0 <= k < |Story(run, calls, resumed)| {
      StoryParts(run, calls, resumed, k);
      if 2 <= k < 2 + |middle| { CallsAreTold(run.id, calls, k - 2); }
    }
  }

  // ---- the rows as the recorder moves them on ----

  datatype Snapshot = Snapshot(run: RunRow, calls: seq<ToolCallRow>)

  /** What the recorder commits while a run is running, from its start to its end. */
  datatype RecorderStep =
    | StartCall(call: ToolCallRow)
    | FinishCall(status: CallStatus, code: Option<string>, at: Time)
    | Checkpoint(turns: nat)
    | FinishRun(end: RunStatus, turns: nat, code: Option<string>, at: Time)

  /** The loop starts calls one after another and finishes each before the next. */
  predicate Allowed(s: Snapshot, step: RecorderStep) {
    && s.run.status.Running?
    && match step
       case StartCall(c) =>
         && c.finishedAt.None?
         && forall i :: 0 <= i < |s.calls| ==> s.calls[i].sequenceNo < c.sequenceNo
       case FinishCall(_, _, _) => s.calls != [] && Last(s.calls).finishedAt.None?
       case Checkpoint(_) => true
       case FinishRun(end, _, _, _) => !Active(end)
  }

  function Record(s: Snapshot, step: RecorderStep): Snapshot
    requires Allowed(s, step)
  {
    match step
    case StartCall(c) => s.(calls := s.calls + [c])
    case FinishCall(status, code, at) =>
      var c := Last(s.calls);
      s.(calls := s.calls[..|s.calls| - 1]
                  + [c.(status := status, errorCode := code, finishedAt := Some(at))])
    case Checkpoint(turns) => s.(run := s.run.(modelTurns := turns))
    case FinishRun(end, turns, code, at) =>
      s.(run := s.run.(status := end, modelTurns := turns, errorCode := code, finishedAt := Some(at)))
  }

  function Told(s: Snapshot, resumed: bool): seq<Payload> {
    Story(s.run, Sorted(s.calls), resumed)
  }

  /** The events a step is told by: the call's start or outcome, the run's end, nothing for a checkpoint. */
  predicate StepAdds(s: Snapshot, step: RecorderStep, added: seq<Payload>)
    requires Allowed(s, step)
  {
    var id := s.run.id;
    match step
    case StartCall(c) =>
      added == [ ToolStatusChanged(c.startedAt, id, c.id, c.sequenceNo, c.toolName, Requested, None),
                 StepStarted(c.startedAt, id, c.id, c.sequenceNo, c.toolName) ]
    case FinishCall(status, code, at) =>
      var c := Last(s.calls);
      added == [ ToolStatusChanged(at, id, c.id, c.sequenceNo, c.toolName, status, code),
                 StepCompleted(at, id, c.id, c.sequenceNo, c.toolName, status, code) ]
    case Checkpoint(_) => added == []
    case FinishRun(end, turns, code, at) =>
      TellsEnding(RunRow(id, end, turns, code, s.run.startedAt, Some(at)), added)
  }

  /** Each committed step only adds to the end of the story, and what it adds tells the step. */
  lemma StepExtendsStory(s: Snapshot, step: RecorderStep, resumed: bool)
    requires InOrder(s.calls) && Allowed(s, step)
    ensures InOrder(Record(s, step).calls)
    ensures Told(s, resumed) <= Told(Record(s, step), resumed)
    ensures StepAdds(s, step, Told(Record(s, step), resumed)[|Told(s, resumed)|..])
    ensures step.Checkpoint? ==> Record(s, step).run.modelTurns == step.turns
  {
    hide AllCallEvents, CallEvents, Sorted, InOrder, Closing, TellsEnding;
    var s' := Record(s, step);
    RecordKeepsOrder(s, step);
    SortedKeepsOrder(s.calls);
    SortedKeepsOrder(s'.calls);
    CallsAdd(s, step);
    ClosingIs(s'.run);
    NoClosing(s.run);
    assert Opening(s'.run, resumed) == Opening(s.run, resumed);
    var told, more := Told(s, resumed), Told(s', resumed);
    if step.FinishRun? {
      assert more == told + Closing(s'.run);
    } else {
      NoClosing(s'.run);
      assert more == told + AllCallEvents(s.run.id, s'.calls)[|AllCallEvents(s.run.id, s.calls)|..];
    }
  }

  lemma NoClosing(run: RunRow)
    requires Active(run.status)
    ensures Closing(run) == []
  {
  }

  lemma CallsAdd(s: Snapshot, step: RecorderStep)
    requires Allowed(s, step)
    ensures var before, after := AllCallEvents(s.run.id, s.calls), AllCallEvents(s.run.id, Record(s, step).calls);
            && Record(s, step).run.id == s.run.id && before <= after
            && (if step.FinishRun? then after == before else StepAdds(s, step, after[|before|..]))
  {
    hide TellsEnding;
    var s' := Record(s, step);
    if step.StartCall? {
      assert s'.calls[..|s.calls|] == s.calls;
    } else if step.FinishCall? {
      var n := |s.calls| - 1;
      assert s'.calls[..n] == s.calls[..n];
    }
  }

  lemma RecordKeepsOrder(s: Snapshot, step: RecorderStep)
    requires InOrder(s.calls) && Allowed(s, step)
    ensures InOrder(Record(s, step).calls)
  {
  }

  /** A pending run that starts is the exception: its first event is rewritten, not followed. */
  lemma StartingRewritesTheFirstEvent(s: Snapshot, resumed: bool)
    requires s.run.status.Pending?
    ensures !(Told(s, resumed) <= Told(s.(run := s.run.(status := Running)), resumed))
  {
    var s' := s.(run := s.run.(status := Running));
    assert Told(s, resumed)[0] == Opening(s.run, resumed)[0];
    assert Told(s', resumed)[0] == Opening(s'.run, resumed)[0];
  }

  /** The snapshots one running lifecycle leads through. */
  ghost predicate IsLifecycle(states: seq<Snapshot>, steps: seq<RecorderStep>) {
    && |states| == |steps| + 1
    && InOrder(states[0].calls)
    && forall i :: 0 <= i < |steps| ==> Allowed(states[i], steps[i]) && states[i + 1] == Record(states[i], steps[i])
  }

  lemma {:induction false} LifecycleExtendsStory(states: seq<Snapshot>, steps: seq<RecorderStep>,
                                                 i: nat, k: nat, resumed: bool)
    requires IsLifecycle(states, steps) && i <= k < |states|
    ensures InOrder(states[k].calls)
    ensures Told(states[i], resumed) <= Told(states[k], resumed)
    decreases k
  {
    hide Story;
    if k > 0 {
      LifecycleExtendsStory(states, steps, 0, k - 1, resumed);
      if i < k { LifecycleExtendsStory(states, steps, i, k - 1, resumed); }
      StepExtendsStory(states[k - 1], steps[k - 1], resumed);
    }
  }

  lemma LifecycleShape(states: seq<Snapshot>, steps: seq<RecorderStep>)
    requires IsLifecycle(states, steps)
    ensures |states| == |steps| + 1
  {
  }

  lemma RecordedWhileRunning(states: seq<Snapshot>, steps: seq<RecorderStep>, i: nat)
    requires IsLifecycle(states, steps) && i < |steps|
    ensures Active(states[i].run.status)
  {
    assert Allowed(states[i], steps[i]);
  }

  /** Nothing is recorded after a run's end: a terminal snapshot is the last one. */
  lemma TerminalIsLast(states: seq<Snapshot>, steps: seq<RecorderStep>, i: nat)
    requires IsLifecycle(states, steps) && i < |states| == |steps| + 1
    ensures !Active(states[i].run.status) ==> i == |states| - 1
  {
    if i < |steps| {
      RecordedWhileRunning(states, steps, i);
    }
  }

  // ---- polling ----

  /** One round of the reader: the moments it reads the run's row and, later, the call rows. */
  datatype Poll = Poll(run: nat, calls: nat)

  /** Any moments, in the order of the reads. */
  predicate IsSchedule(polls: seq<Poll>, moments: nat) {
    && (forall i :: 0 <= i < |polls| ==> polls[i].run <= polls[i].calls < moments)
    && (forall i, k :: 0 <= i < k < |polls| ==> polls[i].calls <= polls[k].run)
  }

  /** What a round sees: a run and calls that may never have been stored together. */
  function Seen(states: seq<Snapshot>, p: Poll): Snapshot
    requires p.run < |states| && p.calls < |states|
  {
    Snapshot(states[p.run].run, states[p.calls].calls)
  }

  lemma StepGrows(s: Snapshot, step: RecorderStep, resumed: bool)
    requires InOrder(s.calls) && Allowed(s, step)
    ensures var s' := Record(s, step);
            && InOrder(s'.calls) && s'.run.id == s.run.id
            && AllCallEvents(s.run.id, s.calls) <= AllCallEvents(s.run.id, s'.calls)
            && Opening(s'.run, resumed) == Opening(s.run, resumed)
  {
    hide AllCallEvents, InOrder;
    RecordKeepsOrder(s, step);
    CallsAdd(s, step);
  }

  /** The parts of the story one by one: the calls' events grow, the opening stays. */
  lemma {:induction false} PartsGrow(states: seq<Snapshot>, steps: seq<RecorderStep>, i: nat, k: nat,
                                     resumed: bool)
    requires IsLifecycle(states, steps) && i <= k < |states|
    ensures InOrder(states[i].calls) && InOrder(states[k].calls)
    ensures states[k].run.id == states[i].run.id
    ensures AllCallEvents(states[i].run.id, states[i].calls) <= AllCallEvents(states[i].run.id, states[k].calls)
    ensures Opening(states[k].run, resumed) == Opening(states[i].run, resumed)
    decreases k
  {
    hide AllCallEvents, Opening, InOrder, Allowed, Record;
    if k > 0 {
      PartsGrow(states, steps, if i < k then i else k - 1, k - 1, resumed);
      StepGrows(states[k - 1], steps[k - 1], resumed);
    }
  }

  /** Reading run and calls apart, a later round still only extends what an earlier one saw. */
  lemma SeenExtends(states: seq<Snapshot>, steps: seq<RecorderStep>, p: Poll, q: Poll, resumed: bool)
    requires IsLifecycle(states, steps)
    requires p.run <= p.calls <= q.run <= q.calls < |states| == |steps| + 1
    ensures Told(Seen(states, p), resumed) <= Told(Seen(states, q), resumed)
  {
    hide AllCallEvents, Opening, InOrder, IsLifecycle;
    if p.run < |steps| {
      RecordedWhileRunning(states, steps, p.run);
      PartsGrow(states, steps, p.run, p.calls, resumed);
      PartsGrow(states, steps, p.run, q.run, resumed);
      PartsGrow(states, steps, p.calls, q.calls, resumed);
      SortedKeepsOrder(states[p.calls].calls);
      SortedKeepsOrder(states[q.calls].calls);
    }
  }

  /** Everything a reader with cursor `after` still has to see of a story. */
  function Rest(data: seq<Payload>, after: nat): seq<SseEvent> {
    if after <= |data| then Numbered(data)[after..] else []
  }

  /**
    The reader's loop, polling at the given moments and stopping after the first terminal state:
    whatever the schedule, it sends what follows its cursor in the latest story it saw, each event
    once and in order; once it stops, that is the final story.
   */
  method StreamAgentRunEvents(states: seq<Snapshot>, ghost steps: seq<RecorderStep>, polls: seq<Poll>,
                              resumed: bool, after: nat)
    returns (sent: seq<SseEvent>, used: nat)
    requires IsLifecycle(states, steps) && IsSchedule(polls, |states|)
    ensures used <= |polls|
    ensures forall i :: 0 <= i < used - 1 ==> Active(states[polls[i].run].run.status)
    ensures used < |polls| ==> used > 0 && !Active(states[polls[used - 1].run].run.status)
    ensures sent == if used == 0 then [] else Rest(Told(Seen(states, polls[used - 1]), resumed), after)
    ensures used > 0 && !Active(states[polls[used - 1].run].run.status) ==>
              sent == Rest(Told(Last(states), resumed), after)
  {
    hide *;
    sent, used := [], 0;
    var emitted := after;
    LifecycleShape(states, steps);
    NothingSeen(states, polls, resumed, after);
    while used < |polls|
      invariant used <= |polls|
      invariant StillActive(states, polls, used)
      invariant CaughtUp(states, polls, used, resumed, after, sent, emitted)
    {
      PollInRange(polls, |states|, used);
      var run := states[polls[used].run].run;
      var calls := states[polls[used].calls].calls;
      var events := BuildAgentRunEventStream(run, calls, resumed);
      SeenIsTold(states, polls[used], resumed);
      EventsNumbered(Told(Seen(states, polls[used]), resumed));
      var more, next := SendFrom(events, emitted);
      PollCatchesUp(states, steps, polls, used, resumed, after, sent, emitted);
      sent, emitted := sent + more, next;
      used := used + 1;
      PollsEnd(states, steps, polls, used, resumed, after, sent, emitted);
      if !Active(run.status) { return; }
    }
    if used == 0 {
      NothingSent(states, polls, resumed, after, sent, emitted);
    } else {
      FewerActive(states, polls, used);
      PollsEnd(states, steps, polls, used, resumed, after, sent, emitted);
    }
  }

  predicate StillActive(states: seq<Snapshot>, polls: seq<Poll>, used: nat) {
    used <= |polls| && forall i :: 0 <= i < used ==>
      polls[i].run < |states| && Active(states[polls[i].run].run.status)
  }

  /** The reader has sent all that follows its cursor in what round `used - 1` saw. */
  predicate CaughtUp(states: seq<Snapshot>, polls: seq<Poll>, used: nat, resumed: bool, after: nat,
                     sent: seq<SseEvent>, emitted: nat) {
    && used <= |polls|
    && if used == 0 then sent == [] && emitted == after
       else
         && polls[used - 1].run < |states| && polls[used - 1].calls < |states|
         && var seen := Told(Seen(states, polls[used - 1]), resumed);
         && sent == Rest(seen, after) && emitted == Reached(seen, after)
  }

  lemma NothingSeen(states: seq<Snapshot>, polls: seq<Poll>, resumed: bool, after: nat)
    ensures StillActive(states, polls, 0) && CaughtUp(states, polls, 0, resumed, after, [], after)
  {
  }

  lemma NothingSent(states: seq<Snapshot>, polls: seq<Poll>, resumed: bool, after: nat,
                    sent: seq<SseEvent>, emitted: nat)
    requires CaughtUp(states, polls, 0, resumed, after, sent, emitted)
    ensures sent == []
  {
  }

  lemma FewerActive(states: seq<Snapshot>, polls: seq<Poll>, used: nat)
    requires used > 0 && StillActive(states, polls, used)
    ensures StillActive(states, polls, used - 1)
  {
  }

  lemma PollInRange(polls: seq<Poll>, moments: nat, i: nat)
    requires IsSchedule(polls, moments) && i < |polls|
    ensures polls[i].run <= polls[i].calls < moments
    ensures i > 0 ==> polls[i - 1].run <= polls[i - 1].calls <= polls[i].run
  {
  }

  lemma SeenIsTold(states: seq<Snapshot>, p: Poll, resumed: bool)
    requires p.run < |states| && p.calls < |states|
    ensures Told(Seen(states, p), resumed) == Story(states[p.run].run, Sorted(states[p.calls].calls), resumed)
  {
  }

  lemma EventsNumbered(data: seq<Payload>)
    ensures |Numbered(data)| == |data|
    ensures forall i :: 0 <= i < |Numbered(data)| ==> Numbered(data)[i].eventId == i + 1
  {
  }

  /** Sending the events behind the cursor catches up with one more round. */
  lemma PollCatchesUp(states: seq<Snapshot>, steps: seq<RecorderStep>, polls: seq<Poll>, used: nat,
                      resumed: bool, after: nat, sent: seq<SseEvent>, emitted: nat)
    requires IsLifecycle(states, steps) && IsSchedule(polls, |states|) && used < |polls|
    requires CaughtUp(states, polls, used, resumed, after, sent, emitted)
    requires polls[used].run < |states| && polls[used].calls < |states|
    ensures var events := Numbered(Told(Seen(states, polls[used]), resumed));
            var more := if emitted <= |events| then events[emitted..] else [];
            CaughtUp(states, polls, used + 1, resumed, after, sent + more,
                     if emitted <= |events| then |events| else emitted)
  {
    hide Told, Rest, Reached, Numbered, Seen, IsLifecycle, IsSchedule;
    PollInRange(polls, |states|, used);
    LifecycleShape(states, steps);
    var seen := Told(Seen(states, polls[used]), resumed);
    EventsNumbered(seen);
    if used == 0 {
      RestBegins(seen, after);
    } else {
      SeenExtends(states, steps, polls[used - 1], polls[used], resumed);
      RestGrows(Told(Seen(states, polls[used - 1]), resumed), seen, after);
    }
  }

  /** What having caught up means when the reader looks no further. */
  lemma PollsEnd(states: seq<Snapshot>, steps: seq<RecorderStep>, polls: seq<Poll>, used: nat,
                 resumed: bool, after: nat, sent: seq<SseEvent>, emitted: nat)
    requires IsLifecycle(states, steps) && IsSchedule(polls, |states|) && 0 < used <= |polls|
    requires CaughtUp(states, polls, used, resumed, after, sent, emitted)
    requires StillActive(states, polls, used - 1)
    ensures polls[used - 1].run < |states| && polls[used - 1].calls < |states|
    ensures forall i :: 0 <= i < used - 1 ==>
              polls[i].run < |states| && Active(states[polls[i].run].run.status)
    ensures Active(states[polls[used - 1].run].run.status) ==> StillActive(states, polls, used)
    ensures sent == Rest(Told(Seen(states, polls[used - 1]), resumed), after)
    ensures !Active(states[polls[used - 1].run].run.status) ==>
              sent == Rest(Told(Last(states), resumed), after)
  {
    hide Told, Rest, Reached, IsLifecycle, IsSchedule, Active;
    PollInRange(polls, |states|, used - 1);
    LifecycleShape(states, steps);
    TerminalIsLast(states, steps, polls[used - 1].run);
  }

  /** How far a reader with cursor `after` is once it has seen all of a story. */
  function Reached(data: seq<Payload>, after: nat): nat {
    if after <= |data| then |data| else after
  }

  /** Sends the events behind the cursor, one by one, and moves the cursor to the last one's id. */
  method SendFrom(events: seq<SseEvent>, cursor: nat) returns (sent: seq<SseEvent>, emitted: nat)
    requires forall i :: 0 <= i < |events| ==> events[i].eventId == i + 1
    ensures sent == if cursor <= |events| then events[cursor..] else []
    ensures emitted == if cursor <= |events| then |events| else cursor
  {
    sent, emitted := [], cursor;
    for i := cursor to if cursor <= |events| then |events| else cursor
      invariant cursor <= |events| ==> sent == events[cursor..i]
      invariant cursor > |events| ==> sent == []
      invariant emitted == i
    {
      emitted := events[i].eventId;
      sent := sent + [events[i]];
    }
  }

  lemma RestBegins(data: seq<Payload>, after: nat)
    ensures |Numbered(data)| == |data|
    ensures forall i :: 0 <= i < |data| ==> Numbered(data)[i].eventId == i + 1
    ensures Rest(data, after) == if after <= |data| then Numbered(data)[after..] else []
    ensures Reached(data, after) == if after <= |data| then |data| else after
  {
  }

  /** What a reader gets in two polls is what it gets in one. */
  lemma RestGrows(earlier: seq<Payload>, data: seq<Payload>, after: nat)
    requires earlier <= data
    ensures |Numbered(data)| == |data|
    ensures forall i :: 0 <= i < |data| ==> Numbered(data)[i].eventId == i + 1
    ensures var cursor := Reached(earlier, after);
            && Rest(data, after)
               == Rest(earlier, after) + (if cursor <= |data| then Numbered(data)[cursor..] else [])
            && Reached(data, after) == if cursor <= |data| then |data| else cursor
  {
  }
}
