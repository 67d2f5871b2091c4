/** What a run leaves stored of its calls, its words and its compactions, and what later runs are shown of it. */
module SessionMemory {
  import opened Wrappers
  import opened Messages
  import opened Providers
  import opened Compaction
  import opened CompactionTheorems
  import opened ToolDispatch
  import opened RunLog
  import opened RunTrace
  import opened RunReasons
  import opened HarnessRunner
  import opened SessionHistory
  import opened SessionRuns
  import opened ForgottenHistory
  import Text

  // ---------------------------------------------------------------- the part of a call

  /** The event tells of the call with this id. */
  predicate About(e: Event, id: string) {
    e.ToolCallEvent? && e.event.callId == id
  }

  predicate NothingAbout(events: seq<Event>, id: string, from: nat, to: nat)
    requires from <= to <= |events|
  {
    forall k :: from <= k < to ==> !About(events[k], id)
  }

  predicate IsStartOf(e: Event, id: string, tool: string, arguments: string) {
    e.ToolCallEvent? && e.event == ToolStarted(id, tool, arguments)
  }

  predicate IsEndOf(e: Event, id: string) {
    About(e, id) && !e.event.ToolStarted?
  }

  /** What the event that ends a call reports. */
  function EndText(e: ToolEvent): string
    requires !e.ToolStarted?
  {
    if e.ToolCompleted? then e.output else e.error
  }

  /** The part of a call is done or failed, as the event says. */
  predicate EndsAs(part: StoredPart, id: string, e: ToolEvent)
    requires !e.ToolStarted?
  {
    && part.kind.StoredTool? && part.callId == id
    && part.state == (if e.ToolCompleted? then PartDone else PartError)
    && (EndText(e) != "" ==> part.output == EndText(e))
  }

  function DraftOf(rowId: string, events: seq<Event>): (d: Draft)
    ensures WellFormed(d)
  {
    PersistedAll(Draft(BlankAssistant(rowId), None, None, map[]), events)
  }

  lemma {:induction false} DraftSnoc(rowId: string, events: seq<Event>, n: nat)
    requires n < |events|
    ensures DraftOf(rowId, events[..n + 1]) == Persisted(DraftOf(rowId, events[..n]), events[n])
  {
    hide Persisted;
    assert events[..n + 1][..n] == events[..n];
  }

  lemma {:induction false} DraftKept(rowId: string, events: seq<Event>)
    ensures CallsKept(DraftOf(rowId, events))
  {
    BlankDraft(BlankAssistant(rowId));
    PersistedCalls(Draft(BlankAssistant(rowId), None, None, map[]), events);
  }

  /** The part at `i` is that of this call, and the call id leads to it if it leads anywhere. */
  predicate IsPartOf(d: Draft, i: nat, id: string) {
    i < |d.row.parts| && d.row.parts[i].kind.StoredTool? && d.row.parts[i].callId == id
  }

  /** Events about other calls leave the part of a call alone. */
  lemma {:induction false} PartStays(d: Draft, e: Event, i: nat, id: string)
    requires WellFormed(d) && CallsKept(d) && IsPartOf(d, i, id) && id != "" && !About(e, id)
    ensures var r := Persisted(d, e);
      && IsPartOf(r, i, id) && r.row.parts[i] == d.row.parts[i]
      && (id in d.toolParts ==> id in r.toolParts && r.toolParts[id] == d.toolParts[id])
  {
    var edit := EditOf(d, e);
    if edit.Replace? {
      assert edit.index != i;
    }
  }

  lemma {:induction false} PartStaysTo(rowId: string, events: seq<Event>, n: nat, i: nat, id: string)
    requires n <= |events| && IsPartOf(DraftOf(rowId, events[..n]), i, id) && id != ""
    requires NothingAbout(events, id, n, |events|)
    ensures var d, r := DraftOf(rowId, events[..n]), DraftOf(rowId, events);
      && IsPartOf(r, i, id) && r.row.parts[i] == d.row.parts[i]
      && (id in d.toolParts ==> id in r.toolParts && r.toolParts[id] == d.toolParts[id])
    decreases |events| - n
  {
    hide DraftOf, Persisted, CallsKept, About, IsPartOf;
    if n == |events| {
      assert events[..n] == events;
    } else {
      DraftSnoc(rowId, events, n);
      DraftKept(rowId, events[..n]);
      PartStays(DraftOf(rowId, events[..n]), events[n], i, id);
      PartStaysTo(rowId, events, n + 1, i, id);
    }
  }

  /** A start makes a part of its own. */
  lemma {:induction false} StartMakesPart(d: Draft, e: Event, id: string, tool: string, arguments: string)
    requires WellFormed(d) && IsStartOf(e, id, tool, arguments)
    ensures var r, i := Persisted(d, e), |d.row.parts|;
      && IsPartOf(r, i, id) && id in r.toolParts && r.toolParts[id] == i
      && r.row.parts[i] == StoredPart(StoredTool, PartRunning, id, "", tool, arguments, "", "")
  {
  }

  /** An end goes to the part its call id leads to. */
  lemma {:induction false} EndGoesToItsPart(d: Draft, e: Event, id: string)
    requires WellFormed(d) && CallsKept(d) && IsEndOf(e, id) && id in d.toolParts
    ensures var r, i := Persisted(d, e), d.toolParts[id];
      && IsPartOf(d, i, id) && IsPartOf(r, i, id) && EndsAs(r.row.parts[i], id, e.event)
      && (d.row.parts[i].output == "" ==> r.row.parts[i].output == EndText(e.event))
      && r.row.parts[i].tool == d.row.parts[i].tool && r.row.parts[i].arguments == d.row.parts[i].arguments
      && r.row.parts[i].title == d.row.parts[i].title
  {
  }

  /** Whatever was told of the call before, its end goes to a part of it. */
  lemma {:induction false} EndGoesSomewhere(d: Draft, e: Event, id: string) returns (i: nat)
    requires WellFormed(d) && CallsKept(d) && IsEndOf(e, id) && id != ""
    ensures var r := Persisted(d, e); IsPartOf(r, i, id) && EndsAs(r.row.parts[i], id, e.event)
    ensures id !in CallIds(d.row.parts) && id !in d.toolParts ==>
              Persisted(d, e).row.parts[i] ==
              StoredPart(StoredTool, if e.event.ToolCompleted? then PartDone else PartError, id, e.event.tool, "", "",
                         EndText(e.event), "")
  {
    i := ToolTarget(d, id);
    TargetIsKnown(d, id);
  }

  /**
   * The last event that ends a call decides what its part is: done or failed, and with what the event
   * reports.
   */
  lemma {:induction false} EndedCallIsStored(rowId: string, events: seq<Event>, n: nat, id: string) returns (i: nat)
    requires n < |events| && IsEndOf(events[n], id) && id != "" && NothingAbout(events, id, n + 1, |events|)
    ensures IsPartOf(DraftOf(rowId, events), i, id)
    ensures EndsAs(Written(rowId, events).parts[i], id, events[n].event)
  {
    hide DraftOf, Persisted, CallsKept, IsEndOf, About, EndsAs;
    DraftSnoc(rowId, events, n);
    DraftKept(rowId, events[..n]);
    i := EndGoesSomewhere(DraftOf(rowId, events[..n]), events[n], id);
    PartStaysTo(rowId, events, n + 1, i, id);
    WrittenIsDraft(rowId, events);
  }

  lemma {:induction false} WrittenIsDraft(rowId: string, events: seq<Event>)
    ensures Written(rowId, events) == DraftOf(rowId, events).row
  {
  }

  /** A call that was started and has ended has its name, its arguments and what its end reports. */
  lemma {:induction false} StartedCallIsStored(
    rowId: string, events: seq<Event>, m: nat, n: nat, id: string, tool: string, arguments: string) returns (i: nat)
    requires m < n < |events| && id != "" && IsStartOf(events[m], id, tool, arguments) && IsEndOf(events[n], id)
    requires NothingAbout(events, id, m + 1, n) && NothingAbout(events, id, n + 1, |events|)
    ensures var d, e := DraftOf(rowId, events), events[n].event;
      && IsPartOf(d, i, id) && EndsAs(d.row.parts[i], id, e) && d.row.parts[i].output == EndText(e)
      && d.row.parts[i].tool == tool && d.row.parts[i].arguments == arguments && d.row.parts[i].title == ""
  {
    hide DraftOf, Persisted, CallsKept, IsEndOf, IsStartOf, About, EndsAs, IsPartOf;
    DraftSnoc(rowId, events, m);
    StartMakesPart(DraftOf(rowId, events[..m]), events[m], id, tool, arguments);
    i := |DraftOf(rowId, events[..m]).row.parts|;
    assert events[..n][..m + 1] == events[..m + 1];
    PartStaysTo(rowId, events[..n], m + 1, i, id);
    DraftSnoc(rowId, events, n);
    DraftKept(rowId, events[..n]);
    EndGoesToItsPart(DraftOf(rowId, events[..n]), events[n], id);
    PartStaysTo(rowId, events, n + 1, i, id);
  }

  /** A call that ends without a start has the name and the report of its end. */
  lemma {:induction false} UnstartedCallIsStored(rowId: string, events: seq<Event>, n: nat, id: string) returns (i: nat)
    requires n < |events| && id != "" && IsEndOf(events[n], id)
    requires NothingAbout(events, id, 0, n) && NothingAbout(events, id, n + 1, |events|)
    ensures var d, e := DraftOf(rowId, events), events[n].event;
      && IsPartOf(d, i, id) && EndsAs(d.row.parts[i], id, e) && d.row.parts[i].output == EndText(e)
      && d.row.parts[i].title == e.tool && d.row.parts[i].tool == "" && d.row.parts[i].arguments == ""
  {
    hide DraftOf, Persisted, CallsKept, IsEndOf, About;
    DraftSnoc(rowId, events, n);
    DraftKept(rowId, events[..n]);
    NothingKnown(rowId, events[..n], id);
    i := EndGoesSomewhere(DraftOf(rowId, events[..n]), events[n], id);
    PartStaysTo(rowId, events, n + 1, i, id);
  }

  lemma {:induction false} NothingKnown(rowId: string, events: seq<Event>, id: string)
    requires id != "" && NothingAbout(events, id, 0, |events|)
    ensures id !in CallIds(DraftOf(rowId, events).row.parts) && id !in DraftOf(rowId, events).toolParts
  {
    BlankDraft(BlankAssistant(rowId));
    PersistedCalls(Draft(BlankAssistant(rowId), None, None, map[]), events);
    DraftKept(rowId, events);
    NothingTold(events, id);
    var d := DraftOf(rowId, events);
    CallIdsMean(d.row.parts, id);
    assert forall k :: k in d.toolParts ==> d.row.parts[d.toolParts[k]].callId == k;
  }

  lemma {:induction false} NothingTold(events: seq<Event>, id: string)
    requires NothingAbout(events, id, 0, |events|)
    ensures id !in CallsToldOf(events)
  {
    if events != [] {
      NothingTold(events[..|events| - 1], id);
    }
  }

  /** A call that never ended is still running. */
  lemma {:induction false} RunningCallIsStored(
    rowId: string, events: seq<Event>, m: nat, id: string, tool: string, arguments: string) returns (i: nat)
    requires m < |events| && id != "" && IsStartOf(events[m], id, tool, arguments)
    requires NothingAbout(events, id, m + 1, |events|)
    ensures i < |Written(rowId, events).parts|
    ensures Written(rowId, events).parts[i] == StoredPart(StoredTool, PartRunning, id, "", tool, arguments, "", "")
  {
    hide DraftOf, Persisted, CallsKept, About, IsStartOf;
    DraftSnoc(rowId, events, m);
    StartMakesPart(DraftOf(rowId, events[..m]), events[m], id, tool, arguments);
    i := |DraftOf(rowId, events[..m]).row.parts|;
    PartStaysTo(rowId, events, m + 1, i, id);
    WrittenIsDraft(rowId, events);
  }

  // ---------------------------------------------------------------- how a stored answer is shown

  predicate IsSettledCall(part: StoredPart) {
    part.kind.StoredTool? && (part.state.PartDone? || part.state.PartError?) && part.callId != ""
  }

  /** The positions of the settled calls of a message. */
  ghost predicate AreSettled(parts: seq<StoredPart>, settled: seq<int>) {
    && (forall x, y :: 0 <= x < y < |settled| ==> settled[x] < settled[y])
    && (forall j :: j in settled <==> 0 <= j < |parts| && IsSettledCall(parts[j]))
  }

  lemma {:induction false} AddSettled(parts: seq<StoredPart>, part: StoredPart, settled: seq<int>)
    requires AreSettled(parts, settled)
    ensures AreSettled(parts + [part], if IsSettledCall(part) then settled + [|parts|] else settled)
    ensures forall x :: 0 <= x < |settled| ==> 0 <= settled[x] < |parts|
  {
    hide IsSettledCall;
    assert forall x :: 0 <= x < |settled| ==> settled[x] in settled;
    var more := if IsSettledCall(part) then settled + [|parts|] else settled;
    forall j
      ensures j in more <==> 0 <= j < |parts + [part]| && IsSettledCall((parts + [part])[j])
    {
      assert j in more <==> j in settled || (IsSettledCall(part) && j == |parts|);
      assert 0 <= j < |parts| ==> (parts + [part])[j] == parts[j];
    }
  }

  lemma {:induction false} AnsweredSnoc(parts: seq<StoredPart>, part: StoredPart)
    ensures AnsweredParts(parts + [part]) == AnsweredParts(parts) + if IsSettledCall(part) then [part] else []
  {
    assert (parts + [part])[..|parts|] == parts;
  }

  lemma {:induction false} SettledCalls(parts: seq<StoredPart>) returns (settled: seq<int>)
    ensures AreSettled(parts, settled) && |AnsweredParts(parts)| == |settled|
    ensures forall x :: 0 <= x < |settled| ==>
              0 <= settled[x] < |parts| && AnsweredParts(parts)[x] == parts[settled[x]]
  {
    settled := [];
    if parts != [] {
      hide AreSettled, IsSettledCall, AnsweredParts;
      var init, last := parts[..|parts| - 1], parts[|parts| - 1];
      assert parts == init + [last];
      settled := SettledCalls(init);
      AddSettled(init, last, settled);
      AnsweredSnoc(init, last);
      if IsSettledCall(last) {
        settled := settled + [|init|];
      }
    }
  }

  /** A settled call as it is shown: with its name, its arguments, and its own output. */
  predicate ShowsCall(call: ToolCall, result: Message, part: StoredPart, clip: string -> string) {
    && call.id == part.callId
    && call.name == (if part.tool != "" then part.tool else if part.title != "" then part.title else "tool")
    && call.arguments == (if part.arguments != "" then part.arguments else "{}")
    && result == Message(Tool, Plain(clip(part.output)), [], part.callId, "")
  }

  /**
   * The words of an answer: its streamed text, or else its stored content, unless that is blank or the
   * summary of the compaction made with it.
   */
  function Words(row: Row, text: string, summary: string): Content {
    if text != "" then Plain(text)
    else if Text.Strip(row.content) == "" then NoContent
    else if summary != "" && Text.Strip(row.content) == summary then NoContent
    else Plain(row.content)
  }

  /** From `p` on the history shows the answer, and one result for each of its settled calls. */
  ghost predicate ShowsAnswer(
    h: seq<Message>, p: nat, settled: seq<int>, row: Row, text: string, summary: string, clip: string -> string)
  {
    && p + |settled| < |h| && AreSettled(row.parts, settled)
    && h[p].role.Assistant? && h[p].messageId == row.id && h[p].callId == "" && |h[p].calls| == |settled|
    && h[p].content == Words(row, text, summary)
    && forall x :: 0 <= x < |settled| ==>
         && 0 <= settled[x] < |row.parts|
         && ShowsCall(h[p].calls[x], h[p + 1 + x], row.parts[settled[x]], clip)
  }

  lemma {:induction false} RenderShows(row: Row, summary: string, clip: string -> string) returns (settled: seq<int>)
    requires row.role.AssistantRow? && Text.Strip(summary) == summary
    ensures |Render(row, summary, clip)| == 1 + |settled|
    ensures ShowsAnswer(Render(row, summary, clip), 0, settled, row, TextOutput(row.parts), summary, clip)
  {
    hide AnsweredParts, TextOutput, AreSettled, Text.Strip;
    settled := SettledCalls(row.parts);
    var parts, shown := AnsweredParts(row.parts), Render(row, summary, clip);
    forall x | 0 <= x < |settled|
      ensures ShowsCall(shown[0].calls[x], shown[1 + x], row.parts[settled[x]], clip)
    {
      assert shown[1 + x] == ResultsOf(parts, clip)[x];
    }
  }

  lemma {:induction false} ShownWithin(
    h: seq<Message>, a: seq<Message>, b: seq<Message>, c: seq<Message>, settled: seq<int>, row: Row, text: string,
    summary: string, clip: string -> string)
    requires h == a + b + c && ShowsAnswer(b, 0, settled, row, text, summary, clip)
    ensures ShowsAnswer(h, |a|, settled, row, text, summary, clip)
  {
    hide AreSettled, ShowsCall, Words;
    assert forall x :: 0 <= x < |b| ==> h[|a| + x] == b[x];
    forall x | 0 <= x < |settled|
      ensures ShowsCall(h[|a|].calls[x], h[|a| + 1 + x], row.parts[settled[x]], clip)
    {
      assert h[|a| + (1 + x)] == b[1 + x] && b[0 + 1 + x] == b[1 + x];
    }
  }

  /** The summary that counts for a stored answer: that of the latest compaction, if it was made with it. */
  function SummaryAt(rows: seq<Row>, u: nat): string
    requires u < |rows|
  {
    if Latest(rows).Some? && rows[Latest(rows).value.index].id == rows[u].id
    then Text.Strip(Latest(rows).value.part.output) else ""
  }

  /** Every stored answer of the kept suffix is shown, with its words and its settled calls. */
  lemma {:induction false} AnswerIsShown(
      rows: seq<Row>, clip: string -> string, u: nat)
      returns (p: nat, settled: seq<int>)
    requires ShownFrom(rows) <= u < |rows| && rows[u].role.AssistantRow?
    ensures ShowsAnswer(History(rows, clip), p, settled, rows[u], TextOutput(rows[u].parts), SummaryAt(rows, u), clip)
  {
    hide RenderAll, Render, History, ShowsAnswer, KeptFrom, Latest, Text.Strip, ShownFrom;
    var k, id, summary := ShownFrom(rows), CompactingId(rows), SummaryOf(rows);
    var sub := rows[k..];
    HistoryInParts(rows, clip);
    ShownIs(rows, sub, clip);
    PrefixShown(sub, u - k, id, summary, clip);
    assert sub[u - k] == rows[u];
    SummaryIsThat(rows, u);
    settled := RenderShows(rows[u], SummaryAt(rows, u), clip);
    var before, all := RenderAll(sub[..u - k], id, summary, clip), RenderAll(sub, id, summary, clip);
    var upTo := RenderAll(sub[..u - k + 1], id, summary, clip);
    var own := Render(rows[u], SummaryAt(rows, u), clip);
    assert upTo == before + own && all == upTo + all[|upTo|..];
    Assemble(Lead(rows), before, own, all[|upTo|..]);
    ShownWithin(History(rows, clip), Lead(rows) + before, own, all[|upTo|..], settled, rows[u],
                TextOutput(rows[u].parts), SummaryAt(rows, u), clip);
    p := |Lead(rows) + before|;
  }

  lemma {:induction false} Assemble(lead: seq<Message>, before: seq<Message>, own: seq<Message>, rest: seq<Message>)
    ensures lead + (before + own + rest) == lead + before + own + rest
  {
  }

  lemma {:induction false} SummaryIsThat(rows: seq<Row>, u: nat)
    requires u < |rows|
    ensures SummaryAt(rows, u) == if CompactingId(rows) == Some(rows[u].id) then SummaryOf(rows) else ""
    ensures Text.Strip(SummaryAt(rows, u)) == SummaryAt(rows, u)
  {
    hide Latest, Text.Strip;
    Text.StripNothing();
    if Latest(rows).Some? {
      Text.StripIdempotent(Latest(rows).value.part.output);
    }
  }

  // ---------------------------------------------------------------- what later runs are shown of a run

  /** The message of a run as it is stored. */
  ghost predicate StoredBy(
    row: Row, events: seq<Event>, r: Result<RunResult, RunError>, usages: seq<Usage>, ids: set<string>,
    describe: RunError -> string)
  {
    RunWritten(row, row.id, usages, events, ids) && RunClosed(row, events, r, describe)
  }

  /**
   * A later history that keeps the message of a run shows the text the run streamed, or else what is
   * stored for it, and each call with its result.
   */
  lemma {:induction false} StreamedTextIsShown(
    rows: seq<Row>, clip: string -> string, u: nat, events: seq<Event>, r: Result<RunResult, RunError>,
    usages: seq<Usage>, ids: set<string>, describe: RunError -> string)
    returns (p: nat, settled: seq<int>)
    requires ShownFrom(rows) <= u < |rows| && StoredBy(rows[u], events, r, usages, ids, describe)
    ensures ShowsAnswer(History(rows, clip), p, settled, rows[u], EmittedText(events), SummaryAt(rows, u), clip)
  {
    hide ShowsAnswer, History, ShownFrom, SummaryAt, RunClosed;
    p, settled := AnswerIsShown(rows, clip, u);
  }

  /** At `p` stands the answer with this id, whose `x`-th call and result are these. */
  predicate ShowsCallAt(h: seq<Message>, p: nat, x: nat, rowId: string, call: ToolCall, output: string) {
    && p + 1 + x < |h|
    && h[p].role.Assistant? && h[p].messageId == rowId && x < |h[p].calls| && h[p].calls[x] == call
    && h[p + 1 + x] == Message(Tool, Plain(output), [], call.id, "")
  }

  lemma {:induction false} PartIsShown(rows: seq<Row>, clip: string -> string, u: nat, i: nat) returns (p: nat, x: nat)
    requires ShownFrom(rows) <= u < |rows| && rows[u].role.AssistantRow?
    requires i < |rows[u].parts| && IsSettledCall(rows[u].parts[i])
    ensures var part := rows[u].parts[i];
      var name := if part.tool != "" then part.tool else if part.title != "" then part.title else "tool";
      var arguments := if part.arguments != "" then part.arguments else "{}";
      ShowsCallAt(History(rows, clip), p, x, rows[u].id, ToolCall(part.callId, name, arguments), clip(part.output))
  {
    hide History, ShownFrom, SummaryAt, Words, TextOutput;
    var settled;
    p, settled := AnswerIsShown(rows, clip, u);
    assert i in settled;
    x :| x < |settled| && settled[x] == i;
    assert ShowsCall(History(rows, clip)[p].calls[x], History(rows, clip)[p + 1 + x], rows[u].parts[i], clip);
  }

  /** Closing the message of a run leaves its ended calls alone. */
  lemma {:induction false} EndedStaysClosed(
    row: Row, events: seq<Event>, r: Result<RunResult, RunError>, describe: RunError -> string, i: nat)
    requires RunClosed(row, events, r, describe)
    requires i < |Written(row.id, events).parts| && !IsOpen(Written(row.id, events).parts[i])
    ensures i < |row.parts| && row.parts[i] == Written(row.id, events).parts[i]
  {
    hide Written, Completes, CallsToldOf, AnsweredParts, SessionHistory.CallsOf, EmittedText;
    var reason := if r.Failure? then ReasonOf(describe, r.error) else "";
    assert ClosedPart(Written(row.id, events).parts[i], row.parts[i], r.Failure?, reason);
  }

  /** A name as it is shown. */
  function NameOr(name: string, other: string): string {
    if name != "" then name else other
  }

  /**
   * A call that a run started and ended is shown to later runs under the name and with the arguments it
   * was started with, and answered with what its end reported.
   */
  lemma {:induction false} StartedCallIsShown(
    rows: seq<Row>, clip: string -> string, u: nat, events: seq<Event>, r: Result<RunResult, RunError>,
    usages: seq<Usage>, ids: set<string>, describe: RunError -> string, m: nat, n: nat, id: string, tool: string,
    arguments: string)
    returns (p: nat, x: nat)
    requires ShownFrom(rows) <= u < |rows| && StoredBy(rows[u], events, r, usages, ids, describe)
    requires m < n < |events| && id != "" && IsStartOf(events[m], id, tool, arguments) && IsEndOf(events[n], id)
    requires NothingAbout(events, id, m + 1, n) && NothingAbout(events, id, n + 1, |events|)
    ensures ShowsCallAt(History(rows, clip), p, x, rows[u].id,
                        ToolCall(id, NameOr(tool, "tool"), NameOr(arguments, "{}")),
                        clip(EndText(events[n].event)))
  {
    hide History, ShownFrom, DraftOf, NothingAbout, IsStartOf, RunWritten, RunClosed, ShowsCallAt;
    var i := StartedCallIsStored(rows[u].id, events, m, n, id, tool, arguments);
    WrittenIsDraft(rows[u].id, events);
    EndedStaysClosed(rows[u], events, r, describe, i);
    WrittenAnswers(rows[u], events, usages, ids);
    p, x := PartIsShown(rows, clip, u, i);
  }

  /** One that ended without a start is shown under the name its end gave it. */
  lemma {:induction false} UnstartedCallIsShown(
    rows: seq<Row>, clip: string -> string, u: nat, events: seq<Event>, r: Result<RunResult, RunError>,
    usages: seq<Usage>, ids: set<string>, describe: RunError -> string, n: nat, id: string)
    returns (p: nat, x: nat)
    requires ShownFrom(rows) <= u < |rows| && StoredBy(rows[u], events, r, usages, ids, describe)
    requires n < |events| && id != "" && IsEndOf(events[n], id)
    requires NothingAbout(events, id, 0, n) && NothingAbout(events, id, n + 1, |events|)
    ensures ShowsCallAt(History(rows, clip), p, x, rows[u].id, ToolCall(id, NameOr(events[n].event.tool, "tool"), "{}"),
                        clip(EndText(events[n].event)))
  {
    hide History, ShownFrom, DraftOf, NothingAbout, RunWritten, RunClosed, ShowsCallAt;
    var i := UnstartedCallIsStored(rows[u].id, events, n, id);
    WrittenIsDraft(rows[u].id, events);
    EndedStaysClosed(rows[u], events, r, describe, i);
    WrittenAnswers(rows[u], events, usages, ids);
    p, x := PartIsShown(rows, clip, u, i);
  }

  lemma {:induction false} WrittenAnswers(row: Row, events: seq<Event>, usages: seq<Usage>, ids: set<string>)
    requires RunWritten(row, row.id, usages, events, ids)
    ensures row.role.AssistantRow?
  {
  }

  /** One that was still running when its run failed is answered with the reason of the failure. */
  lemma {:induction false} RunningCallIsShown(
    rows: seq<Row>, clip: string -> string, u: nat, events: seq<Event>, r: Result<RunResult, RunError>,
    usages: seq<Usage>, ids: set<string>, describe: RunError -> string, m: nat, id: string, tool: string,
    arguments: string)
    returns (p: nat, x: nat)
    requires ShownFrom(rows) <= u < |rows| && StoredBy(rows[u], events, r, usages, ids, describe) && r.Failure?
    requires m < |events| && id != "" && IsStartOf(events[m], id, tool, arguments)
    requires NothingAbout(events, id, m + 1, |events|)
    ensures ShowsCallAt(History(rows, clip), p, x, rows[u].id,
                        ToolCall(id, NameOr(tool, "tool"), NameOr(arguments, "{}")),
                        clip(if r.error.RunCancelled? then "aborted" else describe(r.error)))
  {
    hide History, ShownFrom, NothingAbout, IsStartOf, RunWritten, RunClosed, ShowsCallAt, Written;
    var i := RunningCallIsStored(rows[u].id, events, m, id, tool, arguments);
    RunningHasFailed(rows[u], events, r, describe, i);
    WrittenAnswers(rows[u], events, usages, ids);
    p, x := PartIsShown(rows, clip, u, i);
  }

  lemma {:induction false} RunningHasFailed(
    row: Row, events: seq<Event>, r: Result<RunResult, RunError>, describe: RunError -> string, i: nat)
    requires RunClosed(row, events, r, describe) && r.Failure?
    requires i < |Written(row.id, events).parts|
    requires var part := Written(row.id, events).parts[i];
      part.kind.StoredTool? && part.state.PartRunning? && part.output == ""
    ensures i < |row.parts|
    ensures row.parts[i] ==
            Written(row.id, events).parts[i].(state := PartError, output := ReasonOf(describe, r.error))
  {
    hide Written, Completes, CallsToldOf, AnsweredParts, SessionHistory.CallsOf, EmittedText, ReasonOf;
    assert ClosedPart(Written(row.id, events).parts[i], row.parts[i], true, ReasonOf(describe, r.error));
  }

  // ---------------------------------------------------------------- the summary later runs begin with

  /** The latest compaction of a message is the last one it holds. */
  lemma {:induction false} LatestPartIsLast(parts: seq<StoredPart>)
    ensures LatestPart(parts).Some? <==> Compactions(parts) != []
    ensures LatestPart(parts).Some? ==>
              Compactions(parts)[|Compactions(parts)| - 1] ==
              (LatestPart(parts).value.output, LatestPart(parts).value.tailStartId)
  {
    if parts != [] {
      LatestPartIsLast(parts[..|parts| - 1]);
    }
  }

  lemma {:induction false} LatestAt(rows: seq<Row>, u: nat)
    requires u < |rows| && rows[u].role.AssistantRow? && LatestPart(rows[u].parts).Some?
    requires forall k :: u < k < |rows| && rows[k].role.AssistantRow? ==> LatestPart(rows[k].parts).None?
    ensures Latest(rows) == Some(Compacting(u, LatestPart(rows[u].parts).value))
  {
    hide LatestPart;
    if u < |rows| - 1 {
      LatestAt(rows[..|rows| - 1], u);
    }
  }

  /**
   * After a run that recorded compactions, and until the next one, every rebuilt history begins with a
   * checkpoint that carries the last summary recorded, trimmed.
   */
  lemma {:induction false} HistoryBeginsWithLastSummary(
    rows: seq<Row>, clip: string -> string, u: nat, usages: seq<Usage>, events: seq<Event>, ids: set<string>)
    requires u < |rows| && RunWritten(rows[u], rows[u].id, usages, events, ids) && CompactionsToldOf(events) != []
    requires forall k :: u < k < |rows| && rows[k].role.AssistantRow? ==> Compactions(rows[k].parts) == []
    requires Text.Strip(CompactionsToldOf(events)[|CompactionsToldOf(events)| - 1].0) != ""
    ensures History(rows, clip) != []
    ensures CheckpointSummary(History(rows, clip)[0]) ==
            Some(Text.Strip(CompactionsToldOf(events)[|CompactionsToldOf(events)| - 1].0))
  {
    hide RenderAll, KeptFrom, Text.Strip, CheckpointSummary, Latest, CheckpointMessage, LatestPart, Compactions;
    LatestPartIsLast(rows[u].parts);
    forall k | u < k < |rows| && rows[k].role.AssistantRow?
      ensures LatestPart(rows[k].parts).None?
    {
      LatestPartIsLast(rows[k].parts);
    }
    LatestAt(rows, u);
    var summary := Text.Strip(Latest(rows).value.part.output);
    Text.StripIdempotent(Latest(rows).value.part.output);
    CheckpointRoundTrip(summary);
  }

  lemma {:induction false} SolidStays(s: string)
    requires s != "" && !Text.IsSpace(s[0])
    ensures Text.Strip(s) != ""
  {
    assert Text.TrimLeft(s) == s;
  }

  /** What a run records as a summary is never blank. */
  lemma {:induction false} RecordedSummariesAreSolid(
    initial: seq<Message>, turns: seq<Turn>, limits: ModelLimits, events: seq<Event>, e: Event)
    requires Recorded(events) == AllRecords(initial, turns, limits) && e in events && e.CompactionDone?
    ensures Text.Strip(e.summary) != ""
  {
    hide AllRecords, AttemptsOf, Recorded, Text.Strip;
    RecordedAreAll(events, e);
    var k, a := RecordOfRun(initial, turns, limits, e);
    SolidStays(e.summary);
  }

  lemma {:induction false} ToldOne(events: seq<Event>)
    requires events != []
    ensures var init, last := events[..|events| - 1], events[|events| - 1];
      && Recorded(events) == Recorded(init) + (if last.CompactionDone? then [last] else [])
      && CompactionsToldOf(events) ==
           CompactionsToldOf(init) + if last.CompactionDone? then [(last.summary, last.tailStartId)] else []
  {
  }

  lemma {:induction false} ToldIsRecorded(events: seq<Event>)
    ensures CompactionsToldOf(events) == [] <==> Recorded(events) == []
    ensures Recorded(events) != [] ==>
              var e := Recorded(events)[|Recorded(events)| - 1];
              && e.CompactionDone? && e in events
              && CompactionsToldOf(events)[|CompactionsToldOf(events)| - 1] == (e.summary, e.tailStartId)
  {
    if events != [] {
      hide Recorded, CompactionsToldOf;
      var init, last := events[..|events| - 1], events[|events| - 1];
      ToldIsRecorded(init);
      assert events == init + [last];
      ToldOne(events);
      if last.CompactionDone? {
        assert Recorded(events)[|Recorded(events)| - 1] == last;
      } else {
        assert Recorded(events) == Recorded(init) && CompactionsToldOf(events) == CompactionsToldOf(init);
      }
    }
  }

  lemma {:induction false} RecordsOfRun(
    r: Result<RunResult, RunError>, su: Setup, prompt: Message, ids: set<string>, turns: seq<Turn>, page: Page,
    usages: seq<Usage>)
    requires RunOk(r, su, prompt, ids, turns, page, usages)
    ensures Recorded(page.emitted) ==
            AllRecords(InitialMessages(su.env, su.agent, su.opts, prompt), turns, su.opts.limits)
  {
    hide AllRecords, Traced, AllTraced, AllSent, AllStarts, AllGood, TailsIn, Starts, FinishUsages, Billed;
  }

  lemma {:induction false} StoredIsWritten(
    a: Row, ids: set<string>, r: Result<RunResult, RunError>, page: Page, usages: seq<Usage>,
    describe: RunError -> string)
    requires RunStored(a, ids, a.id, r, page, usages, describe)
    ensures RunWritten(a, a.id, usages, page.emitted, ids) && StoredBy(a, page.emitted, r, usages, ids, describe)
  {
  }

  /** So the run after a run that compacted begins with the last summary that run recorded. */
  lemma {:induction false} NextRunBeginsWithSummary(
    rows: seq<Row>, clip: string -> string, u: nat, su: Setup, prompt: Message, ids: set<string>,
    r: Result<RunResult, RunError>, turns: seq<Turn>, page: Page, usages: seq<Usage>, describe: RunError -> string)
    returns (e: Event)
    requires RunOk(r, su, prompt, ids, turns, page, usages)
    requires u < |rows| && RunStored(rows[u], ids, rows[u].id, r, page, usages, describe)
    requires Recorded(page.emitted) != []
    requires forall k :: u < k < |rows| && rows[k].role.AssistantRow? ==> Compactions(rows[k].parts) == []
    ensures e == Recorded(page.emitted)[|Recorded(page.emitted)| - 1] && e.CompactionDone?
    ensures History(rows, clip) != [] && CheckpointSummary(History(rows, clip)[0]) == Some(Text.Strip(e.summary))
  {
    hide AllRecords, Recorded, Text.Strip, History, CheckpointSummary, RunOk, RunStored, StoredBy, RunWritten;
    hide Compactions, CompactionsToldOf, InitialMessages, PromptMessage;
    var initial := InitialMessages(su.env, su.agent, su.opts, prompt);
    ToldIsRecorded(page.emitted);
    RecordsOfRun(r, su, prompt, ids, turns, page, usages);
    e := Recorded(page.emitted)[|Recorded(page.emitted)| - 1];
    RecordedSummariesAreSolid(initial, turns, su.opts.limits, page.emitted, e);
    StoredIsWritten(rows[u], ids, r, page, usages, describe);
    HistoryBeginsWithLastSummary(rows, clip, u, usages, page.emitted, ids);
  }
}
