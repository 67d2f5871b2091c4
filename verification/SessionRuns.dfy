/** Runs of a session: the events they persist, and what is left stored when they end. */
module SessionRuns {
  import opened Wrappers
  import opened Messages
  import opened Providers
  import opened StreamAssembly
  import opened ToolDispatch
  import opened RunLog
  import opened RunTools
  import opened RunTrace
  import opened HarnessRunner
  import opened SessionHistory
  import RunContents
  import Text

  // ---------------------------------------------------------------- persisting events

  /** The assistant message being written, with the parts its streams and calls go to. */
  datatype Draft = Draft(row: Row, textPart: Option<nat>, reasoningPart: Option<nat>, toolParts: map<string, nat>)

  predicate WellFormed(d: Draft) {
    && (d.textPart.Some? ==> d.textPart.value < |d.row.parts|)
    && (d.reasoningPart.Some? ==> d.reasoningPart.value < |d.row.parts|)
    && forall id :: id in d.toolParts ==> d.toolParts[id] < |d.row.parts|
  }

  /** How an event changes the parts of the message. */
  datatype Edit = Keep | Append(part: StoredPart) | Replace(index: nat, part: StoredPart)

  function Edited(parts: seq<StoredPart>, edit: Edit): seq<StoredPart>
    requires edit.Replace? ==> edit.index < |parts|
  {
    match edit
    case Keep => parts
    case Append(part) => parts + [part]
    case Replace(i, part) => parts[i := part]
  }

  function Lengthened(part: StoredPart, more: string): StoredPart {
    part.(output := part.output + more)
  }

  /** A delta goes to the one part of its kind, which is created on first use. */
  function DeltaEdit(parts: seq<StoredPart>, slot: Option<nat>, kind: StoredKind, text: string): Edit
    requires slot.Some? ==> slot.value < |parts|
  {
    if text == "" then Keep
    else if slot.Some? then Replace(slot.value, Lengthened(parts[slot.value], text))
    else Append(NewPart(kind, PartRunning).(output := text))
  }

  /** The first part with this call id, or the end. */
  function PartWithCall(parts: seq<StoredPart>, callId: string): (i: nat)
    ensures i <= |parts|
    ensures i < |parts| ==> parts[i].callId == callId
    ensures forall k :: 0 <= k < i ==> parts[k].callId != callId
  {
    if parts == [] || parts[0].callId == callId then 0 else 1 + PartWithCall(parts[1..], callId)
  }

  /** The part a finished call belongs to: the one it started, else the first with its id, else a new one. */
  function ToolTarget(d: Draft, callId: string): (i: nat)
    requires WellFormed(d)
    ensures i <= |d.row.parts|
  {
    if callId in d.toolParts then d.toolParts[callId]
    else if callId == "" then |d.row.parts|
    else PartWithCall(d.row.parts, callId)
  }

  function FinishedPart(part: StoredPart, state: PartState, output: string): StoredPart {
    part.(state := state, output := if output != "" then output else part.output)
  }

  function FinishEdit(d: Draft, callId: string, tool: string, output: string, state: PartState): Edit
    requires WellFormed(d)
  {
    var i := ToolTarget(d, callId);
    if i < |d.row.parts| then Replace(i, FinishedPart(d.row.parts[i], state, output))
    else Append(FinishedPart(NewPart(StoredTool, PartPending).(callId := callId, title := tool), state, output))
  }

  function StartedPart(callId: string, tool: string, arguments: string): StoredPart {
    NewPart(StoredTool, PartRunning).(callId := callId, tool := tool, arguments := arguments)
  }

  function CompactionPart(summary: string, tailStartId: string): StoredPart {
    NewPart(StoredCompaction, PartDone).(title := "Session compacted", output := summary, tailStartId := tailStartId)
  }

  function EditOf(d: Draft, e: Event): (edit: Edit)
    requires WellFormed(d)
    ensures edit.Replace? ==> edit.index < |d.row.parts|
    ensures edit.Replace? ==>
              var old' := d.row.parts[edit.index];
              && edit.part.kind == old'.kind && edit.part.tailStartId == old'.tailStartId
              && edit.part.callId == old'.callId
    ensures edit.Append? && edit.part.kind.StoredCompaction? ==>
              e.CompactionDone? && edit.part.tailStartId == e.tailStartId
  {
    match e
    case StepStart(_) => Append(NewPart(StoredStepStart, PartRunning))
    case StepFinish(_, usage) => Append(NewPart(StoredStepFinish(usage), PartDone))
    case PartUpdated(_, TextDelta(text)) => DeltaEdit(d.row.parts, d.textPart, StoredText, text)
    case PartUpdated(_, ReasoningDelta(text)) => DeltaEdit(d.row.parts, d.reasoningPart, StoredReasoning, text)
    case ToolCallEvent(_, ToolStarted(id, tool, arguments)) => Append(StartedPart(id, tool, arguments))
    case ToolCallEvent(_, ToolCompleted(id, tool, output)) => FinishEdit(d, id, tool, output, PartDone)
    case ToolCallEvent(_, ToolError(id, tool, error)) => FinishEdit(d, id, tool, error, PartError)
    case CompactionDone(summary, _, tailStartId) => Append(CompactionPart(summary, tailStartId))
    case RetryScheduled(_, _, _) => Keep
    case RetryAttempt(_, _) => Keep
    case Aborted => Keep
  }

  predicate IsTextDelta(e: Event) {
    e.PartUpdated? && e.update.TextDelta?
  }

  predicate IsReasoningDelta(e: Event) {
    e.PartUpdated? && e.update.ReasoningDelta?
  }

  function TextOf(e: Event): string {
    if IsTextDelta(e) then e.update.text else ""
  }

  function ReportedUsage(e: Event): Usage {
    if e.StepFinish? then e.usage else NO_USAGE
  }

  /** A slot that was empty takes the part just appended. */
  function Slot(slot: Option<nat>, filled: bool, n: nat): Option<nat> {
    if slot.None? && filled then Some(n) else slot
  }

  /** What one event leaves stored. */
  function Persisted(d: Draft, e: Event): (r: Draft)
    requires WellFormed(d)
    ensures WellFormed(r)
  {
    var n := |d.row.parts|;
    Draft(
      d.row.(parts := Edited(d.row.parts, EditOf(d, e)),
             content := d.row.content + TextOf(e),
             usage := d.row.usage.Merge(ReportedUsage(e))),
      Slot(d.textPart, IsTextDelta(e) && e.update.text != "", n),
      Slot(d.reasoningPart, IsReasoningDelta(e) && e.update.text != "", n),
      if e.ToolCallEvent? && e.event.ToolStarted? then d.toolParts[e.event.callId := n] else d.toolParts)
  }

  function PersistedAll(d: Draft, events: seq<Event>): (r: Draft)
    requires WellFormed(d)
    ensures WellFormed(r)
  {
    if events == [] then d else Persisted(PersistedAll(d, events[..|events| - 1]), events[|events| - 1])
  }

  // ---------------------------------------------------------------- what persisting keeps

  lemma {:induction false} PersistedKeepsIdentity(d: Draft, events: seq<Event>)
    requires WellFormed(d)
    ensures var r := PersistedAll(d, events).row;
      r.id == d.row.id && r.role == d.row.role && r.finish == d.row.finish
  {
    if events != [] {
      PersistedKeepsIdentity(d, events[..|events| - 1]);
    }
  }

  /** The message's counters grow by exactly the usages of the finished steps. */
  lemma {:induction false} PersistedUsage(d: Draft, events: seq<Event>)
    requires WellFormed(d)
    ensures PersistedAll(d, events).row.usage == Accumulate(d.row.usage, FinishUsages(events))
  {
    if events != [] {
      var init, last := events[..|events| - 1], events[|events| - 1];
      PersistedUsage(d, init);
      if last.StepFinish? {
        AccumulateConcat(d.row.usage, FinishUsages(init), [last.usage]);
        AccumulateOne(Accumulate(d.row.usage, FinishUsages(init)), last.usage);
      } else {
        assert FinishUsages(init) + [] == FinishUsages(init);
      }
    }
  }

  lemma {:induction false} RootedAppend(parts: seq<StoredPart>, part: StoredPart, ids: set<string>)
    requires PartsRooted(parts, ids) && (part.kind.StoredCompaction? ==> PartRooted(part, ids))
    ensures PartsRooted(parts + [part], ids)
  {
  }

  lemma {:induction false} RootedUpdate(parts: seq<StoredPart>, i: nat, part: StoredPart, ids: set<string>)
    requires PartsRooted(parts, ids) && i < |parts|
    requires part.kind == parts[i].kind && part.tailStartId == parts[i].tailStartId
    ensures PartsRooted(parts[i := part], ids)
  {
    var updated := parts[i := part];
    forall p | p in updated && p.kind.StoredCompaction?
      ensures PartRooted(p, ids)
    {
      var k :| 0 <= k < |updated| && updated[k] == p;
      assert parts[k] in parts;
    }
  }

  lemma {:induction false} PersistedRooted(d: Draft, e: Event, ids: set<string>)
    requires WellFormed(d) && RowRooted(d.row, ids) && TailOk(e, ids)
    ensures RowRooted(Persisted(d, e).row, ids)
  {
    var edit := EditOf(d, e);
    if edit.Append? {
      RootedAppend(d.row.parts, edit.part, ids);
    } else if edit.Replace? {
      RootedUpdate(d.row.parts, edit.index, edit.part, ids);
    }
  }

  lemma {:induction false} PersistedAllRooted(d: Draft, events: seq<Event>, ids: set<string>)
    requires WellFormed(d) && RowRooted(d.row, ids) && TailsIn(events, ids)
    ensures RowRooted(PersistedAll(d, events).row, ids)
  {
    if events != [] {
      PersistedAllRooted(d, events[..|events| - 1], ids);
      PersistedRooted(PersistedAll(d, events[..|events| - 1]), events[|events| - 1], ids);
    }
  }

  // ---------------------------------------------------------------- streamed text

  /** The text deltas, one after the other. */
  function EmittedText(events: seq<Event>): string {
    if events == [] then ""
    else
      var last := events[|events| - 1];
      EmittedText(events[..|events| - 1]) + TextOf(last)
  }

  /** Each slot and each call id leads to a part of its own kind. */
  predicate SlotsFit(parts: seq<StoredPart>, text: Option<nat>, reasoning: Option<nat>, tools: map<string, nat>) {
    && (text.Some? ==> text.value < |parts| && parts[text.value].kind.StoredText?)
    && (reasoning.Some? ==> reasoning.value < |parts| && parts[reasoning.value].kind.StoredReasoning?)
    && (forall id :: id in tools ==> tools[id] < |parts| && parts[tools[id]].kind.StoredTool?)
    && (forall k :: 0 <= k < |parts| ==> (parts[k].kind.StoredText? ==> Some(k) == text))
    && (forall k :: 0 <= k < |parts| ==> (parts[k].callId != "" ==> parts[k].kind.StoredTool?))
  }

  predicate SlotsKept(d: Draft) {
    SlotsFit(d.row.parts, d.textPart, d.reasoningPart, d.toolParts)
  }

  lemma {:induction false} ReplaceFits(
    parts: seq<StoredPart>, i: nat, part: StoredPart, text: Option<nat>, reasoning: Option<nat>,
    tools: map<string, nat>)
    requires SlotsFit(parts, text, reasoning, tools)
    requires i < |parts| && part.kind == parts[i].kind && part.callId == parts[i].callId
    ensures SlotsFit(parts[i := part], text, reasoning, tools)
  {
  }

  lemma {:induction false} AppendFits(
    parts: seq<StoredPart>, part: StoredPart, text: Option<nat>, reasoning: Option<nat>, tools: map<string, nat>,
    id: string)
    requires SlotsFit(parts, text, reasoning, tools)
    requires part.callId != "" ==> part.kind.StoredTool?
    requires part.kind.StoredText? ==> text.None?
    ensures SlotsFit(parts + [part], if part.kind.StoredText? then Some(|parts|) else text, reasoning, tools)
    ensures part.kind.StoredReasoning? ==> SlotsFit(parts + [part], text, Some(|parts|), tools)
    ensures part.kind.StoredTool? ==> SlotsFit(parts + [part], text, reasoning, tools[id := |parts|])
  {
  }

  /** The text so far stands in the message and in its only text part. */
  predicate TextKept(d: Draft, text: string)
    requires WellFormed(d)
  {
    && SlotsKept(d)
    && d.row.content == text
    && text == if d.textPart.Some? then d.row.parts[d.textPart.value].output else ""
  }

  lemma {:induction false} PersistedSlots(d: Draft, e: Event)
    requires WellFormed(d) && SlotsKept(d)
    ensures SlotsKept(Persisted(d, e))
  {
    var edit := EditOf(d, e);
    if edit.Replace? {
      ReplaceFits(d.row.parts, edit.index, edit.part, d.textPart, d.reasoningPart, d.toolParts);
    } else if edit.Append? {
      AppendFits(d.row.parts, edit.part, d.textPart, d.reasoningPart, d.toolParts, edit.part.callId);
    }
  }

  lemma {:induction false} PersistedText(d: Draft, e: Event, text: string)
    requires WellFormed(d) && TextKept(d, text)
    ensures TextKept(Persisted(d, e), text + TextOf(e))
  {
    PersistedSlots(d, e);
    if IsTextDelta(e) {
      assert d.textPart.None? ==> "" + TextOf(e) == TextOf(e);
    } else {
      assert text + "" == text;
    }
  }

  lemma {:induction false} PersistedAllText(d: Draft, events: seq<Event>)
    requires WellFormed(d) && TextKept(d, "")
    ensures TextKept(PersistedAll(d, events), EmittedText(events))
  {
    if events != [] {
      PersistedAllText(d, events[..|events| - 1]);
      PersistedText(PersistedAll(d, events[..|events| - 1]), events[|events| - 1], EmittedText(events[..|events| - 1]));
    }
  }

  lemma {:induction false} NoTextOutput(parts: seq<StoredPart>)
    requires forall k :: 0 <= k < |parts| ==> !parts[k].kind.StoredText?
    ensures TextOutput(parts) == ""
  {
    if parts != [] {
      NoTextOutput(parts[..|parts| - 1]);
    }
  }

  lemma {:induction false} OneTextOutput(parts: seq<StoredPart>, i: nat)
    requires i < |parts| && parts[i].kind.StoredText?
    requires forall k :: 0 <= k < |parts| && k != i ==> !parts[k].kind.StoredText?
    ensures TextOutput(parts) == parts[i].output
  {
    var init := parts[..|parts| - 1];
    if i < |init| {
      OneTextOutput(init, i);
      assert TextOutput(parts) == TextOutput(init) + "";
    } else {
      NoTextOutput(init);
    }
  }

  lemma {:induction false} KeptTextIsOutput(d: Draft, text: string)
    requires WellFormed(d) && TextKept(d, text)
    ensures TextOutput(d.row.parts) == text
  {
    if d.textPart.Some? {
      OneTextOutput(d.row.parts, d.textPart.value);
    } else {
      NoTextOutput(d.row.parts);
    }
  }

  // ---------------------------------------------------------------- the end of a run

  predicate EndsWith(s: string, t: string) {
    |t| <= |s| && s[|s| - |t|..] == t
  }

  /** What is still missing of the final output is appended to the streamed content. */
  function CompletedContent(existing: string, output: string): string {
    if output == "" || EndsWith(existing, output) then existing
    else if existing != "" && existing <= output then existing + output[|existing|..]
    else if existing != "" && output <= existing then existing
    else existing + output
  }

  /** Afterwards the message shows the output, at its end or, when it was cut short, at its beginning. */
  lemma {:induction false} CompletedContentShowsOutput(existing: string, output: string)
    ensures var content := CompletedContent(existing, output);
      existing <= content && (EndsWith(content, output) || output <= content)
  {
    var content := CompletedContent(existing, output);
    if content == existing + output {
      assert content[|content| - |output|..] == output;
    } else if existing != "" && existing <= output && content != existing {
      assert content == output;
    }
  }

  predicate IsStream(kind: StoredKind) {
    kind.StoredText? || kind.StoredReasoning?
  }

  /** Leftover text and reasoning is complete as it stands. */
  function SettledPart(part: StoredPart): StoredPart {
    if IsOpen(part) && IsStream(part.kind) then part.(state := PartDone) else part
  }

  /** Everything else left open has failed, keeping what output it has. */
  function FailedPart(part: StoredPart, output: string): StoredPart {
    if !IsOpen(part) || IsStream(part.kind) then SettledPart(part)
    else part.(state := PartError, output := if part.output != "" then part.output else output)
  }

  function SettledParts(parts: seq<StoredPart>): seq<StoredPart> {
    seq(|parts|, i requires 0 <= i < |parts| => SettledPart(parts[i]))
  }

  function FailedParts(parts: seq<StoredPart>, output: string): seq<StoredPart> {
    seq(|parts|, i requires 0 <= i < |parts| => FailedPart(parts[i], output))
  }

  /** Closing parts changes neither their kind, nor their call, nor the text. */
  predicate SameShape(a: seq<StoredPart>, b: seq<StoredPart>) {
    && |a| == |b|
    && forall i :: 0 <= i < |a| ==>
         && a[i].kind == b[i].kind && a[i].callId == b[i].callId && a[i].tailStartId == b[i].tailStartId
         && (a[i].kind.StoredText? ==> a[i].output == b[i].output)
  }

  lemma {:induction false} SameShapeKeeps(a: seq<StoredPart>, b: seq<StoredPart>, ids: set<string>)
    requires SameShape(a, b) && PartsRooted(a, ids)
    ensures PartsRooted(b, ids) && TextOutput(a) == TextOutput(b) && CallIds(a) == CallIds(b)
  {
    CallIdsDepend(a, b);
    forall p | p in b && p.kind.StoredCompaction?
      ensures PartRooted(p, ids)
    {
      var i :| 0 <= i < |b| && b[i] == p;
      assert a[i] in a && a[i].kind == b[i].kind;
    }
    SameTextOutput(a, b);
  }

  lemma {:induction false} SameTextOutput(a: seq<StoredPart>, b: seq<StoredPart>)
    requires SameShape(a, b)
    ensures TextOutput(a) == TextOutput(b)
  {
    if a != [] {
      SameTextOutput(a[..|a| - 1], b[..|b| - 1]);
    }
  }

  lemma {:induction false} ClosingShape(parts: seq<StoredPart>, output: string)
    ensures SameShape(parts, SettledParts(parts)) && SameShape(parts, FailedParts(parts, output))
    ensures forall p :: p in FailedParts(parts, output) ==> !IsOpen(p)
  {
  }

  function CallIds(parts: seq<StoredPart>): seq<string> {
    if parts == [] then []
    else
      var last := parts[|parts| - 1];
      CallIds(parts[..|parts| - 1]) + if last.kind.StoredTool? && last.callId != "" then [last.callId] else []
  }

  function AnsweredIds(calls: seq<ToolCall>): seq<string> {
    seq(|calls|, i requires 0 <= i < |calls| => calls[i].id)
  }

  lemma {:induction false} CallIdsDepend(a: seq<StoredPart>, b: seq<StoredPart>)
    requires |a| == |b| && forall i :: 0 <= i < |a| ==> a[i].kind == b[i].kind && a[i].callId == b[i].callId
    ensures CallIds(a) == CallIds(b)
  {
    if a != [] {
      CallIdsDepend(a[..|a| - 1], b[..|b| - 1]);
    }
  }

  lemma {:induction false} CallIdsOne(parts: seq<StoredPart>, part: StoredPart)
    ensures CallIds(parts + [part]) ==
            CallIds(parts) + if part.kind.StoredTool? && part.callId != "" then [part.callId] else []
  {
    assert (parts + [part])[..|parts|] == parts;
  }

  lemma {:induction false} CallIdsMean(parts: seq<StoredPart>, id: string)
    requires id != ""
    ensures id in CallIds(parts) <==> exists i :: 0 <= i < |parts| && parts[i].kind.StoredTool? && parts[i].callId == id
  {
    if parts != [] {
      CallIdsMean(parts[..|parts| - 1], id);
    }
  }

  predicate IsToolEvent(e: Event) {
    e.ToolCallEvent? && e.event.callId != ""
  }

  /**
   * The calls some events tell of, in order: each start is a call of its own, and an end without one
   * is a call when nothing was heard of its id before.
   */
  function CallsToldOf(events: seq<Event>): seq<string> {
    if events == [] then []
    else
      var before, last := CallsToldOf(events[..|events| - 1]), events[|events| - 1];
      before + if IsToolEvent(last) && (IsStart(last) || last.event.callId !in before) then [last.event.callId] else []
  }

  /** A call id leads to a part with that id. */
  predicate CallsKept(d: Draft)
    requires WellFormed(d)
  {
    SlotsKept(d) && forall id :: id in d.toolParts ==> d.row.parts[d.toolParts[id]].callId == id
  }

  lemma {:induction false} TargetIsKnown(d: Draft, id: string)
    requires WellFormed(d) && CallsKept(d) && id != ""
    ensures ToolTarget(d, id) < |d.row.parts| <==> id in CallIds(d.row.parts)
  {
    CallIdsMean(d.row.parts, id);
  }

  lemma {:induction false} PersistedKeepsCalls(d: Draft, e: Event)
    requires WellFormed(d) && CallsKept(d)
    ensures CallsKept(Persisted(d, e))
  {
    hide SlotsFit, ToolTarget;
    PersistedSlots(d, e);
  }

  lemma {:induction false} PersistedCall(d: Draft, e: Event)
    requires WellFormed(d) && CallsKept(d)
    ensures var known := CallIds(d.row.parts);
      CallIds(Persisted(d, e).row.parts) ==
      known + if IsToolEvent(e) && (IsStart(e) || e.event.callId !in known) then [e.event.callId] else []
  {
    hide SlotsFit, ToolTarget, CallIds;
    var edit := EditOf(d, e);
    if IsToolEvent(e) {
      TargetIsKnown(d, e.event.callId);
    }
    if edit.Append? {
      CallIdsOne(d.row.parts, edit.part);
    } else {
      CallIdsDepend(d.row.parts, Edited(d.row.parts, edit));
    }
  }

  /** A message holds a part for each call the events of its run told of, in order, and for no other. */
  lemma {:induction false} PersistedCalls(d: Draft, events: seq<Event>)
    requires WellFormed(d) && CallsKept(d) && CallIds(d.row.parts) == []
    ensures CallsKept(PersistedAll(d, events)) && CallIds(PersistedAll(d, events).row.parts) == CallsToldOf(events)
  {
    if events != [] {
      PersistedCalls(d, events[..|events| - 1]);
      PersistedKeepsCalls(PersistedAll(d, events[..|events| - 1]), events[|events| - 1]);
      PersistedCall(PersistedAll(d, events[..|events| - 1]), events[|events| - 1]);
    }
  }

  /** Once no part is open, the next run sees every stored call, each with its result. */
  lemma {:induction false} FailedCallsAreAnswered(parts: seq<StoredPart>)
    requires forall p :: p in parts ==> !IsOpen(p)
    ensures AnsweredIds(SessionHistory.CallsOf(AnsweredParts(parts))) == CallIds(parts)
  {
    if parts != [] {
      var init, last := parts[..|parts| - 1], parts[|parts| - 1];
      assert parts == init + [last];
      assert last in parts;
      FailedCallsAreAnswered(init);
    }
  }

  // ---------------------------------------------------------------- stored compactions

  /** The completed compactions of a message, in order: what each keeps as its summary, and its tail start. */
  function Compactions(parts: seq<StoredPart>): seq<(string, string)> {
    if parts == [] then []
    else
      var last := parts[|parts| - 1];
      Compactions(parts[..|parts| - 1]) + if IsCompaction(last) then [(last.output, last.tailStartId)] else []
  }

  /** The compactions some events tell of. */
  function CompactionsToldOf(events: seq<Event>): seq<(string, string)> {
    if events == [] then []
    else
      var last := events[|events| - 1];
      CompactionsToldOf(events[..|events| - 1])
        + if last.CompactionDone? then [(last.summary, last.tailStartId)] else []
  }

  lemma {:induction false} CompactionsDepend(a: seq<StoredPart>, b: seq<StoredPart>)
    requires |a| == |b|
    requires forall i :: 0 <= i < |a| ==>
              IsCompaction(a[i]) == IsCompaction(b[i]) && (IsCompaction(a[i]) ==> a[i] == b[i])
    ensures Compactions(a) == Compactions(b)
  {
    hide IsCompaction;
    if a != [] {
      CompactionsDepend(a[..|a| - 1], b[..|b| - 1]);
    }
  }

  lemma {:induction false} CompactionsOne(parts: seq<StoredPart>, part: StoredPart)
    ensures Compactions(parts + [part]) ==
            Compactions(parts) + if IsCompaction(part) then [(part.output, part.tailStartId)] else []
  {
    assert (parts + [part])[..|parts|] == parts;
  }

  /** An event changes text, reasoning and tool parts, and appends others. */
  lemma {:induction false} ReplacesNoCompaction(d: Draft, e: Event)
    requires WellFormed(d) && SlotsKept(d)
    ensures var edit := EditOf(d, e);
      && (edit.Replace? ==> !d.row.parts[edit.index].kind.StoredCompaction? && !edit.part.kind.StoredCompaction?)
      && (edit.Append? ==> (IsCompaction(edit.part) <==> e.CompactionDone?))
      && (e.CompactionDone? ==>
            edit.Append? && edit.part.output == e.summary && edit.part.tailStartId == e.tailStartId)
  {
  }

  lemma {:induction false} PersistedCompaction(d: Draft, e: Event)
    requires WellFormed(d) && SlotsKept(d)
    ensures Compactions(Persisted(d, e).row.parts) ==
            Compactions(d.row.parts) + if e.CompactionDone? then [(e.summary, e.tailStartId)] else []
  {
    hide EditOf, SlotsKept, Compactions;
    var edit := EditOf(d, e);
    ReplacesNoCompaction(d, e);
    if edit.Append? {
      CompactionsOne(d.row.parts, edit.part);
    } else {
      CompactionsDepend(d.row.parts, Edited(d.row.parts, edit));
    }
  }

  /** A message holds, in order, the compactions its events told of, with their summaries, and no others. */
  lemma {:induction false} PersistedCompactions(d: Draft, events: seq<Event>)
    requires WellFormed(d) && SlotsKept(d) && Compactions(d.row.parts) == []
    ensures SlotsKept(PersistedAll(d, events))
    ensures Compactions(PersistedAll(d, events).row.parts) == CompactionsToldOf(events)
  {
    hide SlotsKept, Compactions;
    if events != [] {
      PersistedCompactions(d, events[..|events| - 1]);
      PersistedSlots(PersistedAll(d, events[..|events| - 1]), events[|events| - 1]);
      PersistedCompaction(PersistedAll(d, events[..|events| - 1]), events[|events| - 1]);
    }
  }

  // ---------------------------------------------------------------- stored steps and reasoning

  /** The step starts and the step ends of a message, in order; an end has the usage of the step. */
  function StepsIn(parts: seq<StoredPart>): seq<StoredKind> {
    if parts == [] then []
    else
      var kind := parts[|parts| - 1].kind;
      StepsIn(parts[..|parts| - 1]) + if kind.StoredStepStart? || kind.StoredStepFinish? then [kind] else []
  }

  /** What an event tells of a step. */
  function StepTold(e: Event): seq<StoredKind> {
    if e.StepStart? then [StoredStepStart] else if e.StepFinish? then [StoredStepFinish(e.usage)] else []
  }

  function StepsToldOf(events: seq<Event>): seq<StoredKind> {
    if events == [] then [] else StepsToldOf(events[..|events| - 1]) + StepTold(events[|events| - 1])
  }

  lemma {:induction false} StepsDepend(a: seq<StoredPart>, b: seq<StoredPart>)
    requires |a| == |b| && forall i :: 0 <= i < |a| ==> a[i].kind == b[i].kind
    ensures StepsIn(a) == StepsIn(b)
  {
    if a != [] {
      StepsDepend(a[..|a| - 1], b[..|b| - 1]);
    }
  }

  lemma {:induction false} PersistedStep(d: Draft, e: Event)
    requires WellFormed(d)
    ensures StepsIn(Persisted(d, e).row.parts) == StepsIn(d.row.parts) + StepTold(e)
  {
    var edit, parts := EditOf(d, e), d.row.parts;
    if edit.Append? {
      assert (parts + [edit.part])[..|parts|] == parts;
    } else {
      StepsDepend(parts, Edited(parts, edit));
    }
  }

  /** A message holds, in order, the starts and the ends of the steps its events told of, and no others. */
  lemma {:induction false} PersistedSteps(d: Draft, events: seq<Event>)
    requires WellFormed(d) && StepsIn(d.row.parts) == []
    ensures StepsIn(PersistedAll(d, events).row.parts) == StepsToldOf(events)
  {
    hide StepsIn, StepTold, Persisted;
    if events != [] {
      PersistedSteps(d, events[..|events| - 1]);
      PersistedStep(PersistedAll(d, events[..|events| - 1]), events[|events| - 1]);
    }
  }

  /** The reasoning deltas, one after the other. */
  function EmittedReasoning(events: seq<Event>): string {
    if events == [] then ""
    else
      var last := events[|events| - 1];
      EmittedReasoning(events[..|events| - 1]) + if IsReasoningDelta(last) then last.update.text else ""
  }

  /** The reasoning so far stands in its part, which is there once there is any. */
  predicate ReasoningKept(d: Draft, text: string)
    requires WellFormed(d)
  {
    && SlotsKept(d)
    && text == if d.reasoningPart.Some? then d.row.parts[d.reasoningPart.value].output else ""
  }

  lemma {:induction false} PersistedReasoning(d: Draft, e: Event, text: string)
    requires WellFormed(d) && ReasoningKept(d, text)
    ensures ReasoningKept(Persisted(d, e), text + if IsReasoningDelta(e) then e.update.text else "")
  {
    PersistedSlots(d, e);
    if IsReasoningDelta(e) {
      assert d.reasoningPart.None? ==> "" + e.update.text == e.update.text;
    } else {
      assert text + "" == text;
    }
  }

  lemma {:induction false} PersistedAllReasoning(d: Draft, events: seq<Event>)
    requires WellFormed(d) && ReasoningKept(d, "")
    ensures ReasoningKept(PersistedAll(d, events), EmittedReasoning(events))
  {
    hide ReasoningKept, Persisted;
    if events != [] {
      PersistedAllReasoning(d, events[..|events| - 1]);
      PersistedReasoning(PersistedAll(d, events[..|events| - 1]), events[|events| - 1],
                         EmittedReasoning(events[..|events| - 1]));
    }
  }

  // ---------------------------------------------------------------- the run context

  /** The assistant message of a running run, changed event by event. */
  class RunContext {
    var row: Row
    var textPart: Option<nat>
    var reasoningPart: Option<nat>
    var toolParts: map<string, nat>

    constructor (row: Row)
      ensures Value() == Draft(row, None, None, map[])
    {
      this.row := row;
      textPart, reasoningPart, toolParts := None, None, map[];
    }

    function Value(): Draft
      reads this
    {
      Draft(row, textPart, reasoningPart, toolParts)
    }

    method CreatePart(part: StoredPart) returns (i: nat)
      modifies this`row
      ensures i == |old(row).parts| && row == old(row).(parts := old(row).parts + [part])
    {
      i := |row.parts|;
      row := row.(parts := row.parts + [part]);
    }

    method AppendOutput(i: nat, delta: string)
      requires i < |row.parts|
      modifies this`row
      ensures row == old(row).(parts := old(row).parts[i := Lengthened(old(row).parts[i], delta)])
    {
      row := row.(parts := row.parts[i := Lengthened(row.parts[i], delta)]);
    }

    /** Appends text or reasoning to the running part of its kind. */
    method PersistPartUpdated(step: int, update: PartUpdate)
      requires WellFormed(Value())
      modifies this
      ensures Value() == Persisted(old(Value()), PartUpdated(step, update))
    {
      if update.text == "" {
        assert row.content + "" == row.content;
        return;
      }
      assert "" + update.text == update.text;
      if update.TextDelta? {
        if textPart.None? {
          var i := CreatePart(NewPart(StoredText, PartRunning));
          textPart := Some(i);
        }
        AppendOutput(textPart.value, update.text);
        assert row.parts == Edited(old(row).parts, DeltaEdit(old(row).parts, old(textPart), StoredText, update.text));
        row := row.(content := row.content + update.text);
      } else {
        if reasoningPart.None? {
          var i := CreatePart(NewPart(StoredReasoning, PartRunning));
          reasoningPart := Some(i);
        }
        AppendOutput(reasoningPart.value, update.text);
        assert row.parts ==
               Edited(old(row).parts, DeltaEdit(old(row).parts, old(reasoningPart), StoredReasoning, update.text));
        assert row.content + "" == row.content;
      }
    }

    /** Closes the part of a call, which is created when the call never started. */
    method FinishToolPart(callId: string, tool: string, output: string, state: PartState)
      requires WellFormed(Value())
      modifies this`row
      ensures row == old(row).(parts := Edited(old(row).parts, old(FinishEdit(Value(), callId, tool, output, state))))
    {
      var i := |row.parts|;
      if callId in toolParts {
        i := toolParts[callId];
      } else if callId != "" {
        i := PartWithCall(row.parts, callId);
      }
      if i == |row.parts| {
        i := CreatePart(NewPart(StoredTool, PartPending).(callId := callId, title := tool));
      }
      row := row.(parts := row.parts[i := FinishedPart(row.parts[i], state, output)]);
    }

    method PersistToolEvent(step: int, e: ToolEvent)
      requires WellFormed(Value())
      modifies this
      ensures Value() == Persisted(old(Value()), ToolCallEvent(step, e))
    {
      assert row.content + "" == row.content;
      match e
      case ToolStarted(callId, tool, arguments) =>
        var i := CreatePart(StartedPart(callId, tool, arguments));
        toolParts := toolParts[callId := i];
      case ToolCompleted(callId, tool, output) => FinishToolPart(callId, tool, output, PartDone);
      case ToolError(callId, tool, error) => FinishToolPart(callId, tool, error, PartError);
    }

    method PersistRunnerEvent(e: Event)
      requires WellFormed(Value())
      modifies this
      ensures Value() == Persisted(old(Value()), e)
    {
      assert row.content + "" == row.content;
      match e
      case PartUpdated(step, update) => PersistPartUpdated(step, update);
      case ToolCallEvent(step, event) => PersistToolEvent(step, event);
      case StepStart(_) =>
        var i := CreatePart(NewPart(StoredStepStart, PartRunning));
      case StepFinish(_, usage) =>
        row := row.(usage := row.usage.Merge(usage));
        var i := CreatePart(NewPart(StoredStepFinish(usage), PartDone));
      case CompactionDone(summary, _, tailStartId) =>
        var i := CreatePart(CompactionPart(summary, tailStartId));
      case RetryScheduled(_, _, _) =>
      case RetryAttempt(_, _) =>
      case Aborted =>
    }

    method PersistAll(events: seq<Event>)
      requires WellFormed(Value())
      modifies this
      ensures Value() == PersistedAll(old(Value()), events)
    {
      for i := 0 to |events|
        invariant Value() == PersistedAll(old(Value()), events[..i])
      {
        assert events[..i + 1][..i] == events[..i];
        PersistRunnerEvent(events[i]);
      }
      assert events[..|events|] == events;
    }

    method SettleOpenStreamParts()
      modifies this`row
      ensures row == old(row).(parts := SettledParts(old(row).parts))
    {
      var closed: seq<StoredPart> := [];
      for i := 0 to |row.parts|
        invariant closed == SettledParts(row.parts[..i])
      {
        closed := closed + [SettledPart(row.parts[i])];
      }
      assert row.parts[..|row.parts|] == row.parts;
      row := row.(parts := closed);
    }

    method FailOpenParts(output: string)
      modifies this`row
      ensures row == old(row).(parts := FailedParts(old(row).parts, output))
    {
      var closed: seq<StoredPart> := [];
      for i := 0 to |row.parts|
        invariant closed == FailedParts(row.parts[..i], output)
      {
        closed := closed + [FailedPart(row.parts[i], output)];
      }
      assert row.parts[..|row.parts|] == row.parts;
      row := row.(parts := closed);
    }
  }

  // ---------------------------------------------------------------- a session over its runs

  /** The counters of a session: what its completed messages cost. */
  function SessionTotal(rows: seq<Row>): Usage {
    if rows == [] then NO_USAGE
    else
      var last := rows[|rows| - 1];
      if last.finish.Ended? then SessionTotal(rows[..|rows| - 1]).Merge(last.usage)
      else SessionTotal(rows[..|rows| - 1])
  }

  lemma {:induction false} SessionTotalOne(rows: seq<Row>, row: Row)
    ensures SessionTotal(rows + [row]) ==
            if row.finish.Ended? then SessionTotal(rows).Merge(row.usage) else SessionTotal(rows)
  {
    assert (rows + [row])[..|rows|] == rows;
  }

  predicate IsId(id: string) {
    id != "" && Text.Strip(id) == id
  }

  lemma {:induction false} RootedOne(rows: seq<Row>, row: Row)
    requires Rooted(rows) && RowRooted(row, UserIds(rows)) && IsId(row.id)
    ensures Rooted(rows + [row])
  {
    assert (rows + [row])[..|rows|] == rows;
  }

  function UserRowOf(id: string, content: string): Row {
    Row(id, UserRow, content, [], NO_USAGE, Unfinished)
  }

  function BlankAssistant(id: string): Row {
    Row(id, AssistantRow, "", [], NO_USAGE, Unfinished)
  }

  lemma {:induction false} ExcludesOnlyTheLast(rows: seq<Row>, row: Row)
    requires forall r :: r in rows ==> r.id != row.id
    ensures Without(rows + [row], row.id) == rows
  {
    assert (rows + [row])[..|rows|] == rows;
    NothingExcluded(rows, row.id);
    assert rows + [] == rows;
  }

  lemma {:induction false} NothingExcluded(rows: seq<Row>, id: string)
    requires forall r :: r in rows ==> r.id != id
    ensures Without(rows, id) == rows
  {
    if rows != [] {
      var init, last := rows[..|rows| - 1], rows[|rows| - 1];
      assert rows == init + [last];
      assert last in rows;
      NothingExcluded(init, id);
    }
  }

  /** The assistant message after the events of a run: what was billed, streamed and compacted. */
  ghost predicate RunWritten(a: Row, id: string, usages: seq<Usage>, events: seq<Event>, ids: set<string>) {
    && a.id == id && a.role.AssistantRow?
    && a.usage == SumUsage(usages)
    && RowRooted(a, ids)
    && TextOutput(a.parts) == EmittedText(events) && EmittedText(events) <= a.content
    && CallIds(a.parts) == CallsToldOf(events)
    && Compactions(a.parts) == CompactionsToldOf(events)
  }

  /** The message as its events leave it, before it is closed. */
  function Written(id: string, events: seq<Event>): Row {
    PersistedAll(Draft(BlankAssistant(id), None, None, map[]), events).row
  }

  /** What is told of a run that failed. */
  function ReasonOf(describe: RunError -> string, error: RunError): string {
    if error.RunCancelled? then "aborted" else describe(error)
  }

  /**
   * A part that is settled stays as it is, and open text or reasoning is complete. After a failure
   * everything else that is open has failed, with the reason unless it has an output of its own.
   */
  predicate ClosedPart(before: StoredPart, after: StoredPart, failed: bool, reason: string) {
    if !before.state.PartPending? && !before.state.PartRunning? then after == before
    else if before.kind.StoredText? || before.kind.StoredReasoning? then after == before.(state := PartDone)
    else if failed then
      after == before.(state := PartError, output := if before.output != "" then before.output else reason)
    else after == before
  }

  predicate ClosedFrom(before: seq<StoredPart>, after: seq<StoredPart>, failed: bool, reason: string) {
    |before| == |after| && forall i :: 0 <= i < |before| ==> ClosedPart(before[i], after[i], failed, reason)
  }

  /** The content of a message whose run ended with this output. */
  predicate Completes(content: string, streamed: string, output: string) {
    && (content == streamed <==> EndsWith(streamed, output) || output <= streamed)
    && (content != streamed ==> content == if streamed <= output then output else streamed + output)
  }

  lemma {:induction false} CompletedContentCompletes(streamed: string, output: string)
    ensures Completes(CompletedContent(streamed, output), streamed, output)
  {
    CompletedContentShowsOutput(streamed, output);
    if streamed <= output {
      assert streamed + output[|streamed|..] == output;
    }
  }

  /**
   * How the message ends. After a run that did not end well nothing stays open, and the next history
   * shows each call its events told of, with a result. Closing the message settles what is open and
   * leaves the rest alone.
   */
  ghost predicate RunClosed(
    a: Row, events: seq<Event>, r: Result<RunResult, RunError>, describe: RunError -> string)
  {
    && ClosedFrom(Written(a.id, events).parts, a.parts, r.Failure?,
                  if r.Failure? then ReasonOf(describe, r.error) else "")
    && (r.Success? ==> Completes(a.content, EmittedText(events), r.value.output))
    && (r.Success? ==> a.finish == Ended(r.value.finish))
    && (r.Success? ==> (EndsWith(a.content, r.value.output) || r.value.output <= a.content))
    && (r.Failure? ==> a.finish == (if r.error.RunCancelled? then AbortedByUser else RunFailed))
    && (r.Failure? ==> a.content == EmittedText(events) && forall p :: p in a.parts ==> !IsOpen(p))
    && (r.Failure? ==> AnsweredIds(SessionHistory.CallsOf(AnsweredParts(a.parts))) == CallsToldOf(events))
  }

  lemma {:induction false} BlankDraft(row: Row)
    requires row == BlankAssistant(row.id)
    ensures var d := Draft(row, None, None, map[]);
      && WellFormed(d) && TextKept(d, "") && CallsKept(d) && row.usage == NO_USAGE
      && CallIds(row.parts) == [] && Compactions(row.parts) == [] && (forall ids :: RowRooted(row, ids))
  {
  }

  lemma {:induction false} DraftAfterRun(row: Row, events: seq<Event>, usages: seq<Usage>, ids: set<string>)
    requires row == BlankAssistant(row.id)
    requires FinishUsages(events) == usages && TailsIn(events, ids)
    ensures WellFormed(Draft(row, None, None, map[]))
    ensures var a := PersistedAll(Draft(row, None, None, map[]), events).row;
      && RunWritten(a, row.id, usages, events, ids) && a.content == EmittedText(events)
      && a == Written(row.id, events)
  {
    hide PersistedAll, SlotsFit, CallsToldOf, CompactionsToldOf, EmittedText, TextOutput, FinishUsages, Accumulate;
    BlankDraft(row);
    var d := Draft(row, None, None, map[]);
    PersistedKeepsIdentity(d, events);
    PersistedUsage(d, events);
    AccumulateFromNothing(usages);
    PersistedAllRooted(d, events, ids);
    PersistedAllText(d, events);
    KeptTextIsOutput(PersistedAll(d, events), EmittedText(events));
    PersistedCalls(d, events);
    PersistedCompactions(d, events);
  }

  function ClosedWell(row: Row, result: RunResult): Row {
    row.(content := CompletedContent(row.content, result.output),
         finish := Ended(result.finish),
         parts := SettledParts(row.parts))
  }

  lemma {:induction false} ClosedFromSettled(parts: seq<StoredPart>)
    ensures ClosedFrom(parts, SettledParts(parts), false, "")
    ensures Compactions(SettledParts(parts)) == Compactions(parts)
  {
    CompactionsDepend(parts, SettledParts(parts));
  }

  lemma {:induction false} ClosedFromFailed(parts: seq<StoredPart>, reason: string)
    ensures ClosedFrom(parts, FailedParts(parts, reason), true, reason)
    ensures Compactions(FailedParts(parts, reason)) == Compactions(parts)
  {
    CompactionsDepend(parts, FailedParts(parts, reason));
  }

  function ClosedBadly(row: Row, error: RunError, text: string): Row {
    row.(finish := if error.RunCancelled? then AbortedByUser else RunFailed, parts := FailedParts(row.parts, text))
  }

  lemma {:induction false} ClosedWellIsStored(
    row: Row, usages: seq<Usage>, events: seq<Event>, ids: set<string>, result: RunResult)
    requires RunWritten(row, row.id, usages, events, ids) && row == Written(row.id, events)
    requires row.content == EmittedText(events)
    ensures RunWritten(ClosedWell(row, result), row.id, usages, events, ids)
    ensures forall describe :: RunClosed(ClosedWell(row, result), events, Success(result), describe)
  {
    CompletedContentCompletes(row.content, result.output);
    ClosedFromSettled(row.parts);
    ClosingShape(row.parts, "");
    SameShapeKeeps(row.parts, SettledParts(row.parts), ids);
    CompletedContentShowsOutput(row.content, result.output);
  }

  lemma {:induction false} ClosedBadlyIsStored(
    row: Row, usages: seq<Usage>, events: seq<Event>, ids: set<string>, error: RunError, text: string)
    requires RunWritten(row, row.id, usages, events, ids) && row == Written(row.id, events)
    requires row.content == EmittedText(events)
    ensures RunWritten(ClosedBadly(row, error, text), row.id, usages, events, ids)
    ensures forall describe :: text == ReasonOf(describe, error) ==>
              RunClosed(ClosedBadly(row, error, text), events, Failure(error), describe)
  {
    ClosedFromFailed(row.parts, text);
    ClosingShape(row.parts, text);
    SameShapeKeeps(row.parts, FailedParts(row.parts, text), ids);
    FailedCallsAreAnswered(FailedParts(row.parts, text));
  }

  /** What a run of the session is set up with, the provider having seen `at` requests. */
  function SetupOf(
    env: Environment, agent: Agent, settings: RunOptions, history: seq<Message>, userId: string, at: nat): Setup
  {
    Setup(env, agent, settings.(history := history, currentUserMessageId := userId), EffectiveMaxSteps(settings), at)
  }

  /** The messages it starts from: the prompt stands behind the history, which ends with it already. */
  function FirstMessages(su: Setup, text: string): seq<Message> {
    InitialMessages(su.env, su.agent, su.opts, PromptMessage(su.env, text, su.opts))
  }

  lemma {:induction false} StoredMeans(
    a: Row, ids: set<string>, assistantId: string, r: Result<RunResult, RunError>, page: Page, usages: seq<Usage>,
    describe: RunError -> string)
    requires RunStored(a, ids, assistantId, r, page, usages, describe)
    ensures a.id == assistantId && RowRooted(a, ids) && (a.finish.Ended? <==> r.Success?)
  {
  }

  /** The rebuilt history ends with the prompt that the runner puts behind it once more. */
  lemma {:induction false} FirstMessagesEnd(
    rows: seq<Row>, su: Setup, text: string, userId: string, clip: string -> string)
    requires su.opts.history == History(rows + [UserRowOf(userId, text)], clip)
    requires su.opts.currentUserMessageId == userId
    ensures var ms := FirstMessages(su, text);
      && |ms| >= 3
      && ms[|ms| - 2] == UserMessage(Plain(text), userId)
      && ms[|ms| - 1] == UserMessage(su.env.hydrate(text), userId)
  {
    hide History;
    HistoryEndsWithPrompt(rows + [UserRowOf(userId, text)], clip);
    EndsWithBoth(SystemMessage(su.env.systemPrompt(su.agent)), su.opts.history,
                 UserMessage(su.env.hydrate(text), userId));
  }

  /** The request ends with the prompt twice, but for the notice of a last step. */
  predicate AsksTwice(request: seq<Message>, su: Setup, text: string, userId: string) {
    var notice := if IsLastStep(1, su.maxSteps) then [AssistantText(MAX_STEPS_PROMPT)] else [];
    var n := |request| - |notice|;
    && n >= 3 && request[n..] == notice
    && request[n - 2] == UserMessage(Plain(text), userId)
    && request[n - 1] == UserMessage(su.env.hydrate(text), userId)
  }

  lemma {:induction false} AskedTwice(su: Setup, ms: seq<Message>, text: string, userId: string)
    requires |ms| >= 3 && ms[|ms| - 2] == UserMessage(Plain(text), userId)
    requires ms[|ms| - 1] == UserMessage(su.env.hydrate(text), userId)
    ensures AsksTwice(ms + RunContents.Notice(1 >= su.maxSteps), su, text, userId)
  {
  }

  /**
   * Unless a compaction comes before it, the first request of a run ends with the prompt twice, each
   * time it is sent.
   */
  lemma {:induction false} PromptIsSentTwice(
    rows: seq<Row>, env: Environment, agent: Agent, settings: RunOptions, text: string, userId: string,
    clip: string -> string, at: nat, r: Result<RunResult, RunError>, turns: seq<Turn>)
    requires var su := SetupOf(env, agent, settings, History(rows + [UserRowOf(userId, text)], clip), userId, at);
      Traced(r, su, FirstMessages(su, text), turns)
    requires r != Failure(InvalidRun) && Summary(turns[0].early) == "" && !Interrupted(turns[0].early)
    ensures var su := SetupOf(env, agent, settings, History(rows + [UserRowOf(userId, text)], clip), userId, at);
      var first := turns[0].sendings.first;
      first != [] && forall x :: x in first ==> x.owner == agent && AsksTwice(x.request, su, text, userId)
  {
    hide History, Traced, AsksTwice, RunContents.Notice, Summary, Interrupted;
    var su := SetupOf(env, agent, settings, History(rows + [UserRowOf(userId, text)], clip), userId, at);
    FirstMessagesEnd(rows, su, text, userId, clip);
    RunContents.FirstRequestIs(r, su, text, turns);
    AskedTwice(su, FirstMessages(su, text), text, userId);
  }

  lemma {:induction false} EndsWithBoth(first: Message, middle: seq<Message>, last: Message)
    requires middle != []
    ensures var ms := [first] + middle + [last];
      |ms| >= 3 && ms[|ms| - 2] == middle[|middle| - 1] && ms[|ms| - 1] == last
  {
  }

  class HarnessService {
    const clip: string -> string
    /** The text an error is reported with. */
    const describe: RunError -> string
    var rows: seq<Row>
    var sessionUsage: Usage

    constructor (clip: string -> string, describe: RunError -> string)
      ensures Valid() && rows == [] && sessionUsage == NO_USAGE && this.clip == clip && this.describe == describe
    {
      this.clip, this.describe := clip, describe;
      rows, sessionUsage := [], NO_USAGE;
    }

    /** Compactions name earlier prompts, and the session's counters are those of its completed messages. */
    ghost predicate Valid()
      reads this
    {
      Rooted(rows) && sessionUsage == SessionTotal(rows)
    }

    /** Closes the message of a run that ended normally. */
    static method CloseSuccessful(context: RunContext, result: RunResult)
      modifies context`row
      ensures context.row == ClosedWell(old(context.row), result)
    {
      context.row := context.row.(content := CompletedContent(context.row.content, result.output));
      context.row := context.row.(finish := Ended(result.finish));
      context.SettleOpenStreamParts();
    }

    /** Closes the message of a run that was aborted or failed. */
    static method CloseFailed(context: RunContext, error: RunError, text: string)
      modifies context`row
      ensures context.row == ClosedBadly(old(context.row), error, text)
    {
      context.row := context.row.(finish := if error.RunCancelled? then AbortedByUser else RunFailed);
      context.FailOpenParts(text);
    }

    /** Writes down what the run did and how it ended; only a successful run is added to the session. */
    method Finalise(
        row: Row, events: seq<Event>, r: Result<RunResult, RunError>, ghost usages: seq<Usage>, ghost ids: set<string>)
      returns (a: Row)
      requires row == BlankAssistant(row.id)
      requires FinishUsages(events) == usages && TailsIn(events, ids)
      requires r.Success? ==> r.value.usage == SumUsage(usages)
      modifies this`sessionUsage
      ensures RunWritten(a, row.id, usages, events, ids) && RunClosed(a, events, r, describe)
      ensures sessionUsage == if r.Success? then old(sessionUsage).Merge(a.usage) else old(sessionUsage)
    {
      var context := new RunContext(row);
      DraftAfterRun(row, events, usages, ids);
      context.PersistAll(events);
      ghost var written := context.row;
      if r.Success? {
        sessionUsage := sessionUsage.Merge(r.value.usage);
        CloseSuccessful(context, r.value);
        ClosedWellIsStored(written, usages, events, ids, r.value);
      } else {
        var text := ReasonOf(describe, r.error);
        CloseFailed(context, r.error, text);
        ClosedBadlyIsStored(written, usages, events, ids, r.error, text);
      }
      a := context.row;
    }

    /** Runs the agent on a rebuilt history and finalises the assistant message. */
    method ExecuteRun(
      text: string, userId: string, row: Row, history: seq<Message>, agent: Agent, provider: Provider, env: Environment,
      settings: RunOptions, ghost ids: set<string>)
      returns (r: Result<RunResult, RunError>, a: Row, ghost turns: seq<Turn>, ghost page: Page,
               ghost usages: seq<Usage>)
      requires row == BlankAssistant(row.id)
      requires Answered(history) && PromptIdsIn(history, ids) && userId in ids
      modifies this`sessionUsage, provider
      ensures RunStored(a, ids, row.id, r, page, usages, describe)
      ensures sessionUsage == if r.Success? then old(sessionUsage).Merge(a.usage) else old(sessionUsage)
      ensures provider.log == old(provider.log) + page.sent
      ensures FromStream(page.sent, provider.replies, |old(provider.log)|)
      ensures var su := SetupOf(env, agent, settings, history, userId, |old(provider.log)|);
        RunOk(r, su, PromptMessage(env, text, su.opts), ids, turns, page, usages)
    {
      hide Answered, PromptIdsIn, Books, Traced, AllStarts, AllRecords, AllSent, AllTraced, FromStream;
      hide RunWritten, RunClosed;
      hide SumUsage, FinishUsages, TailsIn;
      var runner := new Runner(provider, env, true);
      var options := settings.(history := history, currentUserMessageId := userId);
      r, turns, page, usages := runner.Run(text, agent, options, ids);
      assert runner.events == page.emitted;
      RunReports(r, SetupOf(env, agent, settings, history, userId, |old(provider.log)|),
                 PromptMessage(env, text, options), ids, turns, page, usages);
      a := Finalise(row, runner.events, r, usages, ids);
    }

    /** Rebuilds the history without the blank assistant message at the end of the table, and runs on it. */
    method RunOnHistory(
      user: Row, assistant: Row, agent: Agent, provider: Provider, env: Environment, settings: RunOptions,
      ghost before: seq<Row>)
      returns (r: Result<RunResult, RunError>, a: Row, ghost turns: seq<Turn>, ghost page: Page,
               ghost usages: seq<Usage>)
      requires assistant == BlankAssistant(assistant.id) && user.role.UserRow? && user.id != assistant.id
      requires rows == before + [user] + [assistant] && forall row :: row in before ==> row.id != assistant.id
      requires Rooted(before) && IsId(user.id) && IsId(assistant.id) && user.parts == [] && user.finish.Unfinished?
      requires sessionUsage == SessionTotal(before)
      modifies this`sessionUsage, provider
      ensures Rooted(before + [user] + [a]) && sessionUsage == SessionTotal(before + [user] + [a])
      ensures RunStored(a, UserIds(before + [user]), assistant.id, r, page, usages, describe)
      ensures sessionUsage == if r.Success? then old(sessionUsage).Merge(a.usage) else old(sessionUsage)
      ensures provider.log == old(provider.log) + page.sent
      ensures FromStream(page.sent, provider.replies, |old(provider.log)|)
      ensures var su := SetupOf(env, agent, settings, History(before + [user], clip), user.id, |old(provider.log)|);
        RunOk(r, su, PromptMessage(env, user.content, su.opts), UserIds(before + [user]), turns, page, usages)
    {
      hide Answered, PromptIdsIn, RunOk, FromStream, RunStored, History, Rooted, SessionTotal;
      ExcludesOnlyTheLast(before + [user], assistant);
      var history := BuildHistory(rows, assistant.id, clip);
      RunMayStart(before + [user], clip, user.id);
      r, a, turns, page, usages :=
        ExecuteRun(user.content, user.id, assistant, history, agent, provider, env, settings, UserIds(before + [user]));
      StoredMeans(a, UserIds(before + [user]), assistant.id, r, page, usages, describe);
      AfterRun(before, user, a, UserIds(before + [user]));
    }

    /** A run on a prompt that is not blank. */
    method RunPrompt(
      user: Row, assistantId: string, agent: Agent, provider: Provider, env: Environment, settings: RunOptions)
      returns (r: Result<RunResult, RunError>, ghost a: Row, ghost turns: seq<Turn>, ghost page: Page,
               ghost usages: seq<Usage>)
      requires Valid() && IsId(user.id) && IsId(assistantId) && user == UserRowOf(user.id, user.content)
      requires user.id != assistantId && forall row :: row in rows ==> row.id != assistantId
      modifies this, provider
      ensures Valid()
      ensures rows == old(rows) + [user] + [a]
      ensures RunStored(a, UserIds(old(rows) + [user]), assistantId, r, page, usages, describe)
      ensures provider.log == old(provider.log) + page.sent
      ensures FromStream(page.sent, provider.replies, |old(provider.log)|)
      ensures var su :=
          SetupOf(env, agent, settings, History(old(rows) + [user], clip), user.id, |old(provider.log)|);
        RunOk(r, su, PromptMessage(env, user.content, su.opts), UserIds(old(rows) + [user]), turns, page, usages)
      ensures sessionUsage == if r.Success? then old(sessionUsage).Merge(a.usage) else old(sessionUsage)
    {
      hide RunOk, FromStream, RunStored, History, Rooted, SessionTotal;
      ghost var before := rows;
      var asked := rows + [user];
      rows := asked + [BlankAssistant(assistantId)];
      var closed;
      r, closed, turns, page, usages :=
        RunOnHistory(user, BlankAssistant(assistantId), agent, provider, env, settings, before);
      a := closed;
      rows := asked + [closed];
    }

    /**
     * One run, from the prompt to the stored outcome. Its history is rebuilt from the table, its
     * requests and usage are those of the runner's books, and a prompt that is blank changes nothing.
     */
    method StartRun(
      prompt: string, userId: string, assistantId: string, agent: Agent, provider: Provider, env: Environment,
      settings: RunOptions)
      returns (r: Result<RunResult, RunError>, ghost a: Row, ghost turns: seq<Turn>, ghost page: Page,
               ghost usages: seq<Usage>)
      requires Valid() && IsId(userId) && IsId(assistantId) && userId != assistantId
      requires forall row :: row in rows ==> row.id != assistantId
      modifies this, provider
      ensures Valid()
      ensures Text.Strip(prompt) == "" ==>
                && r == Failure(InvalidRun) && rows == old(rows) && sessionUsage == old(sessionUsage)
                && provider.log == old(provider.log)
      ensures Text.Strip(prompt) != "" ==>
                var user := UserRowOf(userId, Text.Strip(prompt));
                var su :=
                  SetupOf(env, agent, settings, History(old(rows) + [user], clip), userId, |old(provider.log)|);
                && rows == old(rows) + [user] + [a]
                && RunStored(a, UserIds(old(rows) + [user]), assistantId, r, page, usages, describe)
                && provider.log == old(provider.log) + page.sent
                && FromStream(page.sent, provider.replies, |old(provider.log)|)
                && RunOk(r, su, PromptMessage(env, user.content, su.opts), UserIds(old(rows) + [user]), turns, page,
                         usages)
                && sessionUsage == if r.Success? then old(sessionUsage).Merge(a.usage) else old(sessionUsage)
    {
      hide RunOk, FromStream, RunStored, History, Rooted, SessionTotal;
      var text := Text.Strip(prompt);
      if text == "" {
        r, a, turns, page, usages := Failure(InvalidRun), BlankAssistant(assistantId), [], BLANK, [];
      } else {
        r, a, turns, page, usages :=
          RunPrompt(UserRowOf(userId, text), assistantId, agent, provider, env, settings);
      }
    }
  }

  /** What the books of a run say for its message. */
  lemma {:induction false} RunReports(
    r: Result<RunResult, RunError>, su: Setup, prompt: Message, ids: set<string>, turns: seq<Turn>, page: Page,
    usages: seq<Usage>)
    requires RunOk(r, su, prompt, ids, turns, page, usages)
    ensures FinishUsages(page.emitted) == usages && TailsIn(page.emitted, ids)
    ensures r.Success? ==> r.value.usage == SumUsage(usages)
  {
    hide IsTrace, EndOfTurn, AllTraced, AllStarts, AllRecords, AllGood, TailsIn, SumUsage, FinishUsages, AllSent;
  }

  /** The assistant message is that of the run, and a successful run reports what the message counts. */
  ghost predicate RunStored(
    a: Row, ids: set<string>, assistantId: string, r: Result<RunResult, RunError>, page: Page, usages: seq<Usage>,
    describe: RunError -> string)
  {
    && RunWritten(a, assistantId, usages, page.emitted, ids)
    && RunClosed(a, page.emitted, r, describe)
    && (r.Success? ==> r.value.usage == a.usage)
  }

  lemma {:induction false} RunMayStart(rows: seq<Row>, clip: string -> string, userId: string)
    requires exists row :: row in rows && row.role.UserRow? && row.id == userId
    ensures Answered(History(rows, clip)) && PromptIdsIn(History(rows, clip), UserIds(rows)) && userId in UserIds(rows)
  {
    HistoryPaired(rows, clip);
    HistoryIds(rows, clip);
  }

  lemma {:induction false} AfterRun(rows: seq<Row>, user: Row, a: Row, ids: set<string>)
    requires Rooted(rows) && IsId(user.id) && IsId(a.id) && user.parts == [] && user.finish.Unfinished?
    requires ids == UserIds(rows + [user]) && RowRooted(a, ids)
    ensures Rooted(rows + [user] + [a])
    ensures SessionTotal(rows + [user] + [a]) ==
            if a.finish.Ended? then SessionTotal(rows).Merge(a.usage) else SessionTotal(rows)
  {
    RootedOne(rows, user);
    RootedOne(rows + [user], a);
    SessionTotalOne(rows, user);
    SessionTotalOne(rows + [user], a);
  }
}
