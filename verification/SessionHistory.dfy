/** The stored messages of a session and the provider history rebuilt from them. */
module SessionHistory {
  import opened Wrappers
  import opened Messages
  import opened Providers
  import opened Compaction
  import opened RunLog
  import Text

  // ---------------------------------------------------------------- stored rows

  datatype StoredKind =
    | StoredText
    | StoredReasoning
    | StoredTool
    | StoredCompaction
    | StoredStepStart
    | StoredStepFinish(usage: Usage)

  datatype PartState = PartPending | PartRunning | PartDone | PartError

  /** A part of an assistant message; `tool` and `arguments` are its input, `tailStartId` its metadata. */
  datatype StoredPart = StoredPart(
    kind: StoredKind, state: PartState, callId: string, title: string, tool: string, arguments: string,
    output: string, tailStartId: string)

  datatype RowRole = UserRow | AssistantRow | OtherRow

  datatype Finish = Unfinished | Ended(reason: string) | AbortedByUser | RunFailed

  datatype Row = Row(id: string, role: RowRole, content: string, parts: seq<StoredPart>, usage: Usage, finish: Finish)

  function NewPart(kind: StoredKind, state: PartState): StoredPart {
    StoredPart(kind, state, "", "", "", "", "", "")
  }

  predicate IsOpen(part: StoredPart) {
    part.state.PartPending? || part.state.PartRunning?
  }

  // ---------------------------------------------------------------- the latest compaction

  predicate IsCompaction(part: StoredPart) {
    part.kind.StoredCompaction? && part.state.PartDone?
  }

  function LatestPart(parts: seq<StoredPart>): Option<StoredPart> {
    if parts == [] then None
    else if IsCompaction(parts[|parts| - 1]) then Some(parts[|parts| - 1])
    else LatestPart(parts[..|parts| - 1])
  }

  /** The index of a compacting message and its compaction part. */
  datatype Compacting = Compacting(index: nat, part: StoredPart)

  function Latest(rows: seq<Row>): (r: Option<Compacting>)
    ensures r.Some? ==>
              && r.value.index < |rows| && rows[r.value.index].role.AssistantRow?
              && r.value.part in rows[r.value.index].parts
  {
    if rows == [] then None
    else
      var last := rows[|rows| - 1];
      if last.role.AssistantRow? && LatestPart(last.parts).Some? then
        LatestPartIn(last.parts);
        Some(Compacting(|rows| - 1, LatestPart(last.parts).value))
      else Latest(rows[..|rows| - 1])
  }

  lemma {:induction false} LatestPartIn(parts: seq<StoredPart>)
    ensures LatestPart(parts).Some? ==> LatestPart(parts).value in parts && IsCompaction(LatestPart(parts).value)
    ensures LatestPart(parts).None? ==> forall p :: p in parts ==> !IsCompaction(p)
  {
    if parts != [] {
      LatestPartIn(parts[..|parts| - 1]);
      assert parts == parts[..|parts| - 1] + [parts[|parts| - 1]];
    }
  }

  /** No assistant message after the latest compacting one has a completed compaction. */
  lemma {:induction false} LatestIsLast(rows: seq<Row>, i: nat, p: StoredPart)
    requires i < |rows| && rows[i].role.AssistantRow? && p in rows[i].parts && IsCompaction(p)
    ensures Latest(rows).Some? && i <= Latest(rows).value.index && IsCompaction(Latest(rows).value.part)
  {
    var last := rows[|rows| - 1];
    LatestPartIn(last.parts);
    if i < |rows| - 1 && !(last.role.AssistantRow? && LatestPart(last.parts).Some?) {
      LatestIsLast(rows[..|rows| - 1], i, p);
    }
  }

  method FindLatestCompaction(rows: seq<Row>) returns (latest: Option<Compacting>)
    ensures latest == Latest(rows)
  {
    latest := None;
    for i := 0 to |rows|
      invariant latest == Latest(rows[..i])
    {
      assert rows[..i + 1][..i] == rows[..i];
      if rows[i].role.AssistantRow? {
        var parts := rows[i].parts;
        ghost var before := latest;
        for j := 0 to |parts|
          invariant latest ==
                    if LatestPart(parts[..j]).Some? then Some(Compacting(i, LatestPart(parts[..j]).value)) else before
        {
          assert parts[..j + 1][..j] == parts[..j];
          if parts[j].kind.StoredCompaction? && parts[j].state.PartDone? {
            latest := Some(Compacting(i, parts[j]));
          }
        }
        assert parts[..|parts|] == parts;
      }
    }
    assert rows[..|rows|] == rows;
  }

  // ---------------------------------------------------------------- the kept suffix

  /** The first row with this id, or the end. */
  function IndexOf(rows: seq<Row>, id: string): (i: nat)
    ensures i <= |rows|
    ensures i < |rows| ==> rows[i].id == id
    ensures forall k :: 0 <= k < i ==> rows[k].id != id
  {
    if rows == [] || rows[0].id == id then 0 else 1 + IndexOf(rows[1..], id)
  }

  /** Where the kept messages begin: at the recorded tail if it is there, else at the compacting message. */
  function KeptFrom(rows: seq<Row>, c: Compacting): (k: nat)
    requires c.index < |rows|
    ensures k < |rows|
  {
    var tail := Text.Strip(c.part.tailStartId);
    if tail != "" && IndexOf(rows, tail) < |rows| then IndexOf(rows, tail) else IndexOf(rows, rows[c.index].id)
  }

  lemma {:induction false} IndexOfIs(rows: seq<Row>, id: string, i: nat)
    requires i <= |rows| && (i < |rows| ==> rows[i].id == id)
    requires forall k :: 0 <= k < i ==> rows[k].id != id
    ensures IndexOf(rows, id) == i
  {
    var j := IndexOf(rows, id);
    assert !(j < i);
  }

  /** The first row with this id, and what follows it. */
  method FromRow(rows: seq<Row>, id: string) returns (kept: Option<seq<Row>>)
    ensures kept == if IndexOf(rows, id) < |rows| then Some(rows[IndexOf(rows, id)..]) else None
  {
    for i := 0 to |rows|
      invariant forall k :: 0 <= k < i ==> rows[k].id != id
    {
      if rows[i].id == id {
        IndexOfIs(rows, id, i);
        return Some(rows[i..]);
      }
    }
    IndexOfIs(rows, id, |rows|);
    return None;
  }

  method SliceMessagesForCompaction(rows: seq<Row>, c: Compacting) returns (kept: seq<Row>)
    requires c.index < |rows|
    ensures kept == rows[KeptFrom(rows, c)..]
  {
    var tail := Text.Strip(c.part.tailStartId);
    var found := None;
    if tail != "" {
      found := FromRow(rows, tail);
    }
    if found.None? {
      found := FromRow(rows, rows[c.index].id);
    }
    kept := if found.Some? then found.value else rows;
  }

  // ---------------------------------------------------------------- rendering

  /** A tool part the next run sees: settled, and with a call id. */
  predicate IsAnswered(part: StoredPart) {
    part.kind.StoredTool? && (part.state.PartDone? || part.state.PartError?) && part.callId != ""
  }

  function AnsweredParts(parts: seq<StoredPart>): (r: seq<StoredPart>)
    ensures forall p :: p in r ==> IsAnswered(p)
  {
    if parts == [] then []
    else AnsweredParts(parts[..|parts| - 1]) + if IsAnswered(parts[|parts| - 1]) then [parts[|parts| - 1]] else []
  }

  function CallOf(part: StoredPart): ToolCall {
    ToolCall(
      part.callId,
      if part.tool != "" then part.tool else if part.title != "" then part.title else "tool",
      if part.arguments != "" then part.arguments else "{}")
  }

  function CallsOf(parts: seq<StoredPart>): seq<ToolCall> {
    seq(|parts|, i requires 0 <= i < |parts| => CallOf(parts[i]))
  }

  function ResultsOf(parts: seq<StoredPart>, clip: string -> string): seq<Message> {
    seq(|parts|, i requires 0 <= i < |parts| => ToolResult(parts[i].callId, clip(parts[i].output)))
  }

  /** The outputs of the text parts, one after the other. */
  function TextOutput(parts: seq<StoredPart>): string {
    if parts == [] then ""
    else
      TextOutput(parts[..|parts| - 1]) +
      if parts[|parts| - 1].kind.StoredText? then parts[|parts| - 1].output else ""
  }

  lemma {:induction false} TextOutputConcat(a: seq<StoredPart>, b: seq<StoredPart>)
    ensures TextOutput(a + b) == TextOutput(a) + TextOutput(b)
  {
    if b == [] {
      assert a + b == a;
    } else {
      assert (a + b)[..|a + b| - 1] == a + b[..|b| - 1];
      TextOutputConcat(a, b[..|b| - 1]);
    }
  }

  /** The words of a stored answer are those of all its text parts, in order. */
  lemma {:induction false} WordsAreJoined(a: seq<StoredPart>, part: StoredPart, b: seq<StoredPart>)
    ensures TextOutput(a + [part] + b) ==
            TextOutput(a) + (if part.kind.StoredText? then part.output else "") + TextOutput(b)
    ensures TextOutput([]) == ""
  {
    TextOutputConcat(a + [part], b);
    TextOutputConcat(a, [part]);
    assert [part][..0] == [];
  }

  /** The assistant's words; never the summary itself. */
  function AssistantContent(row: Row, summary: string): Content {
    var text, content := TextOutput(row.parts), Text.Strip(row.content);
    if text != "" then Plain(text)
    else if content == "" || (summary != "" && content == Text.Strip(summary)) then NoContent
    else Plain(row.content)
  }

  /** What one stored message becomes; `summary` is blank unless it is the compacting one. */
  function Render(row: Row, summary: string, clip: string -> string): seq<Message> {
    match row.role
    case UserRow => [UserMessage(Plain(row.content), row.id)]
    case OtherRow => []
    case AssistantRow =>
      var parts := AnsweredParts(row.parts);
      [Message(Assistant, AssistantContent(row, summary), CallsOf(parts), "", row.id)] + ResultsOf(parts, clip)
  }

  function RenderAll(
      rows: seq<Row>, compactingId: Option<string>, summary: string, clip: string -> string): seq<Message>
  {
    if rows == [] then []
    else
      var last := rows[|rows| - 1];
      RenderAll(rows[..|rows| - 1], compactingId, summary, clip)
        + Render(last, if compactingId == Some(last.id) then summary else "", clip)
  }

  function Without(rows: seq<Row>, id: string): seq<Row> {
    if rows == [] then []
    else Without(rows[..|rows| - 1], id) + if rows[|rows| - 1].id != id then [rows[|rows| - 1]] else []
  }

  /** The history after a compaction. */
  function Shortened(rows: seq<Row>, c: Compacting, clip: string -> string): seq<Message>
    requires c.index < |rows|
  {
    var summary := Text.Strip(c.part.output);
    (if summary != "" then [CheckpointMessage(summary)] else [])
      + RenderAll(rows[KeptFrom(rows, c)..], Some(rows[c.index].id), summary, clip)
  }

  /** The checkpoint of the latest compaction, if any, and the rendering of the kept suffix. */
  function History(rows: seq<Row>, clip: string -> string): seq<Message> {
    var latest := Latest(rows);
    if latest.None? then RenderAll(rows, None, "", clip) else Shortened(rows, latest.value, clip)
  }

  method SelectAnswered(parts: seq<StoredPart>) returns (answered: seq<StoredPart>)
    ensures answered == AnsweredParts(parts)
  {
    answered := [];
    for i := 0 to |parts|
      invariant answered == AnsweredParts(parts[..i])
    {
      assert parts[..i + 1][..i] == parts[..i];
      if IsAnswered(parts[i]) {
        answered := answered + [parts[i]];
      }
    }
    assert parts[..|parts|] == parts;
  }

  method RenderAssistant(row: Row, summary: string, clip: string -> string) returns (messages: seq<Message>)
    requires row.role.AssistantRow?
    ensures messages == Render(row, summary, clip)
  {
    var toolParts := SelectAnswered(row.parts);
    var calls: seq<ToolCall>, results: seq<Message> := [], [];
    for i := 0 to |toolParts|
      invariant calls == CallsOf(toolParts[..i]) && results == ResultsOf(toolParts[..i], clip)
    {
      calls := calls + [CallOf(toolParts[i])];
      results := results + [ToolResult(toolParts[i].callId, clip(toolParts[i].output))];
    }
    assert toolParts[..|toolParts|] == toolParts;
    messages := [Message(Assistant, AssistantContent(row, summary), calls, "", row.id)] + results;
  }

  method RenderRows(rows: seq<Row>, compactingId: Option<string>, summary: string, clip: string -> string)
    returns (history: seq<Message>)
    ensures history == RenderAll(rows, compactingId, summary, clip)
  {
    history := [];
    for i := 0 to |rows|
      invariant history == RenderAll(rows[..i], compactingId, summary, clip)
    {
      assert rows[..i + 1][..i] == rows[..i];
      var row := rows[i];
      if row.role.UserRow? {
        history := history + [UserMessage(Plain(row.content), row.id)];
      } else if row.role.AssistantRow? {
        var messages := RenderAssistant(row, if compactingId == Some(row.id) then summary else "", clip);
        history := history + messages;
      }
    }
    assert rows[..|rows|] == rows;
  }

  method Exclude(table: seq<Row>, id: string) returns (stored: seq<Row>)
    ensures stored == Without(table, id)
  {
    stored := [];
    for i := 0 to |table|
      invariant stored == Without(table[..i], id)
    {
      assert table[..i + 1][..i] == table[..i];
      if table[i].id != id {
        stored := stored + [table[i]];
      }
    }
    assert table[..|table|] == table;
  }

  /** The provider history of a session, without the message being written. */
  method BuildHistory(table: seq<Row>, exclude: string, clip: string -> string) returns (history: seq<Message>)
    ensures history == History(Without(table, exclude), clip)
  {
    var stored := Exclude(table, exclude);
    var compaction := FindLatestCompaction(stored);
    if compaction.None? {
      history := RenderRows(stored, None, "", clip);
      return;
    }
    history := BuildShortened(stored, compaction.value, clip);
  }

  method BuildShortened(stored: seq<Row>, c: Compacting, clip: string -> string) returns (history: seq<Message>)
    requires c.index < |stored|
    ensures history == Shortened(stored, c, clip)
  {
    var summary := Text.Strip(c.part.output);
    var kept := SliceMessagesForCompaction(stored, c);
    var rest := RenderRows(kept, Some(stored[c.index].id), summary, clip);
    history := (if summary != "" then [CheckpointMessage(summary)] else []) + rest;
  }

  // ---------------------------------------------------------------- what the rebuilt history promises

  lemma {:induction false} OnePaired(m: Message)
    requires m.calls == [] && !m.role.Tool?
    ensures Paired([m])
  {
    assert [m][1..] == [];
  }

  lemma {:induction false} PrefixedPaired(m: Message, rest: seq<Message>, present: bool)
    requires m.calls == [] && !m.role.Tool? && Paired(rest)
    ensures Paired((if present then [m] else []) + rest)
  {
    if present {
      OnePaired(m);
      PairedAppend([m], rest);
    } else {
      assert [] + rest == rest;
    }
  }

  lemma {:induction false} PartsAnswer(parts: seq<StoredPart>, clip: string -> string)
    ensures ResultsFor(CallsOf(parts), ResultsOf(parts, clip))
    ensures forall m :: m in ResultsOf(parts, clip) ==> m.role.Tool?
  {
    var calls, results := CallsOf(parts), ResultsOf(parts, clip);
    forall j | 0 <= j < |parts|
      ensures results[j].role.Tool? && results[j].calls == [] && results[j].callId == calls[j].id
    {
      assert results[j] == ToolResult(parts[j].callId, clip(parts[j].output));
    }
  }

  lemma {:induction false} RenderPaired(row: Row, summary: string, clip: string -> string)
    ensures Paired(Render(row, summary, clip))
  {
    if row.role.UserRow? {
      OnePaired(UserMessage(Plain(row.content), row.id));
    } else if row.role.AssistantRow? {
      var parts := AnsweredParts(row.parts);
      var message := Message(Assistant, AssistantContent(row, summary), CallsOf(parts), "", row.id);
      if parts == [] {
        OnePaired(message);
        assert Render(row, summary, clip) == [message];
      } else {
        PartsAnswer(parts, clip);
        StepPaired(message, ResultsOf(parts, clip));
      }
    }
  }

  lemma {:induction false} RenderAllPaired(
      rows: seq<Row>, compactingId: Option<string>, summary: string, clip: string -> string)
    ensures Paired(RenderAll(rows, compactingId, summary, clip))
  {
    if rows != [] {
      var last := rows[|rows| - 1];
      var s := if compactingId == Some(last.id) then summary else "";
      RenderAllPaired(rows[..|rows| - 1], compactingId, summary, clip);
      RenderPaired(last, s, clip);
      PairedAppend(RenderAll(rows[..|rows| - 1], compactingId, summary, clip), Render(last, s, clip));
    }
  }

  lemma {:induction false} ShortenedPaired(rows: seq<Row>, c: Compacting, clip: string -> string)
    requires c.index < |rows|
    ensures Paired(Shortened(rows, c, clip))
  {
    var summary := Text.Strip(c.part.output);
    PrefixedRenderPaired(CheckpointMessage(summary), rows[KeptFrom(rows, c)..], Some(rows[c.index].id), summary, clip);
  }

  lemma {:induction false} PrefixedRenderPaired(
    m: Message, rows: seq<Row>, compactingId: Option<string>, summary: string, clip: string -> string)
    requires m.calls == [] && !m.role.Tool?
    ensures Paired((if summary != "" then [m] else []) + RenderAll(rows, compactingId, summary, clip))
  {
    RenderAllPaired(rows, compactingId, summary, clip);
    PrefixedPaired(m, RenderAll(rows, compactingId, summary, clip), summary != "");
  }

  /** In a rebuilt history every call is followed at once by its results, and there are no orphans. */
  lemma {:induction false} HistoryPaired(rows: seq<Row>, clip: string -> string)
    ensures Paired(History(rows, clip))
  {
    if Latest(rows).None? {
      RenderAllPaired(rows, None, "", clip);
    } else {
      ShortenedPaired(rows, Latest(rows).value, clip);
    }
  }

  function UserIds(rows: seq<Row>): set<string> {
    set row | row in rows && row.role.UserRow? :: row.id
  }

  lemma {:induction false} RenderIds(row: Row, summary: string, clip: string -> string, ids: set<string>)
    requires row.role.UserRow? ==> row.id in ids
    ensures PromptIdsIn(Render(row, summary, clip), ids)
  {
    PromptIdsInMeans(Render(row, summary, clip), ids);
    PartsAnswer(AnsweredParts(row.parts), clip);
  }

  lemma {:induction false} RenderAllIds(
      rows: seq<Row>, compactingId: Option<string>, summary: string, clip: string -> string, ids: set<string>)
    requires forall row :: row in rows && row.role.UserRow? ==> row.id in ids
    ensures PromptIdsIn(RenderAll(rows, compactingId, summary, clip), ids)
  {
    if rows != [] {
      var last := rows[|rows| - 1];
      assert last in rows;
      var s := if compactingId == Some(last.id) then summary else "";
      RenderAllIds(rows[..|rows| - 1], compactingId, summary, clip, ids);
      RenderIds(last, s, clip, ids);
      PromptIdsInConcat(RenderAll(rows[..|rows| - 1], compactingId, summary, clip), Render(last, s, clip), ids);
    }
  }

  /** The prompts of a rebuilt history carry the ids of stored user messages. */
  lemma {:induction false} HistoryIds(rows: seq<Row>, clip: string -> string)
    ensures PromptIdsIn(History(rows, clip), UserIds(rows))
  {
    var ids := UserIds(rows);
    var latest := Latest(rows);
    if latest.None? {
      RenderAllIds(rows, None, "", clip, ids);
    } else {
      var c := latest.value;
      var summary := Text.Strip(c.part.output);
      var kept := rows[KeptFrom(rows, c)..];
      RenderAllIds(kept, Some(rows[c.index].id), summary, clip, ids);
      var checkpoint := if summary != "" then [CheckpointMessage(summary)] else [];
      PromptIdsInMeans(checkpoint, ids);
      PromptIdsInConcat(checkpoint, RenderAll(kept, Some(rows[c.index].id), summary, clip), ids);
    }
  }

  // ---------------------------------------------------------------- nothing recent is dropped

  /** Every compaction of the row names an earlier prompt as the start of its tail, or none. */
  predicate RowRooted(row: Row, ids: set<string>) {
    PartsRooted(row.parts, ids)
  }

  predicate PartsRooted(parts: seq<StoredPart>, ids: set<string>) {
    forall p :: p in parts && p.kind.StoredCompaction? ==> PartRooted(p, ids)
  }

  predicate PartRooted(part: StoredPart, ids: set<string>) {
    part.tailStartId == "" || part.tailStartId in ids
  }

  /** So does every row, with respect to the rows before it; the ids are in their canonical form. */
  predicate Rooted(rows: seq<Row>) {
    rows == [] ||
    var init, last := rows[..|rows| - 1], rows[|rows| - 1];
    Rooted(init) && RowRooted(last, UserIds(init)) && last.id != "" && Text.Strip(last.id) == last.id
  }

  lemma {:induction false} RootedAt(rows: seq<Row>, i: nat)
    requires Rooted(rows) && i < |rows|
    ensures RowRooted(rows[i], UserIds(rows[..i])) && rows[i].id != "" && Text.Strip(rows[i].id) == rows[i].id
  {
    var init := rows[..|rows| - 1];
    if i < |init| {
      RootedAt(init, i);
      assert init[..i] == rows[..i];
    }
  }

  /** The kept suffix starts at an earlier prompt or at the compacting message: never after it. */
  lemma {:induction false} KeptBeforeCompaction(rows: seq<Row>, c: Compacting)
    requires Rooted(rows) && c.index < |rows| && c.part in rows[c.index].parts && IsCompaction(c.part)
    ensures KeptFrom(rows, c) <= c.index
    ensures c.part.tailStartId != "" ==>
              KeptFrom(rows, c) < c.index && rows[KeptFrom(rows, c)].id == c.part.tailStartId
    ensures c.part.tailStartId == "" ==> rows[KeptFrom(rows, c)].id == rows[c.index].id
  {
    hide Rooted, Text.Strip, IndexOf;
    RootedAt(rows, c.index);
    assert PartRooted(c.part, UserIds(rows[..c.index]));
    if c.part.tailStartId != "" {
      var row :| row in rows[..c.index] && row.role.UserRow? && row.id == c.part.tailStartId;
      var u :| 0 <= u < c.index && rows[u] == row;
      RootedAt(rows, u);
      assert IndexOf(rows, c.part.tailStartId) <= u;
    } else {
      Text.StripNothing();
    }
  }

  /**
   * The rebuilt history is the latest checkpoint, if there is one, followed by the rendering of a
   * suffix of the stored messages that reaches back at least to the latest compacting message.
   */
  lemma {:induction false} HistoryIsCheckpointAndSuffix(rows: seq<Row>, clip: string -> string)
    requires Rooted(rows)
    ensures Latest(rows).None? ==> History(rows, clip) == RenderAll(rows, None, "", clip)
    ensures Latest(rows).Some? ==>
              var c := Latest(rows).value;
              var summary := Text.Strip(c.part.output);
              var k := KeptFrom(rows, c);
              && k <= c.index
              && History(rows, clip) ==
                 (if summary == "" then [] else [CheckpointMessage(summary)])
                   + RenderAll(rows[k..], Some(rows[c.index].id), summary, clip)
    ensures Latest(rows).Some? ==>
              forall i, p :: Latest(rows).value.index < i < |rows| ==>
                rows[i].role.AssistantRow? && p in rows[i].parts ==> !IsCompaction(p)
  {
    if Latest(rows).Some? {
      LatestIsCompaction(rows);
      KeptBeforeCompaction(rows, Latest(rows).value);
      forall i, p | Latest(rows).value.index < i < |rows| && rows[i].role.AssistantRow? && p in rows[i].parts
        ensures !IsCompaction(p)
      {
        if IsCompaction(p) {
          LatestIsLast(rows, i, p);
        }
      }
    }
  }

  lemma {:induction false} RenderAllSnoc(
    rows: seq<Row>, row: Row, compactingId: Option<string>, summary: string, clip: string -> string)
    ensures RenderAll(rows + [row], compactingId, summary, clip) ==
            RenderAll(rows, compactingId, summary, clip) +
            Render(row, if compactingId == Some(row.id) then summary else "", clip)
  {
    assert (rows + [row])[..|rows|] == rows;
  }

  lemma {:induction false} Associate<T>(a: seq<T>, b: seq<T>, c: seq<T>)
    ensures a + b + c == a + (b + c)
  {
  }

  lemma {:induction false} RenderAllConcat(
    a: seq<Row>, b: seq<Row>, compactingId: Option<string>, summary: string, clip: string -> string)
    ensures RenderAll(a + b, compactingId, summary, clip) ==
            RenderAll(a, compactingId, summary, clip) + RenderAll(b, compactingId, summary, clip)
  {
    if b == [] {
      assert a + b == a;
      assert RenderAll(b, compactingId, summary, clip) == [];
    } else {
      var init, last := b[..|b| - 1], b[|b| - 1];
      Associate(a, init, [last]);
      assert init + [last] == b;
      RenderAllSnoc(a + init, last, compactingId, summary, clip);
      RenderAllSnoc(init, last, compactingId, summary, clip);
      RenderAllConcat(a, init, compactingId, summary, clip);
      Associate(RenderAll(a, compactingId, summary, clip), RenderAll(init, compactingId, summary, clip),
                Render(last, if compactingId == Some(last.id) then summary else "", clip));
    }
  }

  lemma {:induction false} RenderSplits(
    rows: seq<Row>, k: nat, i: nat, compactingId: Option<string>, summary: string, clip: string -> string)
    requires k <= i <= |rows|
    ensures RenderAll(rows[k..], compactingId, summary, clip) ==
            RenderAll(rows[k..i], compactingId, summary, clip) + RenderAll(rows[i..], compactingId, summary, clip)
  {
    assert rows[k..] == rows[k..i] + rows[i..];
    RenderAllConcat(rows[k..i], rows[i..], compactingId, summary, clip);
  }

  /** Everything stored from the latest compacting message on is rendered, in order, at the end of the history. */
  lemma {:induction false} NothingAfterCompactionDropped(rows: seq<Row>, clip: string -> string)
    returns (front: seq<Message>)
    requires Rooted(rows) && Latest(rows).Some?
    ensures var c := Latest(rows).value;
      History(rows, clip) == front + RenderAll(rows[c.index..], Some(rows[c.index].id), Text.Strip(c.part.output), clip)
  {
    hide RenderAll, Text.Strip, CheckpointMessage, KeptFrom, Latest, Rooted;
    var c := Latest(rows).value;
    var summary, id, k := Text.Strip(c.part.output), Some(rows[c.index].id), KeptFrom(rows, c);
    LatestIsCompaction(rows);
    KeptBeforeCompaction(rows, c);
    RenderSplits(rows, k, c.index, id, summary, clip);
    var checkpoint := if summary != "" then [CheckpointMessage(summary)] else [];
    var between := RenderAll(rows[k..c.index], id, summary, clip);
    front := checkpoint + between;
    Associate(checkpoint, between, RenderAll(rows[c.index..], id, summary, clip));
  }

  lemma {:induction false} LatestIsCompaction(rows: seq<Row>)
    requires Latest(rows).Some?
    ensures IsCompaction(Latest(rows).value.part)
  {
    var c := Latest(rows).value;
    var last := rows[|rows| - 1];
    LatestPartIn(last.parts);
    if !(last.role.AssistantRow? && LatestPart(last.parts).Some?) {
      LatestIsCompaction(rows[..|rows| - 1]);
    }
  }

  lemma {:induction false} RenderAllEndsWithPrompt(
    rows: seq<Row>, compactingId: Option<string>, summary: string, clip: string -> string)
    requires rows != [] && rows[|rows| - 1].role.UserRow?
    ensures var row, h := rows[|rows| - 1], RenderAll(rows, compactingId, summary, clip);
      h != [] && h[|h| - 1] == UserMessage(Plain(row.content), row.id)
  {
  }

  /** A stored prompt at the end of the table is the last message of the history. */
  lemma {:induction false} HistoryEndsWithPrompt(rows: seq<Row>, clip: string -> string)
    requires rows != [] && rows[|rows| - 1].role.UserRow?
    ensures var row, h := rows[|rows| - 1], History(rows, clip);
      h != [] && h[|h| - 1] == UserMessage(Plain(row.content), row.id)
  {
    hide RenderAll, Latest, KeptFrom, CheckpointMessage, Text.Strip;
    var latest := Latest(rows);
    if latest.Some? {
      var c := latest.value;
      var kept := rows[KeptFrom(rows, c)..];
      assert kept[|kept| - 1] == rows[|rows| - 1];
      RenderAllEndsWithPrompt(kept, Some(rows[c.index].id), Text.Strip(c.part.output), clip);
    } else {
      RenderAllEndsWithPrompt(rows, None, "", clip);
    }
  }
}
