/** What a compaction makes the next run forget: messages in neither its summary nor the rebuilt history. */
module ForgottenHistory {
  import opened Wrappers
  import opened Messages
  import opened Providers
  import opened Compaction
  import opened CompactionTheorems
  import opened SessionHistory
  import RunIds
  import Text

  // ---------------------------------------------------------------- where a stored message is rendered

  /** What a rebuilt history shows before its stored messages. */
  function Lead(rows: seq<Row>): seq<Message> {
    if Latest(rows).None? then []
    else
      var summary := Text.Strip(Latest(rows).value.part.output);
      if summary != "" then [CheckpointMessage(summary)] else []
  }

  /** The first stored message a rebuilt history shows. */
  function ShownFrom(rows: seq<Row>): (k: nat)
    ensures k <= |rows| && (rows != [] ==> k < |rows|)
  {
    if Latest(rows).None? then 0 else KeptFrom(rows, Latest(rows).value)
  }

  /** What some of its stored messages look like in the history of all of them. */
  function ShownAs(rows: seq<Row>, some: seq<Row>, clip: string -> string): seq<Message> {
    var latest := Latest(rows);
    if latest.None? then RenderAll(some, None, "", clip)
    else RenderAll(some, Some(rows[latest.value.index].id), Text.Strip(latest.value.part.output), clip)
  }

  lemma {:induction false} HistoryInParts(rows: seq<Row>, clip: string -> string)
    ensures History(rows, clip) == Lead(rows) + ShownAs(rows, rows[ShownFrom(rows)..], clip)
    ensures NoPrompt(Lead(rows)) && forall m :: m in Lead(rows) ==> m.messageId == ""
  {
    hide RenderAll, KeptFrom, Latest, Text.Strip;
    assert rows[0..] == rows;
    if Latest(rows).Some? {
      CheckpointText(Text.Strip(Latest(rows).value.part.output));
    }
  }

  /** How many messages of the history come before a stored message. */
  function Before(rows: seq<Row>, n: nat, clip: string -> string): nat
    requires ShownFrom(rows) <= n <= |rows|
  {
    |Lead(rows)| + |ShownAs(rows, rows[ShownFrom(rows)..n], clip)|
  }

  // ---------------------------------------------------------------- which row a message renders

  lemma {:induction false} PrefixShown(
    rows: seq<Row>, u: nat, id: Option<string>, summary: string, clip: string -> string)
    requires u < |rows|
    ensures var before, upTo, all := RenderAll(rows[..u], id, summary, clip),
                                     RenderAll(rows[..u + 1], id, summary, clip), RenderAll(rows, id, summary, clip);
      && upTo == before + Render(rows[u], if id == Some(rows[u].id) then summary else "", clip)
      && |upTo| <= |all| && upTo == all[..|upTo|]
  {
    hide RenderAll;
    assert rows[..u] + [rows[u]] == rows[..u + 1] && rows[..u + 1] + rows[u + 1..] == rows;
    RenderAllSnoc(rows[..u], rows[u], id, summary, clip);
    RenderAllConcat(rows[..u + 1], rows[u + 1..], id, summary, clip);
  }

  /** The stored message that the `p`-th message renders. */
  lemma {:induction false} RowOf(
    rows: seq<Row>, id: Option<string>, summary: string, clip: string -> string, p: nat) returns (u: nat)
    requires p < |RenderAll(rows, id, summary, clip)|
    ensures u < |rows|
    ensures |RenderAll(rows[..u], id, summary, clip)| <= p < |RenderAll(rows[..u + 1], id, summary, clip)|
    ensures var m := RenderAll(rows, id, summary, clip)[p];
      && m.messageId in {"", rows[u].id} && (IsRealUser(m) ==> rows[u].role.UserRow?)
  {
    hide RenderAll, Render;
    SomethingShown(rows, id, summary, clip);
    var n := |rows| - 1;
    var init := rows[..n];
    PrefixShown(rows, n, id, summary, clip);
    assert rows[..n + 1] == rows;
    if p < |RenderAll(init, id, summary, clip)| {
      u := RowOf(init, id, summary, clip, p);
      assert init[..u] == rows[..u] && init[..u + 1] == rows[..u + 1];
    } else {
      u := n;
      MessagesOfRow(rows[n], if id == Some(rows[n].id) then summary else "", clip,
                    p - |RenderAll(init, id, summary, clip)|);
    }
  }

  lemma {:induction false} MessagesOfRow(row: Row, summary: string, clip: string -> string, i: nat)
    requires i < |Render(row, summary, clip)|
    ensures var m := Render(row, summary, clip)[i];
      m.messageId in {"", row.id} && (IsRealUser(m) ==> row.role.UserRow?)
  {
    hide AnsweredParts, TextOutput, Text.Strip, IsCheckpoint, CallsOf, ResultsFor, AssistantContent;
    var parts := AnsweredParts(row.parts);
    if i > 0 {
      assert Render(row, summary, clip)[i] == ResultsOf(parts, clip)[i - 1] ==
             ToolResult(parts[i - 1].callId, clip(parts[i - 1].output));
    }
  }

  lemma {:induction false} SomethingShown(rows: seq<Row>, id: Option<string>, summary: string, clip: string -> string)
    ensures RenderAll(rows, id, summary, clip) != [] ==> rows != []
  {
  }

  /** A stored prompt is one message, with its words and its id. */
  lemma {:induction false} PromptIsOne(
      rows: seq<Row>, id: Option<string>, summary: string, clip: string -> string, u: nat)
    requires u < |rows| && rows[u].role.UserRow?
    ensures var p, all := |RenderAll(rows[..u], id, summary, clip)|, RenderAll(rows, id, summary, clip);
      && p + 1 == |RenderAll(rows[..u + 1], id, summary, clip)| <= |all|
      && all[p] == Message(User, Plain(rows[u].content), [], "", rows[u].id)
  {
    hide RenderAll;
    PrefixShown(rows, u, id, summary, clip);
  }

  // ---------------------------------------------------------------- the first prompt of a tail

  function FirstPrompt(ms: seq<Message>): (q: nat)
    ensures q <= |ms|
    ensures q < |ms| ==> IsRealUser(ms[q])
    ensures forall i :: 0 <= i < q ==> !IsRealUser(ms[i])
    ensures TailStartId(ms) == if q < |ms| then ms[q].messageId else ""
  {
    if ms == [] || IsRealUser(ms[0]) then 0 else 1 + FirstPrompt(ms[1..])
  }

  /** The tail begins with the stored message it is recorded to start at. */
  predicate OpensWithItsStart(tail: seq<Message>) {
    tail != [] && tail[0].messageId == TailStartId(tail) != ""
  }

  lemma {:induction false} PromptIsBehind(a: seq<Message>, b: seq<Message>, p: nat)
    requires NoPrompt(a) && p < |a + b| && IsRealUser((a + b)[p])
    ensures p >= |a|
  {
    forall i | 0 <= i < |a|
      ensures !IsRealUser((a + b)[i])
    {
      assert a[i] in a;
    }
  }

  lemma {:induction false} PromptIsBefore(a: seq<Message>, b: seq<Message>, p: nat)
    requires NoPrompt(b) && p < |a + b| && IsRealUser((a + b)[p])
    ensures p < |a|
  {
    forall i | |a| <= i < |a + b|
      ensures !IsRealUser((a + b)[i])
    {
      assert b[i - |a|] in b;
    }
  }

  // ---------------------------------------------------------------- what is forgotten

  predicate DistinctIds(rows: seq<Row>) {
    forall i, j :: 0 <= i < j < |rows| ==> rows[i].id != rows[j].id
  }

  /** The stored message at `n` is found by its id. */
  lemma {:induction false} FoundById(rows: seq<Row>, n: nat)
    requires DistinctIds(rows) && n < |rows|
    ensures IndexOf(rows, rows[n].id) == n
  {
    IndexOfIs(rows, rows[n].id, n);
  }

  /**
   * How many messages of a list that was begun with this history come before the stored message at `n`,
   * or before the run's own messages.
   */
  function Reaches(rows: seq<Row>, n: nat, clip: string -> string): nat
    requires ShownFrom(rows) <= n
  {
    if n < |rows| then Before(rows, n, clip) else |History(rows, clip)| + 1
  }

  /** A message before a stored prompt does not carry its id. */
  lemma {:induction false} OtherIdBefore(rows: seq<Row>, clip: string -> string, u: nat, h: nat)
    requires DistinctIds(rows) && ShownFrom(rows) <= u < |rows| && rows[u].role.UserRow? && rows[u].id != ""
    requires h < Before(rows, u, clip)
    ensures h < |History(rows, clip)| && History(rows, clip)[h].messageId != rows[u].id
  {
    hide RenderAll, KeptFrom, Latest, Text.Strip, History;
    HistoryInParts(rows, clip);
    var k, lead := ShownFrom(rows), Lead(rows);
    var sub := rows[k..];
    var id, summary := CompactingId(rows), SummaryOf(rows);
    ShownIs(rows, rows[k..u], clip);
    ShownIs(rows, sub, clip);
    assert sub[..u - k] == rows[k..u];
    PromptIsOne(sub, id, summary, clip, u - k);
    if h >= |lead| {
      var v := RowOf(sub, id, summary, clip, h - |lead|);
      if v == u - k {
        assert false;
      }
    } else {
      assert lead[h] in lead;
    }
  }

  function CompactingId(rows: seq<Row>): Option<string> {
    if Latest(rows).None? then None else Some(rows[Latest(rows).value.index].id)
  }

  function SummaryOf(rows: seq<Row>): string {
    if Latest(rows).None? then "" else Text.Strip(Latest(rows).value.part.output)
  }

  lemma {:induction false} ShownIs(rows: seq<Row>, some: seq<Row>, clip: string -> string)
    ensures ShownAs(rows, some, clip) == RenderAll(some, CompactingId(rows), SummaryOf(rows), clip)
  {
    hide RenderAll;
  }

  /** Where a stored prompt of the kept suffix stands in the history, in its own words. */
  lemma {:induction false} PromptStands(rows: seq<Row>, clip: string -> string, u: nat)
    requires ShownFrom(rows) <= u < |rows| && rows[u].role.UserRow?
    ensures Before(rows, u, clip) < |History(rows, clip)|
    ensures History(rows, clip)[Before(rows, u, clip)] == Message(User, Plain(rows[u].content), [], "", rows[u].id)
    ensures u == |rows| - 1 ==> Before(rows, u, clip) == |History(rows, clip)| - 1
  {
    hide RenderAll, KeptFrom, Latest, Text.Strip, History;
    HistoryInParts(rows, clip);
    var k := ShownFrom(rows);
    var sub := rows[k..];
    ShownIs(rows, rows[k..u], clip);
    ShownIs(rows, sub, clip);
    assert sub[..u - k] == rows[k..u];
    PromptIsOne(sub, CompactingId(rows), SummaryOf(rows), clip, u - k);
    assert u == |rows| - 1 ==> sub[..u - k + 1] == sub;
  }

  /** The stored prompt that a real prompt of the history renders. */
  lemma {:induction false} PromptOfHistory(rows: seq<Row>, clip: string -> string, p: nat) returns (u: nat)
    requires p < |History(rows, clip)| && IsRealUser(History(rows, clip)[p])
    ensures ShownFrom(rows) <= u < |rows| && rows[u].role.UserRow?
    ensures Before(rows, u, clip) == p && History(rows, clip)[p].messageId == rows[u].id
  {
    hide RenderAll, KeptFrom, Latest, Text.Strip, History;
    HistoryInParts(rows, clip);
    var k, lead := ShownFrom(rows), Lead(rows);
    var sub := rows[k..];
    ShownIs(rows, sub, clip);
    PromptIsBehind(lead, ShownAs(rows, sub, clip), p);
    var v := RowOf(sub, CompactingId(rows), SummaryOf(rows), clip, p - |lead|);
    u := k + v;
    ShownIs(rows, rows[k..u], clip);
    assert sub[..v] == rows[k..u];
    PromptIsOne(sub, CompactingId(rows), SummaryOf(rows), clip, v);
  }

  /** Where the next history starts when the tail names a stored message, or none. */
  lemma {:induction false} NextStart(rows: seq<Row>, next: seq<Row>, c: Compacting, u: nat)
    requires Rooted(rows) && rows < next && DistinctIds(next) && c.index == |rows| && u <= |rows|
    requires c.part.tailStartId == if u < |rows| then rows[u].id else ""
    ensures KeptFrom(next, c) == u
  {
    if u < |rows| {
      RootedAt(rows, u);
    } else {
      Text.StripNothing();
    }
    assert u < |rows| ==> next[u] == rows[u];
    FoundById(next, u);
  }

  /**
   * A run begins with a rebuilt history and its prompt, and compacts its list before it has compacted
   * it. Everything before the start of the next rebuilt history has then been summarised if and only if
   * the kept tail is empty, or lies within what the run has added itself, or begins with the very prompt
   * it is recorded to start at. Otherwise the messages from the tail's first one up to that prompt are in
   * neither the summary nor the history.
   */
  lemma {:induction false} ForgetsNothingIff(
    rows: seq<Row>, clip: string -> string, messages: seq<Message>, limits: ModelLimits, prompt: Message,
    own: seq<Message>, next: seq<Row>, c: Compacting)
    requires rows != [] && rows[|rows| - 1].role.UserRow? && prompt.messageId == rows[|rows| - 1].id
    requires Conversation(messages) == History(rows, clip) + [prompt] + own && NoPrompt(own)
    requires Rooted(rows) && rows < next && DistinctIds(next)
    requires c.index == |rows| && c.part.tailStartId == SelectSpec(messages, limits).tailStartId
    ensures ShownFrom(rows) <= KeptFrom(next, c)
    ensures var s := SelectSpec(messages, limits);
      Reaches(rows, KeptFrom(next, c), clip) <= |s.head| <==>
      |s.tail| <= |own| || OpensWithItsStart(s.tail)
  {
    hide History, Rooted, KeptFrom, Tokens, Latest, ShownFrom, Before, Eligible, KeepStart;
    var s := SelectSpec(messages, limits);
    SelectPartitions(messages, limits);
    SelectNames(messages, limits);
    ForgetsAtSplit(rows, clip, prompt, own, next, c, s.head, s.tail);
  }

  lemma {:induction false} SelectNames(messages: seq<Message>, limits: ModelLimits)
    ensures SelectSpec(messages, limits).tailStartId == TailStartId(SelectSpec(messages, limits).tail)
  {
  }

  lemma {:induction false} ForgetsAtSplit(
    rows: seq<Row>, clip: string -> string, prompt: Message, own: seq<Message>, next: seq<Row>, c: Compacting,
    head: seq<Message>, tail: seq<Message>)
    requires rows != [] && rows[|rows| - 1].role.UserRow? && prompt.messageId == rows[|rows| - 1].id
    requires head + tail == History(rows, clip) + [prompt] + own && NoPrompt(own)
    requires Rooted(rows) && rows < next && DistinctIds(next)
    requires c.index == |rows| && c.part.tailStartId == TailStartId(tail)
    ensures ShownFrom(rows) <= KeptFrom(next, c)
    ensures Reaches(rows, KeptFrom(next, c), clip) <= |head| <==> |tail| <= |own| || OpensWithItsStart(tail)
  {
    hide History, Rooted, KeptFrom, Latest, ShownFrom, Before, TailStartId, IsRealUser;
    var history := History(rows, clip);
    var q, conv := FirstPrompt(tail), head + tail;
    var p := |head| + q;
    if q == |tail| {
      NextStart(rows, next, c, |rows|);
    } else {
      assert conv[p] == tail[q];
      PromptIsBefore(history + [prompt], own, p);
      var u := |rows| - 1;
      if p < |history| {
        assert conv[p] == history[p];
        u := PromptOfHistory(rows, clip, p);
      }
      PromptStands(rows, clip, u);
      RootedAt(rows, u);
      NextStart(rows, next, c, u);
      OpensIff(rows, clip, prompt, own, head, tail, u, q);
    }
  }

  lemma {:induction false} OpensIff(
    rows: seq<Row>, clip: string -> string, prompt: Message, own: seq<Message>, head: seq<Message>, tail: seq<Message>,
    u: nat, q: nat)
    requires DistinctIds(rows) && ShownFrom(rows) <= u < |rows| && rows[u].role.UserRow? && rows[u].id != ""
    requires prompt.messageId == rows[|rows| - 1].id && head + tail == History(rows, clip) + [prompt] + own
    requires q < |tail| && TailStartId(tail) == rows[u].id
    requires Before(rows, u, clip) < |History(rows, clip)|
    requires History(rows, clip)[Before(rows, u, clip)].messageId == rows[u].id
    requires |head| + q == Before(rows, u, clip) ||
             (u == |rows| - 1 && |head| + q == |History(rows, clip)| == Before(rows, u, clip) + 1)
    ensures Before(rows, u, clip) <= |head| <==> |tail| <= |own| || OpensWithItsStart(tail)
  {
    hide History, Latest, ShownFrom, Before, TailStartId;
    var history, conv := History(rows, clip), head + tail;
    assert conv[|head|] == tail[0];
    if |head| < Before(rows, u, clip) {
      OtherIdBefore(rows, clip, u, |head|);
      assert tail[0] == history[|head|];
    } else if |head| < |history| {
      assert tail[0] == history[|head|];
    } else {
      assert tail[0] == prompt;
    }
  }

  // ---------------------------------------------------------------- an answer that is forgotten

  function Said(id: string, role: RowRole, text: string): Row {
    Row(id, role, text, [], NO_USAGE, Unfinished)
  }

  /** A long prompt, its answer, and the next prompt. */
  function ShortTalk(text: string): seq<Row> {
    [Said("u1", UserRow, text), Said("a1", AssistantRow, "answer"), Said("u2", UserRow, "next")]
  }

  /** The messages the run on the last prompt starts from. */
  function TalkMessages(text: string, system: Message, clip: string -> string): seq<Message> {
    [system] + History(ShortTalk(text), clip) + [UserMessage(Plain("next"), "u2")]
  }

  lemma {:induction false} TalkIs(text: string, clip: string -> string)
    ensures History(ShortTalk(text), clip) ==
            [UserMessage(Plain(text), "u1"), Message(Assistant, Plain("answer"), [], "", "a1"),
             UserMessage(Plain("next"), "u2")]
  {
    hide RenderAll, Latest, Render, Text.Strip;
    var rows := ShortTalk(text);
    NothingCompacted(rows);
    var one, two := [rows[0]], [rows[0], rows[1]];
    assert [] + [rows[0]] == one && one + [rows[1]] == two && two + [rows[2]] == rows;
    ShownOne([], rows[0], clip);
    ShownOne(one, rows[1], clip);
    ShownOne(two, rows[2], clip);
    NothingShown(clip);
    AnswerShown(clip);
    PromptShown("u1", text, clip);
    PromptShown("u2", "next", clip);
  }

  lemma {:induction false} PromptShown(id: string, text: string, clip: string -> string)
    ensures Render(Said(id, UserRow, text), "", clip) == [UserMessage(Plain(text), id)]
  {
  }

  lemma {:induction false} NothingShown(clip: string -> string)
    ensures RenderAll([], None, "", clip) == []
  {
  }

  lemma {:induction false} AnswerShown(clip: string -> string)
    ensures Render(Said("a1", AssistantRow, "answer"), "", clip) ==
            [Message(Assistant, Plain("answer"), [], "", "a1")]
  {
    hide Text.Strip;
    RunIds.StripSolid("answer");
    assert AnsweredParts([]) == [] && TextOutput([]) == "";
    assert CallsOf([]) == [] && ResultsOf([], clip) == [];
  }

  lemma {:induction false} ConversationOf(system: Message, rest: seq<Message>)
    requires system.role.System? && forall m :: m in rest ==> !m.role.System?
    ensures Conversation([system] + rest) == rest
  {
    var p := (m: Message) => !m.role.System?;
    FilterConcat(p, [system], rest);
    FilterNone(p, [system]);
    FilterAll(p, rest);
  }

  lemma {:induction false} NothingCompacted(rows: seq<Row>)
    requires forall row :: row in rows ==> row.parts == []
    ensures Latest(rows).None?
  {
    if rows != [] {
      NothingCompacted(rows[..|rows| - 1]);
    }
  }

  lemma {:induction false} ShownOne(rows: seq<Row>, row: Row, clip: string -> string)
    ensures RenderAll(rows + [row], None, "", clip) == RenderAll(rows, None, "", clip) + Render(row, "", clip)
  {
    RenderAllSnoc(rows, row, None, "", clip);
  }

  lemma {:induction false} TalkAnswer(text: string, clip: string -> string)
    ensures Render(ShortTalk(text)[1], "", clip) == [Message(Assistant, Plain("answer"), [], "", "a1")]
  {
    hide Render;
    AnswerShown(clip);
  }

  lemma {:induction false} TalkReaches(text: string, clip: string -> string)
    ensures ShownFrom(ShortTalk(text)) == 0 && Reaches(ShortTalk(text), 2, clip) == 2
  {
    hide History, Before, Latest;
    TalkIs(text, clip);
    NothingCompacted(ShortTalk(text));
    PromptStands(ShortTalk(text), clip, 2);
  }

  lemma {:induction false} NextTalkStarts(text: string, a: Row, c: Compacting)
    requires a.id !in {"u1", "a1", "u2"} && c.index == 3 && c.part.tailStartId == "u2"
    ensures KeptFrom(ShortTalk(text) + [a], c) == 2
  {
    hide Text.Strip, IndexOf;
    RunIds.StripSolid("u2");
    FoundById(ShortTalk(text) + [a], 2);
  }

  lemma {:induction false} TalkIsSplit(conv: seq<Message>, text: string)
    requires |text| > 8003 && !(CHECKPOINT_PREFIX <= text)
    requires conv ==
             [UserMessage(Plain(text), "u1"), Message(Assistant, Plain("answer"), [], "", "a1"),
              UserMessage(Plain("next"), "u2"), UserMessage(Plain("next"), "u2")]
    ensures KeepStart(conv, 2000, 0) == Some(1) && TailStartId(conv[1..]) == "u2"
  {
    assert Tokens(conv[4..]) == 0;
    assert conv[3..][1..] == conv[4..] && Tokens(conv[3..]) == 1;
    assert conv[2..][1..] == conv[3..] && Tokens(conv[2..]) == 2;
    assert conv[1..][1..] == conv[2..] && Tokens(conv[1..]) == 3;
    assert conv[0..] == conv && Tokens(conv) == |text| / 4 + 3;
    assert IsRealUser(conv[0]) && IsRealUser(conv[2]) && !IsRealUser(conv[1]);
    assert NextTurn(conv, 1) == 2;
    assert Eligible(conv, 2000, 1) && !Eligible(conv, 2000, 0);
  }

  lemma {:induction false} OnlyThePromptIsSummarised(text: string, system: Message, clip: string -> string)
    requires |text| > 8003 && !(CHECKPOINT_PREFIX <= text) && system.role.System?
    ensures var s := SelectSpec(TalkMessages(text, system, clip), ModelLimits(0, 0));
      s.head == [UserMessage(Plain(text), "u1")] && s.tailStartId == "u2"
  {
    hide History, KeepStart, TailStartId, Conversation;
    var rest := History(ShortTalk(text), clip) + [UserMessage(Plain("next"), "u2")];
    TalkIs(text, clip);
    ConversationOf(system, rest);
    assert TalkMessages(text, system, clip) == [system] + rest;
    TalkIsSplit(rest, text);
  }

  /**
   * A prompt too long for the tail, with an answer that fits: the answer is kept for this run, and in
   * neither the summary nor the history of the next one, before whose start two messages lie, one of
   * them summarised.
   */
  lemma {:induction false} AnswerIsForgotten(
      text: string, system: Message, clip: string -> string, a: Row, c: Compacting)
    requires |text| > 8003 && !(CHECKPOINT_PREFIX <= text) && system.role.System?
    requires a.id !in {"u1", "a1", "u2"} && c.index == 3
    requires c.part.tailStartId == SelectSpec(TalkMessages(text, system, clip), ModelLimits(0, 0)).tailStartId
    ensures var answer := Message(Assistant, Plain("answer"), [], "", "a1");
      && SelectSpec(TalkMessages(text, system, clip), ModelLimits(0, 0)).head == [UserMessage(Plain(text), "u1")]
      && KeptFrom(ShortTalk(text) + [a], c) == 2
      && ShownFrom(ShortTalk(text)) == 0 && Reaches(ShortTalk(text), 2, clip) == 2
      && Render(ShortTalk(text)[1], "", clip) == [answer]
  {
    hide SelectSpec, KeptFrom, ShortTalk, TalkMessages, Render, ShownFrom, Reaches;
    OnlyThePromptIsSummarised(text, system, clip);
    NextTalkStarts(text, a, c);
    TalkReaches(text, clip);
    TalkAnswer(text, clip);
  }
}
