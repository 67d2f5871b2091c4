/** Chat messages exchanged with a provider, and the call/result pairing discipline. */
module Messages {
  datatype Role = System | User | Assistant | Tool

  datatype Part = TextPart(text: string) | ImagePart(url: string) | OtherPart(kind: string)

  datatype Content = NoContent | Plain(text: string) | Parts(parts: seq<Part>)

  datatype ToolCall = ToolCall(id: string, name: string, arguments: string)

  /** `callId` and `messageId` are the empty string where the source leaves them unset. */
  datatype Message = Message(role: Role, content: Content, calls: seq<ToolCall>, callId: string, messageId: string)

  const CHECKPOINT_PREFIX := "[opencuria-compaction-checkpoint]"
  const IMAGE_TOKEN_ESTIMATE := 1000

  function SystemMessage(text: string): Message { Message(System, Plain(text), [], "", "") }
  function UserMessage(content: Content, id: string): Message { Message(User, content, [], "", id) }
  function AssistantText(text: string): Message { Message(Assistant, Plain(text), [], "", "") }
  function ToolResult(callId: string, output: string): Message { Message(Tool, Plain(output), [], callId, "") }

  /** An in-memory compaction checkpoint. */
  predicate IsCheckpoint(m: Message) {
    m.role.User? && m.content.Plain? && CHECKPOINT_PREFIX <= m.content.text
  }

  /** A prompt typed by the user, as opposed to a checkpoint. */
  predicate IsRealUser(m: Message) {
    m.role.User? && !IsCheckpoint(m)
  }

  // ---------------------------------------------------------------- filters

  function Filter(p: Message -> bool, ms: seq<Message>): seq<Message> {
    if ms == [] then []
    else if p(ms[0]) then [ms[0]] + Filter(p, ms[1..])
    else Filter(p, ms[1..])
  }

  lemma {:induction false} FilterMembers(p: Message -> bool, ms: seq<Message>)
    ensures forall m :: m in Filter(p, ms) <==> m in ms && p(m)
  {
    if ms != [] {
      FilterMembers(p, ms[1..]);
      assert ms == [ms[0]] + ms[1..];
    }
  }

  lemma {:induction false} FilterConcat(p: Message -> bool, a: seq<Message>, b: seq<Message>)
    ensures Filter(p, a + b) == Filter(p, a) + Filter(p, b)
  {
    if a == [] {
      assert a + b == b;
    } else {
      assert (a + b)[1..] == a[1..] + b;
      FilterConcat(p, a[1..], b);
    }
  }

  lemma {:induction false} FilterAll(p: Message -> bool, ms: seq<Message>)
    requires forall m :: m in ms ==> p(m)
    ensures Filter(p, ms) == ms
  {
    if ms != [] {
      assert ms[0] in ms;
      FilterAll(p, ms[1..]);
    }
  }

  lemma {:induction false} FilterNone(p: Message -> bool, ms: seq<Message>)
    requires forall m :: m in ms ==> !p(m)
    ensures Filter(p, ms) == []
  {
    if ms != [] {
      assert ms[0] in ms;
      FilterNone(p, ms[1..]);
    }
  }

  function Systems(ms: seq<Message>): seq<Message> { Filter((m: Message) => m.role.System?, ms) }
  function Conversation(ms: seq<Message>): seq<Message> { Filter((m: Message) => !m.role.System?, ms) }
  function Checkpoints(ms: seq<Message>): seq<Message> { Filter((m: Message) => IsCheckpoint(m), ms) }
  function WithoutCheckpoints(ms: seq<Message>): seq<Message> { Filter((m: Message) => !IsCheckpoint(m), ms) }

  /** What becomes of any one message of a list: it stays where it is, or goes. */
  lemma {:induction false} FiltersKeepPlaces(a: seq<Message>, m: Message, b: seq<Message>)
    ensures Systems(a + [m] + b) == Systems(a) + (if m.role.System? then [m] else []) + Systems(b)
    ensures Conversation(a + [m] + b) == Conversation(a) + (if m.role.System? then [] else [m]) + Conversation(b)
    ensures Checkpoints(a + [m] + b) == Checkpoints(a) + (if IsCheckpoint(m) then [m] else []) + Checkpoints(b)
    ensures WithoutCheckpoints(a + [m] + b) ==
            WithoutCheckpoints(a) + (if IsCheckpoint(m) then [] else [m]) + WithoutCheckpoints(b)
  {
    hide IsCheckpoint;
    KeepsPlace((x: Message) => x.role.System?, a, m, b);
    KeepsPlace((x: Message) => !x.role.System?, a, m, b);
    KeepsPlace((x: Message) => IsCheckpoint(x), a, m, b);
    KeepsPlace((x: Message) => !IsCheckpoint(x), a, m, b);
  }

  lemma {:induction false} KeepsPlace(p: Message -> bool, a: seq<Message>, m: Message, b: seq<Message>)
    ensures Filter(p, a + [m] + b) == Filter(p, a) + (if p(m) then [m] else []) + Filter(p, b)
  {
    FilterConcat(p, a + [m], b);
    FilterConcat(p, a, [m]);
    assert [m][1..] == [];
  }

  // ---------------------------------------------------------------- call/result pairing

  predicate NoCalls(ms: seq<Message>) {
    forall m :: m in ms ==> m.calls == []
  }

  /** `ms` begins with one result per call of `calls`, in the order of the calls. */
  predicate ResultsFor(calls: seq<ToolCall>, ms: seq<Message>) {
    && |calls| <= |ms|
    && forall j :: 0 <= j < |calls| ==> ms[j].role.Tool? && ms[j].calls == [] && ms[j].callId == calls[j].id
  }

  /** Every assistant call is followed at once by its results and no result stands anywhere else. */
  predicate Paired(ms: seq<Message>)
    decreases |ms|
  {
    || ms == []
    || (if ms[0].calls == [] then !ms[0].role.Tool? && Paired(ms[1..])
        else
          && ms[0].role.Assistant?
          && ResultsFor(ms[0].calls, ms[1..])
          && Paired(ms[1 + |ms[0].calls|..]))
  }

  /** Some messages without calls, possibly orphaned results, followed by a paired list. */
  predicate Answered(ms: seq<Message>) {
    Paired(ms) || (ms != [] && ms[0].calls == [] && Answered(ms[1..]))
  }

  /** The same discipline stated by position: what a provider sees of a request. */
  ghost predicate AnsweredByPosition(ms: seq<Message>) {
    CallsAnswered(ms) && OrphansFirst(ms)
  }

  /** Each call is answered at once, one result per call, in the order of the calls. */
  ghost predicate CallsAnswered(ms: seq<Message>) {
    forall i :: 0 <= i < |ms| && ms[i].calls != [] ==> AnsweredAt(ms, i)
  }

  ghost predicate AnsweredAt(ms: seq<Message>, i: int)
    requires 0 <= i < |ms|
  {
    ms[i].role.Assistant? && ResultsFor(ms[i].calls, ms[i + 1..])
  }

  /** Results that answer no call in the list stand before the first call. */
  ghost predicate OrphansFirst(ms: seq<Message>) {
    forall i, t :: 0 <= i < t < |ms| && ms[i].calls != [] && ms[t].role.Tool? ==> InBlock(ms, t)
  }

  /** The message at `t` is one of the results right behind an assistant call. */
  ghost predicate InBlock(ms: seq<Message>, t: int)
    requires 0 <= t < |ms|
  {
    exists i :: 0 <= i < t && t <= i + |ms[i].calls|
  }

  lemma {:induction false} PairedByPosition(ms: seq<Message>)
    requires Paired(ms)
    ensures CallsAnswered(ms)
    ensures forall t :: 0 <= t < |ms| && ms[t].role.Tool? ==> InBlock(ms, t)
    decreases |ms|
  {
    if ms != [] {
      var k := 1 + |ms[0].calls|;
      var rest := ms[k..];
      PairedByPosition(rest);
      assert forall j :: 1 <= j < k ==> ms[j] == ms[1..][j - 1];
      forall i | 0 <= i < |ms| && ms[i].calls != []
        ensures AnsweredAt(ms, i)
      {
        if i >= k {
          assert AnsweredAt(rest, i - k);
          assert rest[i - k + 1..] == ms[i + 1..];
        }
      }
      forall t | 0 <= t < |ms| && ms[t].role.Tool?
        ensures InBlock(ms, t)
      {
        if t >= k {
          assert InBlock(rest, t - k);
          var i :| 0 <= i < t - k && t - k <= i + |rest[i].calls|;
          assert rest[i] == ms[i + k];
        } else {
          assert 0 <= 0 < t && t <= 0 + |ms[0].calls|;
        }
      }
    }
  }

  /** The recursive form used by the proofs is exactly the positional form. */
  lemma {:induction false} AnsweredIffByPosition(ms: seq<Message>)
    ensures Answered(ms) <==> AnsweredByPosition(ms)
    decreases |ms|
  {
    if Paired(ms) {
      PairedByPosition(ms);
    } else if ms[0].calls == [] {
      AnsweredIffByPosition(ms[1..]);
      if AnsweredByPosition(ms) {
        PositionTail(ms);
      }
      if AnsweredByPosition(ms[1..]) {
        PositionCons(ms);
      }
    } else if AnsweredByPosition(ms) {
      PositionWithoutOrphans(ms);
      PositionPaired(ms);
    }
  }

  lemma {:induction false} PositionWithoutOrphans(ms: seq<Message>)
    requires AnsweredByPosition(ms) && ms != [] && ms[0].calls != []
    ensures NoOrphans(ms)
  {
    assert AnsweredAt(ms, 0);
  }

  lemma {:induction false} PositionTail(ms: seq<Message>)
    requires ms != [] && ms[0].calls == []
    requires AnsweredByPosition(ms)
    ensures AnsweredByPosition(ms[1..])
  {
    var rest := ms[1..];
    forall i | 0 <= i < |rest| && rest[i].calls != []
      ensures AnsweredAt(rest, i)
    {
      assert AnsweredAt(ms, i + 1);
      assert rest[i + 1..] == ms[i + 2..];
    }
    forall i, t | 0 <= i < t < |rest| && rest[i].calls != [] && rest[t].role.Tool?
      ensures InBlock(rest, t)
    {
      assert ms[i + 1] == rest[i] && ms[t + 1] == rest[t];
      assert InBlock(ms, t + 1);
      var j :| 0 <= j < t + 1 && t + 1 <= j + |ms[j].calls|;
      assert rest[j - 1] == ms[j];
    }
  }

  lemma {:induction false} PositionCons(ms: seq<Message>)
    requires ms != [] && ms[0].calls == []
    requires AnsweredByPosition(ms[1..])
    ensures AnsweredByPosition(ms)
  {
    var rest := ms[1..];
    forall i | 0 <= i < |ms| && ms[i].calls != []
      ensures AnsweredAt(ms, i)
    {
      assert AnsweredAt(rest, i - 1);
      assert rest[i..] == ms[i + 1..];
    }
    forall i, t | 0 <= i < t < |ms| && ms[i].calls != [] && ms[t].role.Tool?
      ensures InBlock(ms, t)
    {
      assert rest[i - 1] == ms[i] && rest[t - 1] == ms[t];
      assert InBlock(rest, t - 1);
      var j :| 0 <= j < t - 1 && t - 1 <= j + |rest[j].calls|;
      assert ms[j + 1] == rest[j];
    }
  }

  ghost predicate NoOrphans(ms: seq<Message>) {
    forall t :: 0 <= t < |ms| && ms[t].role.Tool? ==> InBlock(ms, t)
  }

  lemma {:induction false} RestAnswered(ms: seq<Message>, k: nat)
    requires CallsAnswered(ms) && k <= |ms|
    ensures CallsAnswered(ms[k..])
  {
    var rest := ms[k..];
    forall i | 0 <= i < |rest| && rest[i].calls != []
      ensures AnsweredAt(rest, i)
    {
      assert AnsweredAt(ms, i + k);
      assert rest[i + 1..] == ms[i + k + 1..];
    }
  }

  /** Behind the first block no result belongs to a call of that block. */
  lemma {:induction false} RestWithoutOrphans(ms: seq<Message>, k: nat)
    requires NoOrphans(ms) && k <= |ms|
    requires forall i :: 0 <= i < k ==> i + |ms[i].calls| < k
    ensures NoOrphans(ms[k..])
  {
    var rest := ms[k..];
    forall t | 0 <= t < |rest| && rest[t].role.Tool?
      ensures InBlock(rest, t)
    {
      assert InBlock(ms, t + k);
      var j :| 0 <= j < t + k && t + k <= j + |ms[j].calls|;
      assert rest[j - k] == ms[j];
    }
  }

  lemma {:induction false} PositionPaired(ms: seq<Message>)
    requires CallsAnswered(ms) && NoOrphans(ms)
    ensures Paired(ms)
    decreases |ms|
  {
    if ms != [] {
      hide NoOrphans, CallsAnswered;
      var k := 1 + |ms[0].calls|;
      FirstBlock(ms);
      RestAnswered(ms, k);
      RestWithoutOrphans(ms, k);
      PositionPaired(ms[k..]);
    }
  }

  lemma {:induction false} FirstBlock(ms: seq<Message>)
    requires CallsAnswered(ms) && NoOrphans(ms) && ms != []
    ensures var k := 1 + |ms[0].calls|;
      && k <= |ms|
      && (if ms[0].calls == [] then !ms[0].role.Tool? else ms[0].role.Assistant? && ResultsFor(ms[0].calls, ms[1..]))
      && forall i :: 0 <= i < k ==> i + |ms[i].calls| < k
  {
    if ms[0].calls != [] {
      assert AnsweredAt(ms, 0);
      assert forall j :: 1 <= j < 1 + |ms[0].calls| ==> ms[j] == ms[1..][j - 1];
    }
  }

  // ---------------------------------------------------------------- how the discipline is kept

  lemma {:induction false} PairedAppend(a: seq<Message>, b: seq<Message>)
    requires Paired(a) && Paired(b)
    ensures Paired(a + b)
    decreases |a|
  {
    if a == [] {
      assert a + b == b;
    } else {
      var k := 1 + |a[0].calls|;
      assert (a + b)[1..] == a[1..] + b;
      assert (a + b)[k..] == a[k..] + b;
      PairedAppend(a[k..], b);
    }
  }

  lemma {:induction false} AnsweredAppend(a: seq<Message>, b: seq<Message>)
    requires Answered(a) && Paired(b)
    ensures Answered(a + b)
  {
    if Paired(a) {
      PairedAppend(a, b);
    } else {
      assert (a + b)[1..] == a[1..] + b;
      AnsweredAppend(a[1..], b);
    }
  }

  /** A list without calls may stand in front of an answered one. */
  lemma {:induction false} AnsweredPrepend(a: seq<Message>, b: seq<Message>)
    requires NoCalls(a) && Answered(b)
    ensures Answered(a + b)
  {
    if a == [] {
      assert a + b == b;
    } else {
      assert a[0] in a;
      assert (a + b)[1..] == a[1..] + b;
      AnsweredPrepend(a[1..], b);
    }
  }

  /** Cutting a paired list anywhere leaves an answered one: a cut inside a block orphans its results. */
  lemma {:induction false} PairedSuffix(ms: seq<Message>, n: nat)
    requires Paired(ms) && n <= |ms|
    ensures Answered(ms[n..])
    decreases |ms|
  {
    if n > 0 {
      var k := 1 + |ms[0].calls|;
      if n >= k {
        assert ms[n..] == ms[k..][n - k..];
        PairedSuffix(ms[k..], n - k);
      } else {
        var orphans := ms[n..k];
        forall m | m in orphans
          ensures m.calls == []
        {
          var i :| 0 <= i < |orphans| && orphans[i] == m;
          assert ms[1..][n + i - 1] == m;
        }
        assert ms[n..] == orphans + ms[k..];
        AnsweredPrepend(orphans, ms[k..]);
      }
    }
  }

  lemma {:induction false} AnsweredSuffix(ms: seq<Message>, n: nat)
    requires Answered(ms) && n <= |ms|
    ensures Answered(ms[n..])
    decreases |ms|
  {
    if Paired(ms) {
      PairedSuffix(ms, n);
    } else if n > 0 {
      assert ms[n..] == ms[1..][n - 1..];
      AnsweredSuffix(ms[1..], n - 1);
    }
  }

  /** A first block in front of a paired list. */
  lemma {:induction false} BlockPaired(block: seq<Message>, rest: seq<Message>)
    requires block != [] && block[0].role.Assistant? && block[0].calls != []
    requires |block| == 1 + |block[0].calls| && ResultsFor(block[0].calls, block[1..])
    requires Paired(rest)
    ensures Paired(block + rest)
  {
    var ms := block + rest;
    assert ms[1 + |block[0].calls|..] == rest;
    assert ms[1..] == block[1..] + rest;
  }

  lemma {:induction false} FilterBlock(p: Message -> bool, block: seq<Message>, rest: seq<Message>)
    requires forall m :: m in block ==> p(m)
    ensures Filter(p, block + rest) == block + Filter(p, rest)
  {
    FilterAll(p, block);
    FilterConcat(p, block, rest);
  }

  /** Removing system messages and checkpoints never separates a call from its results. */
  lemma {:induction false} PairedFilter(p: Message -> bool, ms: seq<Message>)
    requires Paired(ms)
    requires forall m :: m in ms && (m.role.Assistant? || m.role.Tool?) ==> p(m)
    ensures Paired(Filter(p, ms))
    decreases |ms|
  {
    if ms != [] {
      var k := 1 + |ms[0].calls|;
      PairedFilter(p, ms[k..]);
      if ms[0].calls != [] {
        var block := ms[..k];
        assert block[1..] == ms[1..][..k - 1];
        assert forall j :: 1 <= j < k ==> block[j] == ms[1..][j - 1];
        forall m | m in block
          ensures p(m)
        {
          assert m in ms;
        }
        assert ms == block + ms[k..];
        FilterBlock(p, block, ms[k..]);
        BlockPaired(block, Filter(p, ms[k..]));
      } else if p(ms[0]) {
        assert Filter(p, ms)[1..] == Filter(p, ms[1..]);
      }
    }
  }

  lemma {:induction false} AnsweredFilter(p: Message -> bool, ms: seq<Message>)
    requires Answered(ms)
    requires forall m :: m in ms && (m.role.Assistant? || m.role.Tool?) ==> p(m)
    ensures Answered(Filter(p, ms))
    decreases |ms|
  {
    if Paired(ms) {
      PairedFilter(p, ms);
    } else {
      AnsweredFilter(p, ms[1..]);
      var head := if p(ms[0]) then [ms[0]] else [];
      AnsweredPrepend(head, Filter(p, ms[1..]));
    }
  }

  /** A complete tool step: the assistant's calls and their results. */
  lemma {:induction false} StepPaired(call: Message, results: seq<Message>)
    requires call.role.Assistant? && call.calls != []
    requires |results| == |call.calls| && ResultsFor(call.calls, results)
    ensures Paired([call] + results)
  {
    var ms := [call] + results;
    assert ms[1..] == results;
    assert ms[1 + |call.calls|..] == [];
  }
}
