/** Context compaction: what is summarised, what is kept, and how the prompt is put back. */
module Compaction {
  import opened Wrappers
  import opened Messages
  import Text

  const OUTPUT_TOKEN_MAX := 32_000
  const MIN_PRESERVE_RECENT_TOKENS := 2_000
  const MAX_PRESERVE_RECENT_TOKENS := 15_000

  datatype ModelLimits = ModelLimits(contextLength: nat, maxOutputTokens: nat)

  datatype Selection = Selection(head: seq<Message>, tail: seq<Message>, tailStartId: string)

  function Min(a: int, b: int): int { if a <= b then a else b }

  function MaxOutputTokens(limits: ModelLimits): nat {
    var capped := Min(limits.maxOutputTokens, OUTPUT_TOKEN_MAX);
    if capped == 0 then OUTPUT_TOKEN_MAX else capped
  }

  function Usable(limits: ModelLimits): nat {
    if limits.contextLength == 0 then 0 else Max(0, limits.contextLength - MaxOutputTokens(limits))
  }

  function TokenCount(prompt: int, completion: int, total: int): int {
    if total > 0 then total else prompt + completion
  }

  predicate IsOverflow(prompt: int, completion: int, total: int, limits: ModelLimits, auto: bool) {
    auto && limits.contextLength != 0 && TokenCount(prompt, completion, total) >= Usable(limits)
  }

  function PreserveRecentBudget(limits: ModelLimits): (r: nat)
    ensures MIN_PRESERVE_RECENT_TOKENS <= r <= MAX_PRESERVE_RECENT_TOKENS
  {
    Min(MAX_PRESERVE_RECENT_TOKENS, Max(MIN_PRESERVE_RECENT_TOKENS, Usable(limits) / 4))
  }

  // ---------------------------------------------------------------- token estimates

  function PartsTokens(parts: seq<Part>): nat {
    if parts == [] then 0
    else
      (match parts[0]
       case TextPart(text) => |text| / 4
       case ImagePart(_) => IMAGE_TOKEN_ESTIMATE
       case OtherPart(_) => 0) + PartsTokens(parts[1..])
  }

  function ContentTokens(content: Content): nat {
    match content
    case NoContent => 0
    case Plain(text) => |text| / 4
    case Parts(parts) => PartsTokens(parts)
  }

  function CallTokens(calls: seq<ToolCall>): nat {
    if calls == [] then 0 else |calls[0].arguments| / 4 + CallTokens(calls[1..])
  }

  function MessageTokens(m: Message): nat {
    ContentTokens(m.content) + CallTokens(m.calls)
  }

  function Tokens(ms: seq<Message>): nat {
    if ms == [] then 0 else MessageTokens(ms[0]) + Tokens(ms[1..])
  }

  lemma {:induction false} TokensConcat(a: seq<Message>, b: seq<Message>)
    ensures Tokens(a + b) == Tokens(a) + Tokens(b)
  {
    if a == [] {
      assert a + b == b;
    } else {
      assert (a + b)[1..] == a[1..] + b;
      TokensConcat(a[1..], b);
    }
  }

  lemma {:induction false} TokensSplit(ms: seq<Message>, i: nat, j: nat)
    requires i <= j <= |ms|
    ensures Tokens(ms[i..]) == Tokens(ms[i..j]) + Tokens(ms[j..])
  {
    assert ms[i..] == ms[i..j] + ms[j..];
    TokensConcat(ms[i..j], ms[j..]);
  }

  lemma {:induction false} CallTokensConcat(a: seq<ToolCall>, b: seq<ToolCall>)
    ensures CallTokens(a + b) == CallTokens(a) + CallTokens(b)
  {
    if a == [] {
      assert a + b == b;
    } else {
      assert (a + b)[1..] == a[1..] + b;
      CallTokensConcat(a[1..], b);
    }
  }

  method EstimateMessageTokens(messages: seq<Message>) returns (total: nat)
    ensures total == Tokens(messages)
  {
    total := 0;
    for i := 0 to |messages|
      invariant total == Tokens(messages[..i])
    {
      total := total + ContentTokens(messages[i].content);
      ghost var before := total;
      var calls := messages[i].calls;
      for c := 0 to |calls|
        invariant total == before + CallTokens(calls[..c])
      {
        CallTokensConcat(calls[..c], [calls[c]]);
        assert calls[..c + 1] == calls[..c] + [calls[c]];
        total := total + |calls[c].arguments| / 4;
      }
      assert calls[..|calls|] == calls;
      TokensConcat(messages[..i], [messages[i]]);
      assert messages[..i + 1] == messages[..i] + [messages[i]];
    }
    assert messages[..|messages|] == messages;
  }

  // ---------------------------------------------------------------- selection, declaratively

  /** The first real user message after `j`, or the end of the conversation. */
  function NextTurn(conv: seq<Message>, j: nat): (t: nat)
    requires j < |conv|
    ensures j < t <= |conv|
    ensures t < |conv| ==> IsRealUser(conv[t])
    ensures forall i :: j < i < t ==> !IsRealUser(conv[i])
    decreases |conv| - j
  {
    if j + 1 == |conv| || IsRealUser(conv[j + 1]) then j + 1 else NextTurn(conv, j + 1)
  }

  /**
   * A place where the kept tail may begin: within some user turn, fitting the budget; inside a
   * turn only while the later turns leave some budget unused.
   */
  predicate Eligible(conv: seq<Message>, budget: nat, j: nat)
    requires j < |conv|
  {
    && (exists t :: 0 <= t <= j && IsRealUser(conv[t]))
    && Tokens(conv[j..]) <= budget
    && (IsRealUser(conv[j]) || Tokens(conv[NextTurn(conv, j)..]) < budget)
  }

  /** The least eligible start at or after `j`. */
  function KeepStart(conv: seq<Message>, budget: nat, j: nat): (k: Option<nat>)
    requires j <= |conv|
    ensures k.Some? ==> j <= k.value < |conv| && Eligible(conv, budget, k.value)
    ensures forall i :: j <= i < (if k.Some? then k.value else |conv|) ==> !Eligible(conv, budget, i)
    decreases |conv| - j
  {
    if j == |conv| then None
    else if Eligible(conv, budget, j) then Some(j)
    else KeepStart(conv, budget, j + 1)
  }

  /** The message id of the first real user message. */
  function TailStartId(tail: seq<Message>): string {
    if tail == [] then ""
    else if IsRealUser(tail[0]) then tail[0].messageId
    else TailStartId(tail[1..])
  }

  /** The longest tail that may be kept; nothing is kept when it would be the whole conversation. */
  function SelectSpec(messages: seq<Message>, limits: ModelLimits): Selection {
    var conv := Conversation(messages);
    var k := KeepStart(conv, PreserveRecentBudget(limits), 0);
    if k.None? || k.value == 0 then Selection(conv, [], "")
    else Selection(conv[..k.value], conv[k.value..], TailStartId(conv[k.value..]))
  }

  // ---------------------------------------------------------------- selection, as computed

  method TurnStarts(conv: seq<Message>) returns (starts: seq<nat>)
    ensures forall i :: 0 <= i < |starts| ==> starts[i] < |conv| && IsRealUser(conv[starts[i]])
    ensures forall i, j :: 0 <= i < j < |starts| ==> starts[i] < starts[j]
    ensures forall t :: 0 <= t < |conv| && IsRealUser(conv[t]) ==> t in starts
  {
    starts := [];
    for index := 0 to |conv|
      invariant forall i :: 0 <= i < |starts| ==> starts[i] < index && IsRealUser(conv[starts[i]])
      invariant forall i, j :: 0 <= i < j < |starts| ==> starts[i] < starts[j]
      invariant forall t :: 0 <= t < index && IsRealUser(conv[t]) ==> t in starts
    {
      if IsRealUser(conv[index]) {
        starts := starts + [index];
      }
    }
  }

  /** The least start after `turnStart` from which the rest of the turn fits. */
  method SplitTurn(conv: seq<Message>, turnStart: nat, turnEnd: nat, budget: int) returns (split: Option<nat>)
    requires turnStart < turnEnd <= |conv|
    ensures split.Some? ==>
              && budget > 0
              && turnStart < split.value < turnEnd
              && Tokens(conv[split.value..turnEnd]) <= budget
    ensures budget > 0 ==>
              forall j :: turnStart < j < (if split.Some? then split.value else turnEnd) ==>
                Tokens(conv[j..turnEnd]) > budget
  {
    hide Tokens;
    if budget <= 0 || turnEnd - turnStart <= 1 {
      return None;
    }
    for start := turnStart + 1 to turnEnd
      invariant forall j :: turnStart < j < start ==> Tokens(conv[j..turnEnd]) > budget
    {
      var size := EstimateMessageTokens(conv[start..turnEnd]);
      if size <= budget {
        return Some(start);
      }
    }
    return None;
  }

  /** No start before the turn `[a, b)` that does not fit, nor inside it before `split`, is eligible. */
  lemma {:induction false} NotEligible(conv: seq<Message>, budget: nat, a: nat, b: nat, j: nat)
    requires a < b <= |conv| && j < b
    requires forall t :: a < t < b ==> !IsRealUser(conv[t])
    requires b < |conv| ==> IsRealUser(conv[b])
    requires Tokens(conv[b..]) <= budget < Tokens(conv[a..])
    requires a < j && Tokens(conv[b..]) < budget ==> Tokens(conv[j..b]) > budget - Tokens(conv[b..])
    ensures !Eligible(conv, budget, j)
  {
    if j <= a {
      TokensSplit(conv, j, a);
    } else {
      assert NextTurn(conv, j) == b;
      TokensSplit(conv, j, b);
    }
  }

  /** What the scan has found once the turn `[a, b)` is the first one, from the end, that does not fit. */
  lemma {:induction false} ScanStops(conv: seq<Message>, budget: nat, a: nat, b: nat, split: Option<nat>)
    requires a < b <= |conv| && IsRealUser(conv[a])
    requires b < |conv| ==> IsRealUser(conv[b])
    requires forall t :: a < t < b ==> !IsRealUser(conv[t])
    requires Tokens(conv[b..]) <= budget < Tokens(conv[a..])
    requires split.Some? ==>
               && Tokens(conv[b..]) < budget
               && a < split.value < b
               && Tokens(conv[split.value..b]) <= budget - Tokens(conv[b..])
    requires Tokens(conv[b..]) < budget ==>
               forall j :: a < j < (if split.Some? then split.value else b) ==>
                 Tokens(conv[j..b]) > budget - Tokens(conv[b..])
    ensures KeepStart(conv, budget, 0) ==
            if split.Some? then split else if b < |conv| then Some(b) else None
  {
    hide Tokens, IsRealUser;
    var found := KeepStart(conv, budget, 0);
    var k := if split.Some? then split.value else b;
    if found.Some? && found.value < k {
      NotEligible(conv, budget, a, b, found.value);
    }
    if split.Some? {
      SplitEligible(conv, budget, a, b, k);
    } else if b < |conv| {
      assert Eligible(conv, budget, b);
    }
  }

  lemma {:induction false} SplitEligible(conv: seq<Message>, budget: nat, a: nat, b: nat, k: nat)
    requires a < k < b <= |conv| && (b < |conv| ==> IsRealUser(conv[b]))
    requires forall t :: a < t < b ==> !IsRealUser(conv[t])
    requires IsRealUser(conv[a])
    requires Tokens(conv[b..]) < budget && Tokens(conv[k..b]) <= budget - Tokens(conv[b..])
    ensures Eligible(conv, budget, k)
  {
    assert NextTurn(conv, k) == b;
    TokensSplit(conv, k, b);
  }

  lemma {:induction false} NoTokens()
    ensures Tokens([]) == 0
  {
  }

  /** The backwards scan over the turns: whole turns first, then part of the first that does not fit. */
  method ScanTurns(conv: seq<Message>, starts: seq<nat>, budget: nat) returns (keepStart: Option<nat>)
    requires forall i :: 0 <= i < |starts| ==> starts[i] < |conv| && IsRealUser(conv[starts[i]])
    requires forall i, j :: 0 <= i < j < |starts| ==> starts[i] < starts[j]
    requires forall t :: 0 <= t < |conv| && IsRealUser(conv[t]) ==> t in starts
    requires starts != []
    ensures keepStart == KeepStart(conv, budget, 0)
  {
    hide Tokens, IsRealUser, Eligible;
    NoTokens();
    keepStart := None;
    var total := 0;
    var index := |starts| - 1;
    ghost var bound := |conv|;
    assert conv[bound..] == [];
    while index >= 0
      invariant -1 <= index < |starts|
      invariant bound == if index + 1 < |starts| then starts[index + 1] else |conv|
      invariant keepStart == if index + 1 < |starts| then Some(bound) else None
      invariant total == Tokens(conv[bound..]) <= budget
      decreases index
    {
      var turnStart := starts[index];
      var turnEnd := if index + 1 < |starts| then starts[index + 1] else |conv|;
      var size := EstimateMessageTokens(conv[turnStart..turnEnd]);
      TokensSplit(conv, turnStart, turnEnd);
      if total + size > budget {
        var split := SplitTurn(conv, turnStart, turnEnd, budget - total);
        NoTurnBetween(conv, starts, index);
        ScanStops(conv, budget, turnStart, turnEnd, split);
        if split.Some? {
          keepStart := split;
        }
        return;
      }
      total := total + size;
      keepStart := Some(turnStart);
      index := index - 1;
      bound := turnStart;
    }
    FirstTurnEligible(conv, starts, budget);
  }

  method FirstRealUserId(tail: seq<Message>) returns (id: string)
    ensures id == TailStartId(tail)
  {
    for i := 0 to |tail|
      invariant TailStartId(tail) == TailStartId(tail[i..])
    {
      if IsRealUser(tail[i]) {
        return tail[i].messageId;
      }
    }
    return "";
  }

  /** The greedy backwards scan computes the declarative selection. */
  method Select(messages: seq<Message>, limits: ModelLimits) returns (selection: Selection)
    ensures selection == SelectSpec(messages, limits)
  {
    var conv := Conversation(messages);
    var starts := TurnStarts(conv);
    if starts == [] {
      return Selection(conv, [], "");
    }
    var keepStart := ScanTurns(conv, starts, PreserveRecentBudget(limits));
    if keepStart.None? || keepStart.value == 0 {
      return Selection(conv, [], "");
    }
    var tail := conv[keepStart.value..];
    var tailStartId := FirstRealUserId(tail);
    return Selection(conv[..keepStart.value], tail, tailStartId);
  }

  lemma {:induction false} NoTurnBetween(conv: seq<Message>, starts: seq<nat>, index: nat)
    requires index < |starts|
    requires forall i, j :: 0 <= i < j < |starts| ==> starts[i] < starts[j]
    requires forall t :: 0 <= t < |conv| && IsRealUser(conv[t]) ==> t in starts
    ensures forall t :: starts[index] < t < (if index + 1 < |starts| then starts[index + 1] else |conv|) ==>
              t < |conv| ==> !IsRealUser(conv[t])
  {
    var end := if index + 1 < |starts| then starts[index + 1] else |conv|;
    forall t | starts[index] < t < end && t < |conv|
      ensures !IsRealUser(conv[t])
    {
      assert forall i :: 0 <= i <= index ==> starts[i] < t;
      assert forall i :: index < i < |starts| ==> t < starts[i];
    }
  }

  lemma {:induction false} FirstTurnEligible(conv: seq<Message>, starts: seq<nat>, budget: nat)
    requires starts != [] && starts[0] < |conv| && IsRealUser(conv[starts[0]])
    requires forall i, j :: 0 <= i < j < |starts| ==> starts[i] < starts[j]
    requires forall t :: 0 <= t < |conv| && IsRealUser(conv[t]) ==> t in starts
    requires Tokens(conv[starts[0]..]) <= budget
    ensures KeepStart(conv, budget, 0) == Some(starts[0])
  {
    assert Eligible(conv, budget, starts[0]);
    forall j | 0 <= j < starts[0]
      ensures !Eligible(conv, budget, j)
    {
      assert forall i :: 0 <= i < |starts| ==> j < starts[i];
    }
  }

  // ---------------------------------------------------------------- checkpoints

  function CheckpointMessage(summary: string): Message {
    UserMessage(Plain(CHECKPOINT_PREFIX + "\n" + Text.Strip(summary)), "")
  }

  function TrimNewlines(s: string): string {
    if s != "" && s[0] == '\n' then TrimNewlines(s[1..]) else s
  }

  /** The summary a checkpoint carries, unless it is blank. */
  function CheckpointSummary(m: Message): Option<string> {
    if !IsCheckpoint(m) then None
    else
      var body := Text.Strip(TrimNewlines(m.content.text[|CHECKPOINT_PREFIX|..]));
      if body == "" then None else Some(body)
  }

  /** The summary of the last checkpoint that carries one. */
  function FindPreviousSummary(ms: seq<Message>): Option<string> {
    if ms == [] then None
    else
      var later := FindPreviousSummary(ms[1..]);
      if later.Some? then later else CheckpointSummary(ms[0])
  }

  /** Replaces the selected head by a checkpoint; also returns the id of the first kept prompt. */
  function ApplyCompaction(messages: seq<Message>, summary: string, limits: ModelLimits): (seq<Message>, string) {
    if Text.Strip(summary) == "" then (messages, "")
    else
      var selection := SelectSpec(messages, limits);
      if selection.head == [] then (messages, selection.tailStartId)
      else
        (Systems(messages) + [CheckpointMessage(summary)] + WithoutCheckpoints(selection.tail),
         selection.tailStartId)
  }

  // ---------------------------------------------------------------- the latest prompt

  /** The last message that is a real user message. */
  function LastRealUser(ms: seq<Message>): Option<Message> {
    if ms == [] then None
    else
      var later := LastRealUser(ms[1..]);
      if later.Some? then later else if IsRealUser(ms[0]) then Some(ms[0]) else None
  }

  function JoinMedia(parts: seq<Part>): string {
    if parts == [] then ""
    else
      (match parts[0]
       case TextPart(text) => text
       case ImagePart(_) => "[Attached image: file]"
       case OtherPart(_) => "") + JoinMedia(parts[1..])
  }

  function StripContent(content: Content): string {
    match content
    case NoContent => ""
    case Plain(text) => text
    case Parts(parts) => JoinMedia(parts)
  }

  function StripMedia(m: Message): Message {
    UserMessage(Plain(StripContent(m.content)), m.messageId)
  }

  /** After a context overflow only the prompt is replayed behind the checkpoint. */
  function ApplyOverflowReplay(original: seq<Message>, compacted: seq<Message>): seq<Message> {
    var user := LastRealUser(original);
    if user.None? then compacted
    else Filter((m: Message) => m.role.System? || IsCheckpoint(m), compacted) + [StripMedia(user.value)]
  }

  predicate SamePrompt(m: Message, user: Message) {
    IsRealUser(m) && ((user.messageId != "" && m.messageId == user.messageId) || m.content == user.content)
  }

  /** `ms` still holds the prompt `user`, by id or by content. */
  predicate HoldsPrompt(ms: seq<Message>, user: Message) {
    exists i :: 0 <= i < |ms| && SamePrompt(ms[i], user)
  }

  /** The number of leading system messages and checkpoints. */
  function PrefixLength(ms: seq<Message>): (n: nat)
    ensures n <= |ms|
    ensures forall i :: 0 <= i < n ==> ms[i].role.System? || IsCheckpoint(ms[i])
    ensures n < |ms| ==> !ms[n].role.System? && !IsCheckpoint(ms[n])
  {
    if ms != [] && (ms[0].role.System? || IsCheckpoint(ms[0])) then 1 + PrefixLength(ms[1..]) else 0
  }

  /** `compacted` with the latest prompt of `original` put back behind the prefix when it is missing. */
  function WithCurrentUser(original: seq<Message>, compacted: seq<Message>): seq<Message> {
    var user := LastRealUser(original);
    if user.None? || HoldsPrompt(compacted, user.value) then compacted
    else
      var n := PrefixLength(compacted);
      compacted[..n] + [user.value] + compacted[n..]
  }

  method EnsureCurrentUser(original: seq<Message>, compacted: seq<Message>) returns (result: seq<Message>)
    ensures result == WithCurrentUser(original, compacted)
  {
    var user := LastRealUser(original);
    if user.None? {
      return compacted;
    }
    for i := 0 to |compacted|
      invariant forall j :: 0 <= j < i ==> !SamePrompt(compacted[j], user.value)
    {
      if !IsRealUser(compacted[i]) {
        continue;
      }
      if user.value.messageId != "" && compacted[i].messageId == user.value.messageId {
        return compacted;
      }
      if compacted[i].content == user.value.content {
        return compacted;
      }
    }
    var prefix, rest: seq<Message> := [], [];
    var seenRest := false;
    ghost var n := PrefixLength(compacted);
    for i := 0 to |compacted|
      invariant seenRest <==> i > n
      invariant prefix == compacted[..if i < n then i else n]
      invariant rest == compacted[if i < n then i else n..i]
    {
      var isPrefix := compacted[i].role.System? || IsCheckpoint(compacted[i]);
      if isPrefix && !seenRest {
        prefix := prefix + [compacted[i]];
        continue;
      }
      seenRest := true;
      rest := rest + [compacted[i]];
    }
    return prefix + [user.value] + rest;
  }
}
