/** What selection and compaction guarantee, for every message list, summary and model limit. */
module CompactionTheorems {
  import opened Wrappers
  import opened Messages
  import opened Compaction
  import Text

  // ---------------------------------------------------------------- sizes

  /** What a model has to keep free for its answer. */
  function Reserve(limits: ModelLimits): nat {
    if 0 < limits.maxOutputTokens <= OUTPUT_TOKEN_MAX then limits.maxOutputTokens else OUTPUT_TOKEN_MAX
  }

  /** A step left too little room exactly when the reserve no longer fits behind what the step counted. */
  lemma {:induction false} OverflowRule(prompt: int, completion: int, total: int, limits: ModelLimits, auto: bool)
    ensures var count := if total > 0 then total else prompt + completion;
      IsOverflow(prompt, completion, total, limits, auto) <==>
        auto && limits.contextLength > 0 && count >= 0 && count + Reserve(limits) >= limits.contextLength
  {
  }

  /** The recent budget is a quarter of what the reserve leaves, but no less than 2,000 and no more than 15,000. */
  lemma {:induction false} RecentBudget(limits: ModelLimits)
    ensures var r, room := PreserveRecentBudget(limits), limits.contextLength - Reserve(limits);
      && (r == 2_000 || (2_000 < r <= 15_000 && 4 * r <= room))
      && (r == 15_000 || room < 4 * (r + 1))
  {
  }

  /** The texts of a message: those of its content, then the arguments of its calls. */
  function TextsOf(m: Message): seq<string> {
    ContentTexts(m.content) + ArgumentTexts(m.calls)
  }

  function ContentTexts(content: Content): seq<string> {
    match content
    case NoContent => []
    case Plain(text) => [text]
    case Parts(parts) => PartTexts(parts)
  }

  function PartTexts(parts: seq<Part>): seq<string> {
    if parts == [] then []
    else (if parts[0].TextPart? then [parts[0].text] else []) + PartTexts(parts[1..])
  }

  function ArgumentTexts(calls: seq<ToolCall>): seq<string> {
    if calls == [] then [] else [calls[0].arguments] + ArgumentTexts(calls[1..])
  }

  function Images(parts: seq<Part>): nat {
    if parts == [] then 0 else (if parts[0].ImagePart? then 1 else 0) + Images(parts[1..])
  }

  function Characters(texts: seq<string>): nat {
    if texts == [] then 0 else |texts[0]| + Characters(texts[1..])
  }

  /** The texts and the images of a list. */
  function AllTexts(ms: seq<Message>): seq<string> {
    if ms == [] then [] else TextsOf(ms[0]) + AllTexts(ms[1..])
  }

  function AllImages(ms: seq<Message>): nat {
    if ms == [] then 0
    else (if ms[0].content.Parts? then Images(ms[0].content.parts) else 0) + AllImages(ms[1..])
  }

  /** `tokens` counts a quarter of the characters of `texts`, cutting off at most three characters in each. */
  predicate Quarters(tokens: int, texts: seq<string>) {
    0 <= Characters(texts) - 4 * tokens <= 3 * |texts|
  }

  lemma {:induction false} CharactersConcat(a: seq<string>, b: seq<string>)
    ensures Characters(a + b) == Characters(a) + Characters(b)
  {
    if a == [] {
      assert a + b == b;
    } else {
      assert (a + b)[1..] == a[1..] + b;
      CharactersConcat(a[1..], b);
    }
  }

  lemma {:induction false} PartsQuarters(parts: seq<Part>)
    ensures Quarters(PartsTokens(parts) - 1_000 * Images(parts), PartTexts(parts))
  {
    if parts != [] {
      PartsQuarters(parts[1..]);
      CharactersConcat(if parts[0].TextPart? then [parts[0].text] else [], PartTexts(parts[1..]));
    }
  }

  lemma {:induction false} CallsQuarters(calls: seq<ToolCall>)
    ensures Quarters(CallTokens(calls), ArgumentTexts(calls))
  {
    if calls != [] {
      CallsQuarters(calls[1..]);
    }
  }

  /** The estimate of a list: a thousand tokens for an image, and one for four characters of a text. */
  lemma {:induction false} EstimateIsAQuarter(ms: seq<Message>)
    ensures Quarters(Tokens(ms) - 1_000 * AllImages(ms), AllTexts(ms))
  {
    if ms != [] {
      var m := ms[0];
      EstimateIsAQuarter(ms[1..]);
      CharactersConcat(TextsOf(m), AllTexts(ms[1..]));
      CharactersConcat(ContentTexts(m.content), ArgumentTexts(m.calls));
      CallsQuarters(m.calls);
      if m.content.Parts? {
        PartsQuarters(m.content.parts);
      }
    }
  }

  // ---------------------------------------------------------------- selection

  lemma {:induction false} TokensSuffixMonotone(ms: seq<Message>, i: nat, j: nat)
    requires i <= j <= |ms|
    ensures Tokens(ms[j..]) <= Tokens(ms[i..])
  {
    TokensSplit(ms, i, j);
  }

  /** Head and tail are the conversation; the tail fits the recent budget. */
  lemma {:induction false} SelectPartitions(messages: seq<Message>, limits: ModelLimits)
    ensures var s := SelectSpec(messages, limits);
      && s.head + s.tail == Conversation(messages)
      && Tokens(s.tail) <= PreserveRecentBudget(limits)
      && (s.head == [] <==> Conversation(messages) == [])
  {
  }

  /** An eligible start is that of a turn when a turn behind it uses up the budget. */
  lemma {:induction false} StartsAtTurn(conv: seq<Message>, budget: nat, k: nat, t: nat)
    requires k <= t < |conv| && IsRealUser(conv[t])
    requires Eligible(conv, budget, k) && Tokens(conv[t..]) >= budget
    ensures IsRealUser(conv[k])
  {
    if k < t {
      var next := NextTurn(conv, k);
      assert next <= t;
      TokensSuffixMonotone(conv, next, t);
    }
  }

  /** No longer tail fits, except that a tail using the budget exactly stops at a turn boundary. */
  lemma {:induction false} SelectIsMaximal(messages: seq<Message>, limits: ModelLimits, j: nat)
    requires SelectSpec(messages, limits).tail != []
    requires j < |SelectSpec(messages, limits).head|
    requires exists t :: 0 <= t <= j && IsRealUser(Conversation(messages)[t])
    ensures var s := SelectSpec(messages, limits); var budget := PreserveRecentBudget(limits);
      Tokens(Conversation(messages)[j..]) > budget || (Tokens(s.tail) == budget && IsRealUser(s.tail[0]))
  {
    var conv := Conversation(messages);
    var budget := PreserveRecentBudget(limits);
    var k := KeepStart(conv, budget, 0).value;
    assert !Eligible(conv, budget, j);
    if Tokens(conv[j..]) <= budget {
      var t := NextTurn(conv, j);
      assert Tokens(conv[t..]) >= budget;
      TokensSplit(conv, j, t);
      assert t < |conv| by { assert conv[|conv|..] == []; }
      assert Eligible(conv, budget, t);
      TokensSuffixMonotone(conv, k, t);
      StartsAtTurn(conv, budget, k, t);
    }
  }

  lemma {:induction false} BudgetIsPositive(limits: ModelLimits)
    ensures PreserveRecentBudget(limits) > 0
  {
  }

  /** Exactly when nothing is kept verbatim: no turn, nothing fits, or everything does. */
  lemma {:induction false} SelectKeepsNothing(messages: seq<Message>, limits: ModelLimits)
    ensures var conv := Conversation(messages); var budget := PreserveRecentBudget(limits);
      SelectSpec(messages, limits).tail == [] <==>
        || (forall t :: 0 <= t < |conv| ==> !IsRealUser(conv[t]))
        || Tokens(conv[|conv| - 1..]) > budget
        || (IsRealUser(conv[0]) && Tokens(conv) <= budget)
  {
    hide Tokens, IsRealUser, PreserveRecentBudget, Conversation;
    NoTokens();
    BudgetIsPositive(limits);
    var conv := Conversation(messages);
    var budget := PreserveRecentBudget(limits);
    var found := KeepStart(conv, budget, 0);
    if conv != [] {
      var last := |conv| - 1;
      assert conv[0..] == conv;
      assert conv[|conv|..] == [];
      if (exists t :: 0 <= t < |conv| && IsRealUser(conv[t])) && Tokens(conv[last..]) <= budget {
        assert NextTurn(conv, last) == |conv|;
        assert Eligible(conv, budget, last);
      }
      if found.Some? {
        TokensSuffixMonotone(conv, found.value, last);
      }
    }
  }

  // ---------------------------------------------------------------- filters over a compacted list

  lemma {:induction false} TokensFilter(p: Message -> bool, ms: seq<Message>)
    ensures Tokens(Filter(p, ms)) <= Tokens(ms)
  {
    if ms != [] {
      TokensFilter(p, ms[1..]);
      if p(ms[0]) {
        assert Filter(p, ms)[1..] == Filter(p, ms[1..]);
      }
    }
  }

  lemma {:induction false} LastRealUserConcat(a: seq<Message>, b: seq<Message>)
    ensures LastRealUser(a + b) == if LastRealUser(b).Some? then LastRealUser(b) else LastRealUser(a)
  {
    if a == [] {
      assert a + b == b;
    } else {
      assert (a + b)[1..] == a[1..] + b;
      LastRealUserConcat(a[1..], b);
    }
  }

  lemma {:induction false} LastRealUserIsLast(ms: seq<Message>)
    ensures LastRealUser(ms).Some? ==> LastRealUser(ms).value in ms && IsRealUser(LastRealUser(ms).value)
    ensures LastRealUser(ms).None? ==> forall m :: m in ms ==> !IsRealUser(m)
  {
    if ms != [] {
      LastRealUserIsLast(ms[1..]);
      assert ms == [ms[0]] + ms[1..];
    }
  }

  lemma {:induction false} LastRealUserFilter(p: Message -> bool, ms: seq<Message>)
    requires forall m :: IsRealUser(m) ==> p(m)
    ensures LastRealUser(Filter(p, ms)) == LastRealUser(ms)
  {
    if ms != [] {
      LastRealUserFilter(p, ms[1..]);
      if p(ms[0]) {
        assert Filter(p, ms)[1..] == Filter(p, ms[1..]);
      }
    }
  }

  // ---------------------------------------------------------------- the shape of a compacted list

  /** One compaction of `messages`, as the run loop performs it. */
  function Compacted(messages: seq<Message>, summary: string, limits: ModelLimits, overflow: bool): seq<Message> {
    var compacted := ApplyCompaction(messages, summary, limits).0;
    if overflow then ApplyOverflowReplay(messages, compacted) else WithCurrentUser(messages, compacted)
  }

  /** The messages kept verbatim behind the checkpoint. */
  function KeptTail(messages: seq<Message>, limits: ModelLimits): seq<Message> {
    WithoutCheckpoints(SelectSpec(messages, limits).tail)
  }

  /** Everything behind the checkpoint after one compaction. */
  function Rest(messages: seq<Message>, limits: ModelLimits, overflow: bool): seq<Message> {
    var user := LastRealUser(messages);
    var tail := KeptTail(messages, limits);
    if user.None? then tail
    else if overflow then [StripMedia(user.value)]
    else if LastRealUser(tail).Some? then tail
    else [user.value] + tail
  }

  lemma {:induction false} KeptTailMembers(messages: seq<Message>, limits: ModelLimits)
    ensures forall m :: m in KeptTail(messages, limits) ==> m in messages && !m.role.System? && !IsCheckpoint(m)
  {
    var tail := SelectSpec(messages, limits).tail;
    FilterMembers((m: Message) => !IsCheckpoint(m), tail);
    FilterMembers((m: Message) => !m.role.System?, messages);
    SelectPartitions(messages, limits);
    forall m | m in tail
      ensures m in messages && !m.role.System?
    {
      assert m in SelectSpec(messages, limits).head + tail;
    }
  }

  lemma {:induction false} KeptTailPrompt(messages: seq<Message>, limits: ModelLimits)
    ensures LastRealUser(KeptTail(messages, limits)).Some? ==>
              LastRealUser(KeptTail(messages, limits)) == LastRealUser(messages)
  {
    var s := SelectSpec(messages, limits);
    SelectPartitions(messages, limits);
    LastRealUserFilter((m: Message) => !IsCheckpoint(m), s.tail);
    LastRealUserFilter((m: Message) => !m.role.System?, messages);
    LastRealUserConcat(s.head, s.tail);
  }

  lemma {:induction false} PrefixLengthOf(prefix: seq<Message>, rest: seq<Message>)
    requires forall m :: m in prefix ==> m.role.System? || IsCheckpoint(m)
    requires rest != [] ==> !rest[0].role.System? && !IsCheckpoint(rest[0])
    ensures PrefixLength(prefix + rest) == |prefix|
  {
    if prefix == [] {
      assert prefix + rest == rest;
    } else {
      assert prefix[0] in prefix;
      assert (prefix + rest)[1..] == prefix[1..] + rest;
      PrefixLengthOf(prefix[1..], rest);
    }
  }

  function Prefix(messages: seq<Message>, summary: string): seq<Message> {
    Systems(messages) + [CheckpointMessage(summary)]
  }

  lemma {:induction false} PrefixMembers(messages: seq<Message>, summary: string)
    ensures forall m :: m in Prefix(messages, summary) ==> m.role.System? || IsCheckpoint(m)
    ensures NoPrompt(Prefix(messages, summary))
  {
    FilterMembers((m: Message) => m.role.System?, messages);
    CheckpointText(Text.Strip(summary));
    forall m | m in Prefix(messages, summary)
      ensures (m.role.System? || IsCheckpoint(m)) && !IsRealUser(m)
    {
      assert m in Systems(messages) || m == CheckpointMessage(summary);
    }
  }

  predicate NoPrompt(ms: seq<Message>) {
    forall m :: m in ms ==> !IsRealUser(m)
  }

  lemma {:induction false} OnlyPrefixStays(prefix: seq<Message>, tail: seq<Message>)
    requires forall m :: m in prefix ==> m.role.System? || IsCheckpoint(m)
    requires forall m :: m in tail ==> !m.role.System? && !IsCheckpoint(m)
    ensures Filter((m: Message) => m.role.System? || IsCheckpoint(m), prefix + tail) == prefix
  {
    var p := (m: Message) => m.role.System? || IsCheckpoint(m);
    FilterConcat(p, prefix, tail);
    FilterAll(p, prefix);
    FilterNone(p, tail);
  }

  lemma {:induction false} PromptInTail(original: seq<Message>, prefix: seq<Message>, tail: seq<Message>)
    requires LastRealUser(original).Some? && LastRealUser(tail) == LastRealUser(original)
    ensures WithCurrentUser(original, prefix + tail) == prefix + tail
  {
    var user := LastRealUser(original).value;
    LastRealUserIsLast(tail);
    var i :| 0 <= i < |tail| && tail[i] == user;
    assert SamePrompt((prefix + tail)[|prefix| + i], user);
  }

  lemma {:induction false} PromptPutBack(original: seq<Message>, prefix: seq<Message>, tail: seq<Message>)
    requires LastRealUser(original).Some? && LastRealUser(tail).None? && NoPrompt(prefix)
    requires forall m :: m in prefix ==> m.role.System? || IsCheckpoint(m)
    requires forall m :: m in tail ==> !m.role.System? && !IsCheckpoint(m)
    ensures WithCurrentUser(original, prefix + tail) == prefix + ([LastRealUser(original).value] + tail)
  {
    var user := LastRealUser(original).value;
    LastRealUserIsLast(tail);
    forall i | 0 <= i < |prefix + tail|
      ensures !SamePrompt((prefix + tail)[i], user)
    {
      assert (prefix + tail)[i] in prefix || (prefix + tail)[i] in tail;
    }
    PrefixLengthOf(prefix, tail);
    assert (prefix + tail)[..|prefix|] == prefix && (prefix + tail)[|prefix|..] == tail;
  }

  /** A compacted list is the system messages, one checkpoint, and `Rest`. */
  lemma {:induction false} CompactedShape(messages: seq<Message>, summary: string, limits: ModelLimits, overflow: bool)
    requires Conversation(messages) != [] && Text.Strip(summary) != ""
    ensures Compacted(messages, summary, limits, overflow)
         == Prefix(messages, summary) + Rest(messages, limits, overflow)
  {
    hide IsCheckpoint, IsRealUser, LastRealUser, WithCurrentUser, StripMedia, WithoutCheckpoints, Text.Strip;
    var prefix, tail := Prefix(messages, summary), KeptTail(messages, limits);
    SelectPartitions(messages, limits);
    assert ApplyCompaction(messages, summary, limits).0 == prefix + tail;
    PrefixMembers(messages, summary);
    KeptTailMembers(messages, limits);
    if LastRealUser(messages).None? {
      NothingToPutBack(messages, prefix + tail);
    } else if overflow {
      OnlyPrefixStays(prefix, tail);
    } else if LastRealUser(tail).Some? {
      KeptTailPrompt(messages, limits);
      PromptInTail(messages, prefix, tail);
    } else {
      PromptPutBack(messages, prefix, tail);
    }
  }

  lemma {:induction false} NothingToPutBack(original: seq<Message>, compacted: seq<Message>)
    requires LastRealUser(original).None?
    ensures WithCurrentUser(original, compacted) == compacted
  {
  }

  // ---------------------------------------------------------------- what a compaction keeps

  /** The replayed prompt would be taken for a checkpoint. */
  predicate ReplayLosesPrompt(messages: seq<Message>) {
    var user := LastRealUser(messages);
    user.Some? && CHECKPOINT_PREFIX <= StripContent(user.value.content)
  }

  lemma {:induction false} RestMembers(messages: seq<Message>, limits: ModelLimits, overflow: bool)
    requires !(overflow && ReplayLosesPrompt(messages))
    ensures forall m :: m in Rest(messages, limits, overflow) ==> !m.role.System? && !IsCheckpoint(m)
  {
    KeptTailMembers(messages, limits);
    LastRealUserIsLast(messages);
  }

  /** System messages survive, in order. */
  lemma {:induction false} CompactionKeepsSystem(
      messages: seq<Message>, summary: string, limits: ModelLimits, overflow: bool)
    requires Conversation(messages) != [] && Text.Strip(summary) != ""
    ensures Systems(Compacted(messages, summary, limits, overflow)) == Systems(messages)
  {
    var p := (m: Message) => m.role.System?;
    var rest := Rest(messages, limits, overflow);
    CompactedShape(messages, summary, limits, overflow);
    KeptTailMembers(messages, limits);
    LastRealUserIsLast(messages);
    FilterConcat(p, Prefix(messages, summary), rest);
    FilterConcat(p, Systems(messages), [CheckpointMessage(summary)]);
    FilterMembers(p, messages);
    FilterAll(p, Systems(messages));
    FilterNone(p, rest);
    FilterNone(p, [CheckpointMessage(summary)]);
  }

  /** Exactly one checkpoint is left, unless a replayed prompt looks like one. */
  lemma {:induction false} CompactionLeavesOneCheckpoint(
      messages: seq<Message>, summary: string, limits: ModelLimits, overflow: bool)
    requires Conversation(messages) != [] && Text.Strip(summary) != ""
    ensures Checkpoints(Compacted(messages, summary, limits, overflow)) == [CheckpointMessage(summary)]
       <==> !(overflow && ReplayLosesPrompt(messages))
  {
    var p := (m: Message) => IsCheckpoint(m);
    var rest := Rest(messages, limits, overflow);
    CompactedShape(messages, summary, limits, overflow);
    FilterConcat(p, Prefix(messages, summary), rest);
    FilterConcat(p, Systems(messages), [CheckpointMessage(summary)]);
    FilterMembers((m: Message) => m.role.System?, messages);
    FilterNone(p, Systems(messages));
    FilterAll(p, [CheckpointMessage(summary)]);
    if overflow && ReplayLosesPrompt(messages) {
      FilterAll(p, rest);
    } else {
      RestMembers(messages, limits, overflow);
      FilterNone(p, rest);
    }
  }

  /** Ordinary compaction keeps the very prompt that was the latest one. */
  lemma {:induction false} CompactionKeepsPrompt(messages: seq<Message>, summary: string, limits: ModelLimits)
    requires Conversation(messages) != [] && Text.Strip(summary) != ""
    ensures LastRealUser(Compacted(messages, summary, limits, false)) == LastRealUser(messages)
  {
    var prefix, tail := Prefix(messages, summary), KeptTail(messages, limits);
    var rest := Rest(messages, limits, false);
    CompactedShape(messages, summary, limits, false);
    PrefixMembers(messages, summary);
    LastRealUserIsLast(prefix);
    LastRealUserConcat(prefix, rest);
    KeptTailPrompt(messages, limits);
    LastRealUserIsLast(messages);
    if LastRealUser(messages).Some? && LastRealUser(tail).None? {
      LastRealUserConcat([LastRealUser(messages).value], tail);
    }
  }

  /** Overflow replay keeps the prompt, media stripped, exactly when the result is no checkpoint. */
  lemma {:induction false} OverflowReplayKeepsPrompt(messages: seq<Message>, summary: string, limits: ModelLimits)
    requires Conversation(messages) != [] && Text.Strip(summary) != ""
    requires LastRealUser(messages).Some?
    ensures (LastRealUser(Compacted(messages, summary, limits, true))
             == Some(StripMedia(LastRealUser(messages).value))) <==> !ReplayLosesPrompt(messages)
  {
    var prefix, rest := Prefix(messages, summary), Rest(messages, limits, true);
    CompactedShape(messages, summary, limits, true);
    PrefixMembers(messages, summary);
    LastRealUserIsLast(prefix);
    LastRealUserConcat(prefix, rest);
  }

  /** What stands for a part of a prompt that is replayed. */
  function InPlaceOf(part: Part): string {
    if part.TextPart? then part.text else if part.ImagePart? then "[Attached image: file]" else ""
  }

  lemma {:induction false} JoinMediaConcat(a: seq<Part>, b: seq<Part>)
    ensures JoinMedia(a + b) == JoinMedia(a) + JoinMedia(b)
  {
    if a == [] {
      assert a + b == b;
    } else {
      assert (a + b)[1..] == a[1..] + b;
      JoinMediaConcat(a[1..], b);
    }
  }

  /** A replayed prompt keeps its id and its texts in place; its images leave a remark. */
  lemma {:induction false} ReplayReadsTheSame(a: seq<Part>, part: Part, b: seq<Part>, id: string)
    ensures StripMedia(UserMessage(Parts(a + [part] + b), id)) ==
            Message(User, Plain(JoinMedia(a) + InPlaceOf(part) + JoinMedia(b)), [], "", id)
    ensures StripMedia(UserMessage(Parts([]), id)) == Message(User, Plain(""), [], "", id)
    ensures forall text :: StripMedia(UserMessage(Plain(text), id)) == Message(User, Plain(text), [], "", id)
  {
    JoinMediaConcat(a + [part], b);
    JoinMediaConcat(a, [part]);
    assert [part][1..] == [] && InPlaceOf(part) + "" == InPlaceOf(part);
  }

  lemma {:induction false} ReplayedAsCheckpoint(m: Message, summary: string, limits: ModelLimits)
    requires Text.Strip(summary) != "" && IsRealUser(m) && !IsRealUser(StripMedia(m))
    ensures LastRealUser([m]) == Some(m) && LastRealUser(Compacted([m], summary, limits, true)) == None
  {
    hide IsRealUser, IsCheckpoint, StripMedia, Text.Strip;
    assert [m][1..] == [];
    UsersConverse(m);
    CompactedShape([m], summary, limits, true);
    PrefixMembers([m], summary);
    LastRealUserIsLast(Compacted([m], summary, limits, true));
  }

  lemma {:induction false} UsersConverse(m: Message)
    requires IsRealUser(m)
    ensures Conversation([m]) != []
  {
    assert [m][1..] == [];
  }

  /** The prefix stands in a text part; an image part behind it keeps the prompt from being plain text. */
  function PrefixedPrompt(): Message {
    UserMessage(Parts([TextPart(CHECKPOINT_PREFIX), ImagePart("u")]), "")
  }

  lemma {:induction false} PrefixedPromptTurns()
    ensures IsRealUser(PrefixedPrompt()) && !IsRealUser(StripMedia(PrefixedPrompt()))
  {
    var parts := [TextPart(CHECKPOINT_PREFIX), ImagePart("u")];
    assert parts[1..] == [ImagePart("u")];
    assert JoinMedia(parts) == CHECKPOINT_PREFIX + JoinMedia(parts[1..]);
  }

  /** A conversation whose prompt every overflow compaction loses. */
  lemma {:induction false} OverflowReplayCanLosePrompt(summary: string, limits: ModelLimits)
    requires Text.Strip(summary) != ""
    ensures LastRealUser([PrefixedPrompt()]) == Some(PrefixedPrompt())
    ensures LastRealUser(Compacted([PrefixedPrompt()], summary, limits, true)) == None
  {
    hide PrefixedPrompt, LastRealUser, Compacted;
    PrefixedPromptTurns();
    ReplayedAsCheckpoint(PrefixedPrompt(), summary, limits);
  }

  /** The token estimate of the prompt as it is put back. */
  function PromptTokens(messages: seq<Message>, overflow: bool): nat {
    var user := LastRealUser(messages);
    if user.None? then 0
    else if overflow then |StripContent(user.value.content)| / 4
    else MessageTokens(user.value)
  }

  lemma {:induction false} RestFits(messages: seq<Message>, limits: ModelLimits, overflow: bool)
    ensures Tokens(Rest(messages, limits, overflow)) <= PreserveRecentBudget(limits) + PromptTokens(messages, overflow)
  {
    SelectPartitions(messages, limits);
    TokensFilter((m: Message) => !IsCheckpoint(m), SelectSpec(messages, limits).tail);
    var user := LastRealUser(messages);
    if user.Some? {
      TokensConcat([user.value], KeptTail(messages, limits));
    }
  }

  /** The non-system part stays within the checkpoint, the recent budget and the prompt. */
  lemma {:induction false} CompactionFits(messages: seq<Message>, summary: string, limits: ModelLimits, overflow: bool)
    requires Conversation(messages) != [] && Text.Strip(summary) != ""
    ensures Tokens(Conversation(Compacted(messages, summary, limits, overflow)))
         <= MessageTokens(CheckpointMessage(summary)) + PreserveRecentBudget(limits) + PromptTokens(messages, overflow)
  {
    var p := (m: Message) => !m.role.System?;
    var rest := Rest(messages, limits, overflow);
    var chk := [CheckpointMessage(summary)];
    CompactedShape(messages, summary, limits, overflow);
    FilterConcat(p, Prefix(messages, summary), rest);
    FilterConcat(p, Systems(messages), chk);
    FilterMembers((m: Message) => m.role.System?, messages);
    FilterNone(p, Systems(messages));
    FilterAll(p, chk);
    TokensConcat(chk, Filter(p, rest));
    TokensFilter(p, rest);
    RestFits(messages, limits, overflow);
  }

  lemma {:induction false} TrimNewlinesStrip(s: string)
    requires s != "" && !Text.IsSpace(s[0]) && !Text.IsSpace(s[|s| - 1])
    ensures TrimNewlines("\n" + s) == s && Text.Strip(s) == s
  {
    assert ("\n" + s)[1..] == s;
    assert Text.TrimLeft(s) == s && Text.TrimRight(s) == s;
  }

  lemma {:induction false} DropPrefix(p: string, s: string)
    ensures p <= p + s && (p + s)[|p|..] == s
  {
  }

  lemma {:induction false} CheckpointText(s: string)
    ensures CHECKPOINT_PREFIX <= CHECKPOINT_PREFIX + "\n" + s
    ensures (CHECKPOINT_PREFIX + "\n" + s)[|CHECKPOINT_PREFIX|..] == "\n" + s
  {
    DropPrefix(CHECKPOINT_PREFIX, "\n" + s);
    assert CHECKPOINT_PREFIX + "\n" + s == CHECKPOINT_PREFIX + ("\n" + s);
  }

  lemma {:induction false} CheckpointRoundTrip(summary: string)
    requires Text.Strip(summary) != ""
    ensures CheckpointSummary(CheckpointMessage(summary)) == Some(Text.Strip(summary))
  {
    var s := Text.Strip(summary);
    CheckpointText(s);
    TrimNewlinesStrip(s);
  }

  lemma {:induction false} FindPreviousSummaryConcat(a: seq<Message>, b: seq<Message>)
    ensures FindPreviousSummary(a + b)
         == if FindPreviousSummary(b).Some? then FindPreviousSummary(b) else FindPreviousSummary(a)
  {
    if a == [] {
      assert a + b == b;
    } else {
      assert (a + b)[1..] == a[1..] + b;
      FindPreviousSummaryConcat(a[1..], b);
    }
  }

  lemma {:induction false} NoCheckpointNoSummary(ms: seq<Message>)
    requires forall m :: m in ms ==> !IsCheckpoint(m)
    ensures FindPreviousSummary(ms) == None
  {
    if ms != [] {
      assert ms[0] in ms;
      NoCheckpointNoSummary(ms[1..]);
    }
  }

  /** The summary a replayed prompt carries when it is taken for a checkpoint. */
  function ReplayedSummary(messages: seq<Message>, overflow: bool): Option<string> {
    if overflow && LastRealUser(messages).Some? then CheckpointSummary(StripMedia(LastRealUser(messages).value))
    else None
  }

  lemma {:induction false} RestSummary(messages: seq<Message>, limits: ModelLimits, overflow: bool)
    ensures FindPreviousSummary(Rest(messages, limits, overflow)) == ReplayedSummary(messages, overflow)
  {
    KeptTailMembers(messages, limits);
    LastRealUserIsLast(messages);
    if overflow && LastRealUser(messages).Some? {
      assert [StripMedia(LastRealUser(messages).value)][1..] == [];
    } else {
      NoCheckpointNoSummary(Rest(messages, limits, overflow));
    }
  }

  lemma {:induction false} PrefixSummary(messages: seq<Message>, summary: string)
    requires Text.Strip(summary) != ""
    ensures FindPreviousSummary(Prefix(messages, summary)) == Some(Text.Strip(summary))
  {
    var chk := [CheckpointMessage(summary)];
    FindPreviousSummaryConcat(Systems(messages), chk);
    CheckpointRoundTrip(summary);
    assert chk[1..] == [];
  }

  /** The replayed prompt is taken for a checkpoint that carries another summary. */
  predicate ReplaysAnother(messages: seq<Message>, summary: string, overflow: bool) {
    ReplayedSummary(messages, overflow).Some? && ReplayedSummary(messages, overflow).value != Text.Strip(summary)
  }

  /** The next compaction finds the summary this one stored, exactly unless it finds another in the replayed prompt. */
  lemma {:induction false} SummaryRoundTrip(
      messages: seq<Message>, summary: string, limits: ModelLimits, overflow: bool)
    requires Conversation(messages) != [] && Text.Strip(summary) != ""
    ensures FindPreviousSummary(Compacted(messages, summary, limits, overflow)) == Some(Text.Strip(summary))
       <==> !ReplaysAnother(messages, summary, overflow)
    ensures ReplaysAnother(messages, summary, overflow) ==> overflow && ReplayLosesPrompt(messages)
  {
    hide Compacted, Text.Strip;
    CompactedShape(messages, summary, limits, overflow);
    RestSummary(messages, limits, overflow);
    PrefixSummary(messages, summary);
    FindPreviousSummaryConcat(Prefix(messages, summary), Rest(messages, limits, overflow));
  }

  /** Putting the prompt back twice is putting it back once. */
  lemma {:induction false} WithCurrentUserIdempotent(original: seq<Message>, compacted: seq<Message>)
    ensures var once := WithCurrentUser(original, compacted); WithCurrentUser(original, once) == once
  {
    var user := LastRealUser(original);
    if user.Some? && !HoldsPrompt(compacted, user.value) {
      LastRealUserIsLast(original);
      var once := WithCurrentUser(original, compacted);
      assert once[PrefixLength(compacted)] == user.value;
    }
  }

  // ---------------------------------------------------------------- pairing across compactions

  /** A compaction may orphan results but never leaves a call unanswered. */
  lemma {:induction false} CompactionKeepsAnswered(
      messages: seq<Message>, summary: string, limits: ModelLimits, overflow: bool)
    requires Conversation(messages) != [] && Text.Strip(summary) != ""
    requires Answered(messages)
    ensures Answered(Compacted(messages, summary, limits, overflow))
  {
    var s := SelectSpec(messages, limits);
    CompactedShape(messages, summary, limits, overflow);
    AnsweredFilter((m: Message) => !m.role.System?, messages);
    SelectPartitions(messages, limits);
    assert s.tail == Conversation(messages)[|s.head|..];
    AnsweredSuffix(Conversation(messages), |s.head|);
    AnsweredFilter((m: Message) => !IsCheckpoint(m), s.tail);
    var rest := Rest(messages, limits, overflow);
    LastRealUserIsLast(messages);
    var user := LastRealUser(messages);
    if user.Some? {
      RealUsersHaveNoCalls(messages);
      PromptPrepended(user.value, KeptTail(messages, limits));
    }
    PrefixHasNoCalls(messages, summary);
    AnsweredPrepend(Prefix(messages, summary), rest);
  }

  lemma {:induction false} PromptPrepended(user: Message, tail: seq<Message>)
    requires user.calls == [] && !user.role.Tool? && Answered(tail)
    ensures Answered([user] + tail) && Answered([user])
  {
    AnsweredPrepend([user], tail);
    assert [user][1..] == [];
  }

  lemma {:induction false} RealUsersHaveNoCalls(ms: seq<Message>)
    requires Answered(ms)
    ensures forall m :: m in ms && !m.role.Assistant? ==> m.calls == []
  {
    AnsweredIffByPosition(ms);
    forall m | m in ms && !m.role.Assistant?
      ensures m.calls == []
    {
      var i :| 0 <= i < |ms| && ms[i] == m;
      assert m.calls != [] ==> AnsweredAt(ms, i);
    }
  }

  lemma {:induction false} PrefixHasNoCalls(messages: seq<Message>, summary: string)
    requires Answered(messages)
    ensures NoCalls(Prefix(messages, summary))
  {
    RealUsersHaveNoCalls(messages);
    FilterMembers((m: Message) => m.role.System?, messages);
  }
}
