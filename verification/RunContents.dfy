/** What a run shows the model: its first request, what each turn adds, and what a compaction keeps. */
module RunContents {
  import opened Wrappers
  import opened Messages
  import opened Providers
  import opened StreamAssembly
  import opened Compaction
  import opened CompactionTheorems
  import opened RunLog
  import opened RunTools
  import opened ToolDispatch
  import opened RunTrace
  import opened RunReasons
  import Text

  // ---------------------------------------------------------------- what a compaction keeps and drops

  /** The compaction agent is asked about everything in front of the tail that is kept. */
  lemma {:induction false} HeadIsShown(
    env: Environment, agent: Agent, opts: RunOptions, ms: seq<Message>, due: bool, at: nat, a: Attempt)
    returns (head: seq<Message>)
    requires AttemptOk(env, agent, opts, ms, due, at, a) && a.Summarised?
    ensures head + SelectSpec(ms, opts.limits).tail == Conversation(ms) && head != []
    ensures a.child.prompt == env.compactionPrompt(head, FindPreviousSummary(ms))
  {
    hide SelectSpec, Conversation, FindPreviousSummary;
    head := SelectSpec(ms, opts.limits).head;
    SelectPartitions(ms, opts.limits);
  }

  /** The checkpoint that carries a summary. */
  function CheckpointOf(summary: string): Message {
    Message(User, Plain("[opencuria-compaction-checkpoint]\n" + summary), [], "", "")
  }

  /**
   * A compaction that rewrites the list keeps its system messages, and puts the summary in the place of
   * what the compaction agent was shown. Unless the context has overflowed, everything else stays but
   * the checkpoints, and the latest prompt is put back if it was in front.
   */
  lemma {:induction false} OnlyTheShownIsDropped(
    env: Environment, agent: Agent, opts: RunOptions, ms: seq<Message>, due: bool, at: nat, a: Attempt)
    returns (head: seq<Message>, tail: seq<Message>, back: seq<Message>)
    requires AttemptOk(env, agent, opts, ms, due, at, a) && Summary(a) != ""
    ensures head + tail == Conversation(ms) && a.child.prompt == env.compactionPrompt(head, FindPreviousSummary(ms))
    ensures After(ms, a, opts.limits, false) ==
            Systems(ms) + [CheckpointOf(Summary(a))] + back + WithoutCheckpoints(tail)
    ensures back == [] || (LastRealUser(ms).Some? && back == [LastRealUser(ms).value] && LastRealUser(tail).None?)
    ensures back == [] && LastRealUser(ms).Some? ==> LastRealUser(WithoutCheckpoints(tail)) == LastRealUser(ms)
  {
    hide SelectSpec, Conversation, FindPreviousSummary, LastRealUser, Compacted, WithoutCheckpoints;
    SummaryNeedsChild(a);
    head := HeadIsShown(env, agent, opts, ms, due, at, a);
    tail := SelectSpec(ms, opts.limits).tail;
    SummaryIsSolid(a);
    CompactedShape(ms, Summary(a), opts.limits, false);
    KeptTailPrompt(ms, opts.limits);
    PromptSurvivesFilter(tail);
    var user, kept := LastRealUser(ms), KeptTail(ms, opts.limits);
    back := if user.Some? && LastRealUser(kept).None? then [user.value] else [];
    assert back == [] ==> [] + kept == kept;
    Associates(Systems(ms) + [CheckpointOf(Summary(a))], back, kept);
  }

  lemma {:induction false} Associates(a: seq<Message>, b: seq<Message>, c: seq<Message>)
    ensures a + (b + c) == a + b + c && a + [] + c == a + c
  {
    assert a + [] == a;
  }

  lemma {:induction false} SummaryNeedsChild(a: Attempt)
    ensures Summary(a) != "" ==> a.Summarised?
  {
  }

  lemma {:induction false} SummaryIsSolid(a: Attempt)
    ensures Text.Strip(Summary(a)) == Summary(a) && CheckpointMessage(Summary(a)) == CheckpointOf(Summary(a))
  {
    hide Text.Strip, Summary;
    assert CHECKPOINT_PREFIX + "\n" == "[opencuria-compaction-checkpoint]\n";
    SummaryIsStripped(a);
  }

  lemma {:induction false} PromptSurvivesFilter(tail: seq<Message>)
    ensures LastRealUser(WithoutCheckpoints(tail)) == LastRealUser(tail)
  {
    LastRealUserFilter((m: Message) => !IsCheckpoint(m), tail);
  }

  /** So a message that is neither a checkpoint nor in the new list was shown to the compaction agent. */
  lemma {:induction false} DroppedWasShown(
    env: Environment, agent: Agent, opts: RunOptions, ms: seq<Message>, due: bool, at: nat, a: Attempt, m: Message)
    returns (head: seq<Message>)
    requires AttemptOk(env, agent, opts, ms, due, at, a) && Summary(a) != ""
    requires m in Conversation(ms) && !IsCheckpoint(m) && m !in After(ms, a, opts.limits, false)
    ensures a.child.prompt == env.compactionPrompt(head, FindPreviousSummary(ms)) && m in head
  {
    hide AttemptOk, After, FindPreviousSummary, LastRealUser, Summary, Systems;
    var tail, back;
    head, tail, back := OnlyTheShownIsDropped(env, agent, opts, ms, due, at, a);
    FilterMembers((x: Message) => !IsCheckpoint(x), tail);
    assert m in head + tail;
  }

  /**
   * After a context overflow the list is rewritten to the summary and the latest prompt, if there is one,
   * without its media. What is then in neither the list nor what the compaction agent was shown is exactly what
   * stands in the kept tail alone, the prompt in its new form and checkpoints excepted.
   */
  lemma {:induction false} OverflowDropsTheTail(
    env: Environment, agent: Agent, opts: RunOptions, ms: seq<Message>, due: bool, at: nat, a: Attempt, m: Message)
    returns (head: seq<Message>, tail: seq<Message>)
    requires AttemptOk(env, agent, opts, ms, due, at, a) && Summary(a) != ""
    requires m in Conversation(ms) && !IsCheckpoint(m)
    ensures head + tail == Conversation(ms) && a.child.prompt == env.compactionPrompt(head, FindPreviousSummary(ms))
    ensures After(ms, a, opts.limits, true) ==
            Systems(ms) + [CheckpointOf(Summary(a))] +
            if LastRealUser(ms).Some? then [StripMedia(LastRealUser(ms).value)] else WithoutCheckpoints(tail)
    ensures m !in After(ms, a, opts.limits, true) && m !in head <==>
            LastRealUser(ms).Some? && m in tail && m !in head && m != StripMedia(LastRealUser(ms).value)
  {
    hide SelectSpec, FindPreviousSummary, Compacted, StripMedia, IsCheckpoint, LastRealUser, CheckpointOf, Summary;
    hide AsksForSummary;
    SummaryNeedsChild(a);
    head := HeadIsShown(env, agent, opts, ms, due, at, a);
    tail := SelectSpec(ms, opts.limits).tail;
    SummaryIsSolid(a);
    CompactedShape(ms, Summary(a), opts.limits, true);
    FilterMembers((x: Message) => !x.role.System?, ms);
    FilterMembers((x: Message) => x.role.System?, ms);
    FilterMembers((x: Message) => !IsCheckpoint(x), tail);
    CheckpointIsOne(Summary(a));
    assert m in head + tail;
  }

  lemma {:induction false} CheckpointIsOne(summary: string)
    ensures IsCheckpoint(CheckpointOf(summary))
  {
  }

  // ---------------------------------------------------------------- what a turn adds

  /** The notice behind the request of a last step. */
  function Notice(isLast: bool): seq<Message> {
    if isLast then [Message(Assistant, Plain("CRITICAL - MAXIMUM STEPS REACHED"), [], "", "")] else []
  }

  lemma {:induction false} RequestIs(ms: seq<Message>, isLast: bool)
    ensures LastStepRequest(ms, isLast) == ms + Notice(isLast)
  {
  }

  /** The last sending of the last request of a turn. */
  function LastSending(s: Sendings): Exchange
    requires LastSent(s) != []
  {
    LastSent(s)[|LastSent(s)| - 1]
  }

  lemma {:induction false} LastOfSent(sent: seq<Exchange>, reached: bool, agent: Agent, request: seq<Message>)
    requires SentWhen(sent, reached, agent, request) && sent != []
    ensures reached && sent[|sent| - 1].request == request && sent[|sent| - 1].owner == agent
  {
    assert sent[|sent| - 1] in sent;
  }

  /** The answer of a turn is the reply to its last request, which showed the list as it then was. */
  lemma {:induction false} AnswerIsTheLastReply(
    env: Environment, agent: Agent, opts: RunOptions, ms: seq<Message>, step: int, isLast: bool, n: nat, s: Sendings)
    requires SendingsOk(env, agent, opts, ms, step, isLast, n, s) && AnswerTo(s, step).Success?
    ensures LastSent(s) != [] && AnswerTo(s, step) == StepResult(LastSending(s).reply, step)
    ensures LastSending(s).request == ShownBy(ms, s, opts.limits) + Notice(isLast) && LastSending(s).owner == agent
  {
    hide AttemptOk, SentWhen, Retried, Overflowed, StepResult, Compacted, LastStepRequest, Summary, Interrupted;
    NotTriedUnasked(env, agent, opts, ms, step, isLast, n, s);
    var ms1 := After(ms, s.onOverflow, opts.limits, true);
    var ms2 := After(Between(ms, s, opts.limits), s.onLength, opts.limits, false);
    NothingChanges(ms, opts.limits);
    NothingChanges(ms1, opts.limits);
    RequestIs(ms, isLast);
    RequestIs(ms1, isLast);
    RequestIs(ms2, isLast);
    FirstIsSent(s.first, agent, LastStepRequest(ms, isLast));
    LastOfSent(s.first, true, agent, LastStepRequest(ms, isLast));
    if s.second != [] {
      LastOfSent(s.second, Overflowed(s.first, step)
                 && !Interrupted(s.onOverflow), agent, LastStepRequest(ms1, isLast));
    }
    if s.third != [] {
      LastOfSent(s.third, Summary(s.onLength) != "", agent, LastStepRequest(ms2, isLast));
    } else {
      UnsentUnchanged(s, ms1, opts.limits, agent, LastStepRequest(ms2, isLast));
    }
  }

  lemma {:induction false} NothingChanges(ms: seq<Message>, limits: ModelLimits)
    ensures forall overflow :: After(ms, NotTried, limits, overflow) == ms
  {
  }

  lemma {:induction false} UnsentUnchanged(
    s: Sendings, ms: seq<Message>, limits: ModelLimits, agent: Agent, request: seq<Message>)
    requires SentWhen(s.third, Summary(s.onLength) != "", agent, request) && s.third == []
    ensures Summary(s.onLength) == "" && After(ms, s.onLength, limits, false) == ms
  {
  }

  /** The calls of a message are these. */
  predicate SameCalls(shown: seq<ToolCall>, calls: seq<PendingCall>) {
    && |shown| == |calls|
    && forall i :: 0 <= i < |calls| ==>
         shown[i] == ToolCall(calls[i].callId, calls[i].name, calls[i].rawArguments)
  }

  /** What an answered turn adds to the list: the answer with its calls, and their results. */
  predicate Adds(added: seq<Message>, output: StepOutput, results: seq<Message>) {
    && added != [] && added[1..] == results
    && added[0].role.Assistant? && added[0].callId == "" && added[0].messageId == ""
    && added[0].content == (if output.text == "" then NoContent else Plain(output.text))
    && SameCalls(added[0].calls, output.calls)
  }

  lemma {:induction false} WithResultsAdds(ms: seq<Message>, output: StepOutput, results: seq<Message>)
    returns (added: seq<Message>)
    ensures WithResults(ms, output, results) == ms + added && Adds(added, output, results)
  {
    added := [CallMessage(output.text, output.calls)] + results;
    assert WithResults(ms, output, results) == ms + added;
  }

  /** What is known of a turn that goes on. */
  lemma {:induction false} TurnGoesOn(su: Setup, start: seq<Message>, t: Turn, step: int)
    requires TurnEnd(su, start, t, step).Continue?
    ensures AnswerOf(t, step).Success? && !IsLastStep(step, su.maxSteps) && OutputAt(t, step).calls != []
    ensures OutputAt(t, step).finish != "length" && OutputAt(t, step).finish != "content_filter"
    ensures OutputAt(t, step) == AnswerOf(t, step).value && !Interrupted(t.late)
    ensures TurnEnd(su, start, t, step).messages == Next(start, t, step, su.opts.limits)
  {
    hide AnswerTo, CutShort, EndOf, Next, Interrupted;
  }

  lemma {:induction false} GoesOnAt(su: Setup, initial: seq<Message>, turns: seq<Turn>, k: nat)
    requires IsTrace(su, initial, turns) && k + 1 < |turns|
    ensures TurnAt(su, initial, turns, k) && TurnAt(su, initial, turns, k + 1)
    ensures EndOfTurn(su, initial, turns, k).Continue?
    ensures MessagesAfter(initial, turns[..k + 1], su.opts.limits) ==
            Next(MessagesAfter(initial, turns[..k], su.opts.limits), turns[k], k + 1, su.opts.limits)
  {
    hide TurnAt, EndOfTurn, Next;
    assert turns[..k + 1][..k] == turns[..k];
  }

  lemma {:induction false} SendingsOfTurn(
    su: Setup, initial: seq<Message>, turns: seq<Turn>, k: nat)
    requires k < |turns| && TurnAt(su, initial, turns, k) && !Interrupted(turns[k].early)
    ensures var start := MessagesAfter(initial, turns[..k], su.opts.limits);
      SendingsOk(su.env, su.agent, su.opts, Begun(start, turns[k], su.opts.limits), k + 1,
                 IsLastStep(k + 1, su.maxSteps), su.at + |AllSent(turns[..k])| + |SentIn(turns[k].early)|,
                 turns[k].sendings)
  {
    hide SendingsOk, AsksForSummary, Overfull, ToolsOk, LateOk, MessagesAfter, Begun, CallHistory, ApprovedAfter;
    hide Interrupted, AllSent;
  }

  lemma {:induction false} EarlyOfAnswered(su: Setup, initial: seq<Message>, turns: seq<Turn>, k: nat)
    requires k < |turns| && TurnAt(su, initial, turns, k) && AnswerOf(turns[k], k + 1).Success?
    ensures !Interrupted(turns[k].early)
  {
    hide SendingsOk, AttemptOk, ToolsOk, LateOk, MessagesAfter, Begun, CallHistory, ApprovedAfter, Interrupted, AllSent;
    hide AnswerTo;
    NothingSentFails(k + 1);
  }

  /** The first request of a turn, if no early compaction rewrote the list. */
  lemma {:induction false} FirstRequests(su: Setup, initial: seq<Message>, turns: seq<Turn>, k: nat)
    requires k < |turns| && TurnAt(su, initial, turns, k)
    requires Summary(turns[k].early) == "" && !Interrupted(turns[k].early)
    ensures turns[k].sendings.first != []
    ensures forall x :: x in turns[k].sendings.first ==>
              && x.owner == su.agent
              && x.request == MessagesAfter(initial, turns[..k], su.opts.limits) + Notice(k + 1 >= su.maxSteps)
  {
    hide OverflowOk, LengthOk, MessagesAfter, TurnAt, Summary, Interrupted, LastStepRequest, Notice;
    SendingsOfTurn(su, initial, turns, k);
    var start := MessagesAfter(initial, turns[..k], su.opts.limits);
    RequestIs(start, k + 1 >= su.maxSteps);
    assert Retried(turns[k].sendings.first, su.agent, LastStepRequest(start, k + 1 >= su.maxSteps));
  }

  /**
   * What the requests of a turn show: the list, after an attempt before the step; after an overflow,
   * the list as the replay leaves it; and after a length stop, what a further attempt makes of it.
   */
  lemma {:induction false} RequestsOfATurn(su: Setup, initial: seq<Message>, turns: seq<Turn>, k: nat)
    requires k < |turns| && TurnAt(su, initial, turns, k) && !Interrupted(turns[k].early)
    ensures var limits, s := su.opts.limits, turns[k].sendings;
      var list := After(MessagesAfter(initial, turns[..k], limits), turns[k].early, limits, false);
      var replayed := After(list, s.onOverflow, limits, true);
      var shortened := After(replayed, s.onLength, limits, false);
      && AllShow(s.first, list, su, k) && s.first != []
      && AllShow(s.second, replayed, su, k)
      && AllShow(s.third, shortened, su, k)
    ensures var s := turns[k].sendings;
      && (s.second != [] <==> Overflowed(s.first, k + 1) && !Interrupted(s.onOverflow))
      && (s.third != [] <==> Summary(s.onLength) != "")
  {
    hide AttemptOk, MessagesAfter, TurnAt, Summary, Interrupted, LastStepRequest, Notice, Overflowed, After;
    SendingsOfTurn(su, initial, turns, k);
    var limits, s := su.opts.limits, turns[k].sendings;
    var list := After(MessagesAfter(initial, turns[..k], limits), turns[k].early, limits, false);
    var replayed := After(list, s.onOverflow, limits, true);
    RequestIs(list, k + 1 >= su.maxSteps);
    RequestIs(replayed, k + 1 >= su.maxSteps);
    RequestIs(After(replayed, s.onLength, limits, false), k + 1 >= su.maxSteps);
  }

  /** All of these are requests of the agent that show this list, with a notice in a last step. */
  predicate AllShow(sent: seq<Exchange>, list: seq<Message>, su: Setup, k: nat) {
    forall x :: x in sent ==> x.owner == su.agent && x.request == list + Notice(k + 1 >= su.maxSteps)
  }

  /** An attempt before a step is made on the first step alone. */
  lemma {:induction false} EarlyOnlyFirst(su: Setup, initial: seq<Message>, turns: seq<Turn>, k: nat)
    requires 0 < k < |turns| && TurnAt(su, initial, turns, k)
    ensures turns[k].early == NotTried
  {
    hide SendingsOk, AsksForSummary, Overfull, ToolsOk, LateOk, MessagesAfter, Begun, CallHistory, ApprovedAfter;
    hide Interrupted, AllSent;
    assert |turns[..k]| == k;
  }

  lemma {:induction false} NotTriedIsBlank()
    ensures Summary(NotTried) == "" && !Interrupted(NotTried)
  {
  }

  /**
   * The request of the next turn, each time it is sent, is the last one of this turn without its notice,
   * followed by the answer to it with its calls, and their results; compacted, if an attempt behind the
   * turn gave a summary. A run goes on only behind a complete answer that asks for tools.
   */
  lemma {:induction false} NextRequestGrows(su: Setup, initial: seq<Message>, turns: seq<Turn>, k: nat)
    returns (added: seq<Message>)
    requires IsTrace(su, initial, turns) && k + 1 < |turns|
    ensures LastSent(turns[k].sendings) != [] && LastSending(turns[k].sendings).reply.ending.Finished?
    ensures var output := OutputOf(LastSending(turns[k].sendings).reply.deltas, k + 1);
      && Adds(added, output, turns[k].results)
      && output.calls != [] && output.finish != "length" && output.finish != "content_filter" && k + 1 < su.maxSteps
    ensures turns[k + 1].sendings.first != []
    ensures forall x :: x in turns[k + 1].sendings.first ==>
              x.request ==
              After(LastSending(turns[k].sendings).request + added, turns[k].late, su.opts.limits, false) +
              Notice(k + 2 >= su.maxSteps)
  {
    hide SendingsOk, MessagesAfter, Begun, TurnAt, TurnEnd, AnswerTo, After, Adds, LastStepRequest, LastSent;
    GoesOnAt(su, initial, turns, k);
    var limits, start := su.opts.limits, MessagesAfter(initial, turns[..k], su.opts.limits);
    var t := turns[k];
    assert |turns[..k]| + 1 == k + 1;
    TurnGoesOn(su, start, t, k + 1);
    EarlyOfAnswered(su, initial, turns, k);
    SendingsOfTurn(su, initial, turns, k);
    AnswerIsTheLastReply(
      su.env, su.agent, su.opts, Begun(start, t, limits), k + 1, IsLastStep(k + 1, su.maxSteps),
      su.at + |AllSent(turns[..k])| + |SentIn(t.early)|, t.sendings);
    added := WithResultsAdds(Shown(start, t, limits), OutputAt(t, k + 1), t.results);
    assert Shown(start, t, limits) + [] == Shown(start, t, limits);
    NotTriedIsBlank();
    EarlyOnlyFirst(su, initial, turns, k + 1);
    FirstRequests(su, initial, turns, k + 1);
  }

  lemma {:induction false} LateOfTurn(su: Setup, initial: seq<Message>, turns: seq<Turn>, k: nat)
    requires k < |turns| && TurnAt(su, initial, turns, k) && turns[k].late.Summarised?
    ensures AnswerOf(turns[k], k + 1).Success? && !IsLastStep(k + 1, su.maxSteps)
    ensures OutputAt(turns[k], k + 1) == AnswerOf(turns[k], k + 1).value
    ensures AttemptOk(
              su.env, su.agent, su.opts,
              Extended(MessagesAfter(initial, turns[..k], su.opts.limits), turns[k], k + 1, su.opts.limits),
              true, su.at + |AllSent(turns[..k])| + |BeforeTools(turns[k])|, turns[k].late)
  {
    hide ProviderOk, ToolsOk, MessagesAfter, CallHistory, ApprovedAfter, AllSent, AnswerTo, Extended, CutShort;
    hide BeforeTools, Overfull, AsksForSummary;
    assert |turns[..k]| + 1 == k + 1;
  }

  /** An attempt behind a turn is about its last request, with the answer and the results. */
  lemma {:induction false} LateIsAboutTheAnswer(su: Setup, initial: seq<Message>, turns: seq<Turn>, k: nat)
    returns (head: seq<Message>, tail: seq<Message>, added: seq<Message>)
    requires k < |turns| && TurnAt(su, initial, turns, k) && turns[k].late.Summarised?
    ensures LastSent(turns[k].sendings) != []
    ensures var shown := LastSending(turns[k].sendings).request + added;
      && head + tail == Conversation(shown)
      && turns[k].late.child.prompt == su.env.compactionPrompt(head, FindPreviousSummary(shown))
    ensures var output := OutputOf(LastSending(turns[k].sendings).reply.deltas, k + 1);
      if output.calls != [] then Adds(added, output, turns[k].results)
      else added == [Message(Assistant, Plain(output.text), [], "", "")]
  {
    hide SendingsOk, MessagesAfter, Begun, TurnAt, AnswerTo, Adds, LastStepRequest, LastSent, SelectSpec, Conversation;
    hide FindPreviousSummary, AsksForSummary, OutputOf;
    var limits, start, t := su.opts.limits, MessagesAfter(initial, turns[..k], su.opts.limits), turns[k];
    LateOfTurn(su, initial, turns, k);
    EarlyOfAnswered(su, initial, turns, k);
    SendingsOfTurn(su, initial, turns, k);
    AnswerIsTheLastReply(
      su.env, su.agent, su.opts, Begun(start, t, limits), k + 1, IsLastStep(k + 1, su.maxSteps),
      su.at + |AllSent(turns[..k])| + |SentIn(t.early)|, t.sendings);
    assert Shown(start, t, limits) + [] == Shown(start, t, limits);
    added := WithResultsAdds(Shown(start, t, limits), OutputAt(t, k + 1), t.results);
    if OutputAt(t, k + 1).calls == [] {
      added := [AssistantText(OutputAt(t, k + 1).text)];
    }
    head := HeadIsShown(
      su.env, su.agent, su.opts, Extended(start, t, k + 1, limits), true,
      su.at + |AllSent(turns[..k])| + |BeforeTools(t)|, t.late);
    tail := SelectSpec(Extended(start, t, k + 1, limits), limits).tail;
  }

  /** A turn that goes on has run its calls to their end, with these results. */
  lemma {:induction false} TurnRanItsTools(su: Setup, initial: seq<Message>, turns: seq<Turn>, k: nat)
    requires IsTrace(su, initial, turns) && k + 1 < |turns|
    ensures ToolsRan(su.env, su.agent, su.opts, CallsAt(turns, k), CallHistory(su, turns[..k]),
                     ApprovedAfter(su, turns[..k]), turns[k].tools, turns[k].results)
    ensures turns[k].tools.moment == su.at + |AllSent(turns[..k])| + |BeforeTools(turns[k])|
  {
    hide ProviderOk, LateOk, ToolsRan, MessagesAfter, CallHistory, ApprovedAfter, AllSent, AnswerTo, Next, Interrupted;
    hide BeforeTools, EndOf;
    GoesOnAt(su, initial, turns, k);
    assert |turns[..k]| + 1 == k + 1;
    TurnGoesOn(su, MessagesAfter(initial, turns[..k], su.opts.limits), turns[k], k + 1);
  }

  /**
   * The first request of a run, each time it is sent, is the system prompt of its agent, its history, and
   * its prompt, unless a compaction comes before it.
   */
  lemma {:induction false} FirstRequestIs(
    r: Result<RunResult, RunError>, su: Setup, promptText: string, turns: seq<Turn>)
    requires Traced(r, su,
                    InitialMessages(su.env, su.agent, su.opts, PromptMessage(su.env, promptText, su.opts)), turns)
    requires r != Failure(InvalidRun) && Summary(turns[0].early) == "" && !Interrupted(turns[0].early)
    ensures turns[0].sendings.first != []
    ensures forall x :: x in turns[0].sendings.first ==>
              && x.owner == su.agent
              && x.request ==
                 [Message(System, Plain(su.env.systemPrompt(su.agent)), [], "", "")] + su.opts.history +
                 [Message(User, su.env.hydrate(promptText), [], "", su.opts.currentUserMessageId)] +
                 Notice(1 >= su.maxSteps)
  {
    hide EndOfTurn, AllSent, Summary, Interrupted, TurnAt, Notice;
    var initial := InitialMessages(su.env, su.agent, su.opts, PromptMessage(su.env, promptText, su.opts));
    assert turns[..0] == [] && TurnAt(su, initial, turns, 0);
    FirstRequests(su, initial, turns, 0);
  }

  /** The compaction agent sees its system prompt and what it is asked, and nothing else. */
  lemma {:induction false} ChildIsShownItsPrompt(env: Environment, child: Child)
    requires ChildOk(env, child)
    ensures child.turns[0].sendings.first != []
    ensures forall x :: x in child.turns[0].sendings.first ==>
              x.request == [Message(System, Plain(env.systemPrompt(CompactionAgent)), [], "", ""),
                            Message(User, env.hydrate(child.prompt), [], "", "")]
  {
    hide EndOfTurn, AllSent, TurnAt;
    var su := ChildSetup(env, child.at);
    var initial := ChildMessages(env, child.prompt);
    assert TurnAt(su, initial, child.turns, 0);
    ChildrenDoNotCompact(su, initial, child.turns);
    NotTriedIsBlank();
    FirstRequestIs(child.result, su, child.prompt, child.turns);
    assert forall m: Message, n: Message :: [m] + [] + [n] + [] == [m, n];
  }

  lemma {:induction false} ChildrenDoNotCompact(su: Setup, initial: seq<Message>, turns: seq<Turn>)
    requires turns != [] && TurnAt(su, initial, turns, 0) && su.agent.CompactionAgent?
    ensures turns[0].early == NotTried
  {
    hide SendingsOk, Overfull, ToolsOk, LateOk, MessagesAfter, Begun, CallHistory, ApprovedAfter, Interrupted, AllSent;
  }

  /** A run of the compaction agent has at most a hundred turns. */
  lemma {:induction false} ChildrenAreBounded(env: Environment, child: Child)
    requires ChildOk(env, child)
    ensures |child.turns| <= 100
  {
    hide TurnAt, EndOfTurn, AllSent, TurnEnd, MessagesAfter;
    var su, initial := ChildSetup(env, child.at), ChildMessages(env, child.prompt);
    if |child.turns| > 100 {
      GoesOnAt(su, initial, child.turns, 99);
      EndsAsItsTurn(su, initial, child.turns, 99);
      TurnGoesOn(su, MessagesAfter(initial, child.turns[..99], su.opts.limits), child.turns[99], 100);
    }
  }

  lemma {:induction false} EndsAsItsTurn(su: Setup, initial: seq<Message>, turns: seq<Turn>, k: nat)
    requires k < |turns|
    ensures EndOfTurn(su, initial, turns, k) ==
            TurnEnd(su, MessagesAfter(initial, turns[..k], su.opts.limits), turns[k], k + 1)
  {
    hide TurnEnd, MessagesAfter;
    assert |turns[..k]| + 1 == k + 1;
  }

  lemma {:induction false} ChildIsTrace(env: Environment, child: Child)
    requires ChildOk(env, child)
    ensures IsTrace(ChildSetup(env, child.at), ChildMessages(env, child.prompt), child.turns)
  {
    hide IsTrace, EndOfTurn, AllSent;
  }

  /** How a call ends about which nobody is asked. */
  predicate RulesAlone(
      env: Environment, agent: Agent, call: PendingCall, doom: bool, moment: nat, i: nat, phase: Phase)
  {
    var external := !doom && env.external(call);
    phase == Phase.Finished(
      if env.baseRules(call, doom, external).Deny? || env.agentRules(agent, call, doom, external).Deny? then Turned
      else Ran(env.execute(moment, i)))
  }

  /** It asks nobody: each of its calls runs its tool, unless the rules deny it. */
  lemma {:induction false} ChildrenAskNobody(env: Environment, child: Child, k: nat, i: nat)
    requires ChildOk(env, child) && k + 1 < |child.turns| && i < |CallsAt(child.turns, k)|
    ensures var su, t, calls := ChildSetup(env, child.at), child.turns[k], CallsAt(child.turns, k);
      var history, approved := CallHistory(su, child.turns[..k]), ApprovedAfter(su, child.turns[..k]);
      && ToolsRan(env, CompactionAgent, su.opts, calls, history, approved, t.tools, t.results)
      && var phases := EndOfRun(env, CompactionAgent, su.opts, calls, approved, t.tools).phases;
         && |phases| == |calls|
         && RulesAlone(env, CompactionAgent, calls[i], Repeats(env, CompactionAgent, su.opts, calls, history, i),
                       t.tools.moment, i, phases[i])
  {
    hide IsTrace, ChildOk, ToolsRan, ApprovedAfter, CallHistory, CallsAt, AllSent, BeforeTools, ChildMessages;
    hide EffectiveMaxSteps, RulesAlone;
    ChildIsTrace(env, child);
    var su := ChildSetup(env, child.at);
    TurnRanItsTools(su, ChildMessages(env, child.prompt), child.turns, k);
    UnattendedRules(
      env, CompactionAgent, su.opts, CallsAt(child.turns, k), CallHistory(su, child.turns[..k]),
      ApprovedAfter(su, child.turns[..k]), child.turns[k].tools, child.turns[k].results, i);
  }

  lemma {:induction false} UnattendedRules(
    env: Environment, agent: Agent, opts: RunOptions, calls: seq<PendingCall>, history: seq<string>,
    approved: set<Key>, run: ToolRun, results: seq<Message>, i: nat)
    requires ToolsRan(env, agent, opts, calls, history, approved, run, results) && i < |calls|
    requires opts.autoApprove && opts.depth == 0
    ensures var phases := EndOfRun(env, agent, opts, calls, approved, run).phases;
      && |phases| == |calls|
      && RulesAlone(env, agent, calls[i], Repeats(env, agent, opts, calls, history, i), run.moment, i, phases[i])
  {
    hide EndOfRun, Repeats, Unquestioned, AllDone, OutcomesOf, OutcomeMessages, FlagsExact;
    RulesDecide(env, agent, opts, calls, history, approved, run, results, i);
  }

  // ---------------------------------------------------------------- what a run answers

  /** What a run answers with this output of its last step, and why it ends. */
  predicate IsAnswer(result: RunResult, output: StepOutput, isLast: bool) {
    if output.finish == "content_filter" then
      && result.finish == "content_filter"
      && result.output == output.text +
           "\n\n[Notice: the response was stopped by a content filter; tool calls were skipped.]"
    else if output.finish == "length" then
      && result.finish == "length"
      && result.output == output.text + "\n\n[Notice: the response was truncated due to length limits.]"
    else
      && result.output == output.text
      && if isLast then result.finish == "max_steps" else result.finish == "stop" && output.calls == []
  }

  lemma {:induction false} FinishIsAnswer(su: Setup, start: seq<Message>, t: Turn, step: int, result: RunResult)
    requires TurnEnd(su, start, t, step) == RoundEnd.Finish(result.output, result.finish)
    ensures AnswerOf(t, step).Success? && OutputAt(t, step) == AnswerOf(t, step).value
    ensures IsAnswer(result, OutputAt(t, step), step >= su.maxSteps)
  {
    hide AnswerTo, CutShort, Next, Interrupted;
  }

  /**
   * A run that succeeds answers with the text of the last reply of its last turn, with a notice if that
   * was cut off, and ends because the reply was, because no step is left, or because it asks for no tool.
   */
  lemma {:induction false} RunsAnswerWithTheLastReply(
    su: Setup, initial: seq<Message>, turns: seq<Turn>, result: RunResult)
    requires Traced(Success(result), su, initial, turns)
    ensures turns != [] && result.steps == |turns|
    ensures var s := turns[|turns| - 1].sendings;
      && LastSent(s) != [] && LastSending(s).owner == su.agent && LastSending(s).reply.ending.Finished?
      && IsAnswer(result, OutputOf(LastSending(s).reply.deltas, |turns|), |turns| >= su.maxSteps)
  {
    hide SendingsOk, MessagesAfter, Begun, TurnAt, AnswerTo, AllSent, LastSent, OutputOf, TurnEnd, IsAnswer, SumUsage;
    var k := |turns| - 1;
    var t, start := turns[k], MessagesAfter(initial, turns[..k], su.opts.limits);
    assert TurnAt(su, initial, turns, k) && |turns[..k]| + 1 == k + 1;
    FinishIsAnswer(su, start, t, k + 1, result);
    EarlyOfAnswered(su, initial, turns, k);
    SendingsOfTurn(su, initial, turns, k);
    AnswerIsTheLastReply(
      su.env, su.agent, su.opts, Begun(start, t, su.opts.limits), k + 1, IsLastStep(k + 1, su.maxSteps),
      su.at + |AllSent(turns[..k])| + |SentIn(t.early)|, t.sendings);
  }
}
