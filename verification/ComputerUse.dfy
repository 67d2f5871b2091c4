/** The computer-use loop: its message layout, its desktop hold and its recording. */
module ComputerUse {
  import opened Wrappers
  import opened Messages
  import opened Providers
  import opened StreamAssembly
  import opened ToolDispatch
  import opened RunLog
  import opened RunTools
  import opened RunTrace
  import opened HarnessRunner
  import opened RunContents
  import RecordingOutput
  import Text

  /** Shortened; only the words about the coordinate frame matter to the backend. */
  const INITIAL_DESKTOP_TEXT := "desktop at the start: normalized 1000x1000 coordinate frame"
  const FRESH_DESKTOP_TEXT := "freshest desktop: normalized 1000x1000 coordinate frame"
  const LEDGER_HEADING := "Completed action ledger (older screenshots discarded):\n"

  // ---------------------------------------------------------------- images

  function PartImages(parts: seq<Part>): nat {
    if parts == [] then 0 else (if parts[0].ImagePart? then 1 else 0) + PartImages(parts[1..])
  }

  /** `count_image_url_parts`. */
  function Images(ms: seq<Message>): nat {
    if ms == [] then 0 else (if ms[0].content.Parts? then PartImages(ms[0].content.parts) else 0) + Images(ms[1..])
  }

  lemma {:induction false} ImagesConcat(a: seq<Message>, b: seq<Message>)
    ensures Images(a + b) == Images(a) + Images(b)
  {
    if a == [] {
      assert a + b == b;
    } else {
      assert (a + b)[1..] == a[1..] + b;
      ImagesConcat(a[1..], b);
    }
  }

  lemma {:induction false} NoImages(ms: seq<Message>)
    requires forall m :: m in ms ==> !m.content.Parts?
    ensures Images(ms) == 0
  {
    if ms != [] {
      assert ms[0] in ms;
      NoImages(ms[1..]);
    }
  }

  /** A user message with one desktop image, its JPEG already in base64. */
  function FrameMessage(text: string, jpeg: string): Message {
    UserMessage(Parts([TextPart(text), ImagePart("data:image/jpeg;base64," + jpeg)]), "")
  }

  ghost predicate IsFrame(m: Message) {
    exists text, jpeg :: m == FrameMessage(text, jpeg)
  }

  lemma {:induction false} FrameHasOneImage(text: string, jpeg: string)
    ensures Images([FrameMessage(text, jpeg)]) == 1
  {
    var parts := [TextPart(text), ImagePart("data:image/jpeg;base64," + jpeg)];
    assert parts[1..] == [parts[1]] && [parts[1]][1..] == [];
    assert PartImages([parts[1]]) == 1 && PartImages(parts) == 1;
    var message := FrameMessage(text, jpeg);
    assert message.content.parts == parts && [message][1..] == [];
  }

  /** The frame after some outcomes: the last image any of them carries, if one does. */
  function Freshest(shot: Option<Message>, outcomes: seq<Outcome>): Option<Message> {
    if outcomes == [] then shot
    else
      var last := outcomes[|outcomes| - 1];
      if last.image.Some? && last.image.value != "" then Some(FrameMessage(FRESH_DESKTOP_TEXT, last.image.value))
      else Freshest(shot, outcomes[..|outcomes| - 1])
  }

  /** The image of the last of some calls whose tool completed with one. */
  function LastImage(phases: seq<Phase>): Option<string> {
    if phases == [] then None
    else
      match phases[|phases| - 1]
      case Finished(Ran(Completed(_, Some(image)))) => if image != "" then Some(image)
          else LastImage(phases[..|phases| - 1])
      case _ => LastImage(phases[..|phases| - 1])
  }

  /** A desktop image as a request shows it: the words in front of it, and the JPEG in base64. */
  datatype Frame = Frame(text: string, jpeg: string)

  /** The frame once some calls have ended. */
  function NextFrame(frame: Frame, phases: seq<Phase>): Frame {
    if LastImage(phases).Some? then Frame(FRESH_DESKTOP_TEXT, LastImage(phases).value) else frame
  }

  /** The image a call ends with. */
  function ImageOf(phase: Phase): Option<string> {
    match phase
    case Finished(Ran(Completed(_, image))) => image
    case _ => None
  }

  lemma {:induction false} FreshestIsLastImage(frame: Frame, phases: seq<Phase>, outcomes: seq<Outcome>)
    requires |phases| == |outcomes|
    requires forall i :: 0 <= i < |phases| ==> ImageOf(phases[i]) == outcomes[i].image
    ensures Freshest(Some(FrameMessage(frame.text, frame.jpeg)), outcomes) ==
            Some(FrameMessage(NextFrame(frame, phases).text, NextFrame(frame, phases).jpeg))
  {
    hide FrameMessage;
    if outcomes != [] {
      FreshestIsLastImage(frame, phases[..|phases| - 1], outcomes[..|outcomes| - 1]);
    }
  }

  lemma {:induction false} OwnImages(
    env: Environment, calls: seq<PendingCall>, moment: nat, s: State, outcomes: seq<Outcome>, frame: Frame)
    requires OwnOutcomes(env, calls, moment, s, outcomes)
    ensures Freshest(Some(FrameMessage(frame.text, frame.jpeg)), outcomes) ==
            Some(FrameMessage(NextFrame(frame, s.phases).text, NextFrame(frame, s.phases).jpeg))
  {
    hide FrameMessage, Freshest, NextFrame;
    forall i | 0 <= i < |s.phases|
      ensures ImageOf(s.phases[i]) == outcomes[i].image
    {
      assert OwnOutcome(env, calls[i], moment, i, s.phases[i], outcomes[i]);
    }
    FreshestIsLastImage(frame, s.phases, outcomes);
  }

  // ---------------------------------------------------------------- the ledger

  function Line(call: ToolCall): string {
    (if call.name == "" then "tool" else call.name) + ": " + call.arguments
  }

  function Lines(calls: seq<ToolCall>): seq<string> {
    seq(|calls|, i requires 0 <= i < |calls| => Line(calls[i]))
  }

  lemma {:induction false} LinesConcat(a: seq<ToolCall>, b: seq<ToolCall>)
    ensures Lines(a + b) == Lines(a) + Lines(b)
  {
  }

  lemma {:induction false} NothingLogged()
    ensures Lines([]) == []
  {
  }

  /** The calls of the assistant messages, in order. */
  function CallsIn(ms: seq<Message>): seq<ToolCall> {
    if ms == [] then []
    else
      var last := ms[|ms| - 1];
      CallsIn(ms[..|ms| - 1]) + if last.role.Assistant? then last.calls else []
  }

  lemma {:induction false} CallsInConcat(a: seq<Message>, b: seq<Message>)
    ensures CallsIn(a + b) == CallsIn(a) + CallsIn(b)
  {
    if b == [] {
      assert a + b == a;
    } else {
      assert (a + b)[..|a + b| - 1] == a + b[..|b| - 1];
      CallsInConcat(a, b[..|b| - 1]);
    }
  }

  lemma {:induction false} NoCallsIn(ms: seq<Message>)
    requires forall m :: m in ms ==> m.calls == []
    ensures CallsIn(ms) == []
  {
    if ms != [] {
      assert ms[|ms| - 1] in ms;
      NoCallsIn(ms[..|ms| - 1]);
    }
  }

  function JoinLines(lines: seq<string>): string {
    if lines == [] then ""
    else if |lines| == 1 then lines[0]
    else JoinLines(lines[..|lines| - 1]) + "\n" + lines[|lines| - 1]
  }

  function LedgerMessages(lines: seq<string>): seq<Message> {
    if lines == [] then [] else [UserMessage(Plain(LEDGER_HEADING + JoinLines(lines)), "")]
  }

  /** Nothing, or one assistant message with calls and one result per call. */
  predicate RoundOk(round: seq<Message>) {
    round == [] ||
    (&& round[0].role.Assistant? && round[0].calls != [] && !round[0].content.Parts?
     && |round| == 1 + |round[0].calls| && ResultsFor(round[0].calls, round[1..])
     && forall m :: m in round ==> !m.content.Parts?)
  }

  /** The message list of one step. */
  function Layout(base: seq<Message>, ledger: seq<string>, round: seq<Message>, shot: seq<Message>): seq<Message> {
    base + LedgerMessages(ledger) + round + shot
  }

  datatype Shape = Shape(ledger: seq<string>, round: seq<Message>, text: string, jpeg: string, isLast: bool)

  predicate Fits(request: seq<Message>, base: seq<Message>, dispatched: seq<ToolCall>, s: Shape) {
    && request == LastStepRequest(Layout(base, s.ledger, s.round, [FrameMessage(s.text, s.jpeg)]), s.isLast)
    && RoundOk(s.round)
    && s.ledger + Lines(CallsIn(s.round)) == Lines(dispatched)
  }

  /**
   * What a request may look like: the base messages, a ledger line for every earlier call or the full
   * last round for it, and one desktop image more than the base; its calls are answered.
   */
  ghost predicate GoodRequest(request: seq<Message>, base: seq<Message>, dispatched: seq<ToolCall>) {
    && Answered(request)
    && Images(request) == Images(base) + 1
    && exists shape :: Fits(request, base, dispatched, shape)
  }

  lemma {:induction false} RoundPaired(round: seq<Message>)
    requires RoundOk(round)
    ensures Paired(round) && Images(round) == 0
  {
    NoImages(round);
    if round != [] {
      StepPaired(round[0], round[1..]);
      assert round == [round[0]] + round[1..];
    }
  }

  lemma {:induction false} LayoutIsGood(
    base: seq<Message>, ledger: seq<string>, round: seq<Message>, text: string, jpeg: string, isLast: bool,
    dispatched: seq<ToolCall>)
    requires Answered(base) && RoundOk(round) && ledger + Lines(CallsIn(round)) == Lines(dispatched)
    ensures GoodRequest(LastStepRequest(Layout(base, ledger, round, [FrameMessage(text, jpeg)]), isLast), base,
                        dispatched)
  {
    var lines, shot := LedgerMessages(ledger), [FrameMessage(text, jpeg)];
    var notice := if isLast then [AssistantText(MAX_STEPS_PROMPT)] else [];
    RoundPaired(round);
    NoImages(lines);
    NoImages(notice);
    FrameHasOneImage(text, jpeg);
    AnsweredAppend(base, lines);
    AnsweredAppend(base + lines, round);
    AnsweredAppend(base + lines + round, shot);
    AnsweredAppend(base + lines + round + shot, notice);
    ImagesConcat(base, lines);
    ImagesConcat(base + lines, round);
    ImagesConcat(base + lines + round, shot);
    ImagesConcat(base + lines + round + shot, notice);
    var request := LastStepRequest(Layout(base, ledger, round, shot), isLast);
    assert request == base + lines + round + shot + notice;
    assert Fits(request, base, dispatched, Shape(ledger, round, text, jpeg, isLast));
  }

  /** With all earlier calls in the ledger, a round that begins accounts for its own. */
  lemma {:induction false} RoundAccounts(
    ledger: seq<string>, dispatched: seq<ToolCall>, text: string, calls: seq<PendingCall>)
    requires ledger + Lines(CallsIn([])) == Lines(dispatched)
    ensures ledger + Lines(CallsIn([CallMessage(text, calls)])) == Lines(dispatched + AsToolCalls(calls))
  {
    var round := [CallMessage(text, calls)];
    assert round[..0] == [] && CallsIn(round) == [] + AsToolCalls(calls) == AsToolCalls(calls);
    assert ledger + Lines([]) == ledger;
    LinesConcat(dispatched, AsToolCalls(calls));
  }

  class LoopState {
    const baseMessages: seq<Message>
    var ledgerLines: seq<string>
    var roundMessages: seq<Message>
    var screenshot: Option<Message>
    ghost var dispatched: seq<ToolCall>

    constructor (baseMessages: seq<Message>)
      ensures this.baseMessages == baseMessages && Valid() && dispatched == [] && screenshot == None
      ensures ledgerLines == [] && roundMessages == []
    {
      this.baseMessages := baseMessages;
      ledgerLines, roundMessages, screenshot, dispatched := [], [], None, [];
    }

    /** The ledger followed by the calls of the current round are all calls dispatched so far. */
    ghost predicate Accounted()
      reads this
    {
      ledgerLines + Lines(CallsIn(roundMessages)) == Lines(dispatched)
    }

    ghost predicate Valid()
      reads this
    {
      Accounted() && RoundOk(roundMessages) && (screenshot.Some? ==> IsFrame(screenshot.value))
    }

    method BuildProviderMessages() returns (messages: seq<Message>)
      ensures messages == Layout(baseMessages, ledgerLines, roundMessages,
                                 if screenshot.Some? then [screenshot.value] else [])
    {
      messages := baseMessages;
      if ledgerLines != [] {
        messages := messages + LedgerMessages(ledgerLines);
      }
      messages := messages + roundMessages;
      if screenshot.Some? {
        messages := messages + [screenshot.value];
      }
    }

    /** Moves the completed round into the text ledger. */
    method FlushRoundToLedger()
      modifies this`ledgerLines, this`roundMessages
      ensures roundMessages == []
      ensures ledgerLines == old(ledgerLines) + Lines(CallsIn(old(roundMessages)))
      ensures old(Accounted()) ==> Accounted()
    {
      for i := 0 to |roundMessages|
        invariant roundMessages == old(roundMessages)
        invariant ledgerLines == old(ledgerLines) + Lines(CallsIn(roundMessages[..i]))
      {
        var message := roundMessages[i];
        assert roundMessages[..i + 1][..i] == roundMessages[..i];
        LinesConcat(CallsIn(roundMessages[..i]), if message.role.Assistant? then message.calls else []);
        if message.role.Assistant? && message.calls != [] {
          LogCalls(message.calls);
        }
      }
      assert roundMessages[..|roundMessages|] == roundMessages;
      roundMessages := [];
    }

    method LogCalls(calls: seq<ToolCall>)
      modifies this`ledgerLines
      ensures ledgerLines == old(ledgerLines) + Lines(calls)
    {
      for j := 0 to |calls|
        invariant ledgerLines == old(ledgerLines) + Lines(calls[..j])
      {
        ledgerLines := ledgerLines + [Line(calls[j])];
        LinesConcat(calls[..j], [calls[j]]);
        assert calls[..j + 1] == calls[..j] + [calls[j]];
      }
      assert calls[..|calls|] == calls;
    }

    method SetScreenshot(text: string, jpeg: string)
      modifies this`screenshot
      ensures screenshot == Some(FrameMessage(text, jpeg))
    {
      screenshot := Some(FrameMessage(text, jpeg));
    }

    /** Starts a round with the calls about to be dispatched. */
    method BeginRound(text: string, calls: seq<PendingCall>)
      requires Valid()
      modifies this`ledgerLines, this`roundMessages, this`dispatched
      ensures Accounted() && roundMessages == [CallMessage(text, calls)]
      ensures dispatched == old(dispatched) + AsToolCalls(calls)
      ensures ledgerLines == old(ledgerLines) + Lines(CallsIn(old(roundMessages)))
    {
      hide Lines, CallsIn, AsToolCalls, RoundOk;
      if roundMessages != [] {
        FlushRoundToLedger();
      }
      NoCallsIn([]);
      NothingLogged();
      RoundAccounts(ledgerLines, dispatched, text, calls);
      roundMessages := roundMessages + [CallMessage(text, calls)];
      dispatched := dispatched + AsToolCalls(calls);
      assert roundMessages == [CallMessage(text, calls)];
    }

    /** Appends the results of the round and keeps the latest image they carry. */
    method AppendOutcomes(outcomes: seq<Outcome>)
      modifies this`roundMessages, this`screenshot
      ensures roundMessages == old(roundMessages) + OutcomeMessages(outcomes)
      ensures screenshot == Freshest(old(screenshot), outcomes)
    {
      for i := 0 to |outcomes|
        invariant roundMessages == old(roundMessages) + OutcomeMessages(outcomes[..i])
        invariant screenshot == Freshest(old(screenshot), outcomes[..i])
      {
        roundMessages := roundMessages + [outcomes[i].message];
        assert outcomes[..i + 1] == outcomes[..i] + [outcomes[i]];
        assert outcomes[..i + 1][..i] == outcomes[..i];
        if outcomes[i].image.Some? && outcomes[i].image.value != "" {
          SetScreenshot(FRESH_DESKTOP_TEXT, outcomes[i].image.value);
        }
      }
      assert outcomes[..|outcomes|] == outcomes;
    }
  }

  // ---------------------------------------------------------------- the step loop

  /** The calls a loop dispatches on these replies, step by step. */
  function CallsOf(sent: seq<Exchange>): seq<ToolCall> {
    if sent == [] then []
    else
      var reply := sent[|sent| - 1].reply;
      CallsOf(sent[..|sent| - 1])
        + if reply.ending.Finished? then AsToolCalls(OutputOf(reply.deltas, |sent|).calls) else []
  }

  ghost predicate ShownAt(sent: seq<Exchange>, agent: Agent, base: seq<Message>, k: nat)
    requires k < |sent|
  {
    sent[k].owner == agent && GoodRequest(sent[k].request, base, CallsOf(sent[..k]))
  }

  /** Every request shows all calls dispatched before it, and a single fresh frame. */
  ghost predicate AllShown(sent: seq<Exchange>, agent: Agent, base: seq<Message>) {
    forall k :: 0 <= k < |sent| ==> ShownAt(sent, agent, base, k)
  }

  ghost predicate LoopBooks(page: Page, agent: Agent, base: seq<Message>, usages: seq<Usage>) {
    && AllShown(page.sent, agent, base)
    && Billed(page.sent, agent) == usages
    && FinishUsages(page.emitted) == usages
  }

  datatype LoopResult = LoopResult(text: string, steps: nat, usage: Usage, finish: string)

  /** What a loop shows: the calls of all rounds but the last, the last round, and a frame. */
  datatype Scene = Scene(earlier: seq<ToolCall>, round: seq<Message>, frame: Frame)

  /** A line for each call, after the other. */
  function LedgerText(calls: seq<ToolCall>): string {
    if calls == [] then ""
    else
      (if calls[0].name == "" then "tool" else calls[0].name) + ": " + calls[0].arguments
      + if |calls| == 1 then "" else "\n" + LedgerText(calls[1..])
  }

  function LedgerOf(calls: seq<ToolCall>): seq<Message> {
    if calls == [] then []
    else [Message(User, Plain("Completed action ledger (older screenshots discarded):\n" + LedgerText(calls)),
                  [], "", "")]
  }

  function DesktopImage(frame: Frame): Message {
    Message(User, Parts([TextPart(frame.text), ImagePart("data:image/jpeg;base64," + frame.jpeg)]), [], "", "")
  }

  /** Nothing but the base messages and the scene, with a notice if this is the last step. */
  predicate ShowsScene(request: seq<Message>, base: seq<Message>, scene: Scene, isLast: bool) {
    request == base + LedgerOf(scene.earlier) + scene.round + [DesktopImage(scene.frame)] + Notice(isLast)
  }

  lemma {:induction false} LedgerTextBehind(calls: seq<ToolCall>, call: ToolCall)
    ensures LedgerText(calls + [call]) == if calls == [] then Line(call) else LedgerText(calls) + "\n" + Line(call)
  {
    if calls == [] {
      assert calls + [call] == [call];
    } else {
      LedgerTextBehind(calls[1..], call);
      assert (calls + [call])[1..] == calls[1..] + [call];
      var front := (if calls[0].name == "" then "tool" else calls[0].name) + ": " + calls[0].arguments;
      assert front + ("\n" + (LedgerText(calls[1..]) + "\n" + Line(call))) ==
             front + ("\n" + LedgerText(calls[1..])) + "\n" + Line(call);
      assert front + ("\n" + Line(call)) == (front + "") + "\n" + Line(call);
    }
  }

  lemma {:induction false} LinesAreLedgerText(calls: seq<ToolCall>)
    ensures JoinLines(Lines(calls)) == LedgerText(calls) && LedgerMessages(Lines(calls)) == LedgerOf(calls)
  {
    if calls != [] {
      var init := calls[..|calls| - 1];
      LinesAreLedgerText(init);
      assert calls == init + [calls[|calls| - 1]];
      LedgerTextBehind(init, calls[|calls| - 1]);
      assert Lines(calls)[..|calls| - 1] == Lines(init);
    }
  }

  lemma {:induction false} LayoutShowsScene(base: seq<Message>, scene: Scene, isLast: bool)
    ensures ShowsScene(
              LastStepRequest(
                Layout(base, Lines(scene.earlier), scene.round, [FrameMessage(scene.frame.text, scene.frame.jpeg)]),
                isLast), base, scene, isLast)
  {
    LinesAreLedgerText(scene.earlier);
  }

  predicate Shows(state: LoopState, scene: Scene)
    reads state
  {
    && state.ledgerLines == Lines(scene.earlier) && state.roundMessages == scene.round
    && state.screenshot == Some(FrameMessage(scene.frame.text, scene.frame.jpeg))
  }

  lemma {:induction false} ShowsOpening(state: LoopState, frame: Frame)
    requires state.ledgerLines == [] && state.roundMessages == []
    requires state.screenshot == Some(FrameMessage(frame.text, frame.jpeg))
    ensures Shows(state, Scene([], [], frame))
  {
    NothingLogged();
  }

  /** The messages of the next step. */
  method NextRequest(state: LoopState, isLast: bool, ghost scene: Scene) returns (request: seq<Message>)
    requires state.Valid() && Shows(state, scene) && Answered(state.baseMessages)
    ensures GoodRequest(request, state.baseMessages, state.dispatched)
    ensures ShowsScene(request, state.baseMessages, scene, isLast)
  {
    hide ShowsScene, GoodRequest, FrameMessage;
    var messages := state.BuildProviderMessages();
    request := LastStepRequest(messages, isLast);
    LayoutIsGood(state.baseMessages, state.ledgerLines, state.roundMessages, scene.frame.text, scene.frame.jpeg,
                 isLast, state.dispatched);
    LayoutShowsScene(state.baseMessages, scene, isLast);
  }

  lemma {:induction false} AskShown(sent: seq<Exchange>, x: Exchange, agent: Agent, base: seq<Message>)
    requires AllShown(sent, agent, base)
    requires x.owner == agent && GoodRequest(x.request, base, CallsOf(sent))
    ensures AllShown(sent + [x], agent, base)
  {
    forall k | 0 <= k < |sent + [x]|
      ensures ShownAt(sent + [x], agent, base, k)
    {
      assert (sent + [x])[..k] == sent[..k];
      if k < |sent| {
        assert ShownAt(sent, agent, base, k);
      } else {
        assert sent[..k] == sent;
      }
    }
  }

  lemma {:induction false} AskCalls(sent: seq<Exchange>, x: Exchange, output: Result<StepOutput, RunError>)
    requires output == StepResult(x.reply, |sent| + 1)
    ensures CallsOf(sent + [x]) == CallsOf(sent) + if output.Success? then AsToolCalls(output.value.calls) else []
  {
    hide OutputOf, AsToolCalls;
    assert (sent + [x])[..|sent|] == sent && (sent + [x])[|sent|] == x;
  }

  lemma {:induction false} AskBilled(x: Exchange, agent: Agent, step: int, output: Result<StepOutput, RunError>)
    requires x.owner == agent && output == StepResult(x.reply, step)
    ensures Billed([x], agent) == if output.Success? then [output.value.usage] else []
  {
    LogOne(x, agent);
  }

  function Reported(output: Result<StepOutput, RunError>): seq<Usage> {
    if output.Success? then [output.value.usage] else []
  }

  lemma {:induction false} AskBooks(
    page: Page, more: Page, x: Exchange, agent: Agent, base: seq<Message>, usages: seq<Usage>,
    output: Result<StepOutput, RunError>)
    requires LoopBooks(page, agent, base, usages)
    requires more.sent == [x] && x.owner == agent && GoodRequest(x.request, base, CallsOf(page.sent))
    requires output == StepResult(x.reply, |page.sent| + 1)
    requires FinishUsages(more.emitted) == Reported(output)
    ensures LoopBooks(Append(page, more), agent, base, usages + Reported(output))
  {
    AskShown(page.sent, x, agent, base);
    AskBilled(x, agent, |page.sent| + 1, output);
    LogConcat(page.sent, [x], agent);
    FinishConcat(page.emitted, more.emitted);
  }

  function Closing(step: int, output: Result<StepOutput, RunError>): seq<Event> {
    if output.Success? then [StepFinish(step, output.value.usage)] else []
  }

  lemma {:induction false} AskReports(step: int, parts: seq<Event>, output: Result<StepOutput, RunError>)
    requires AllQuiet(parts)
    ensures FinishUsages([StepStart(step)] + parts + Closing(step, output)) == Reported(output)
    ensures Starts([StepStart(step)] + parts + Closing(step, output)) == []
  {
    var opening, closing := [StepStart(step)] + parts, Closing(step, output);
    QuietEvents(opening, {});
    FinishConcat(opening, closing);
    StartsConcat(opening, closing);
    assert output.Success? ==> closing[..0] == [];
  }

  /** One provider step of the loop; it is not retried. */
  method Ask(runner: Runner, agent: Agent, request: seq<Message>, step: int)
    returns (output: Result<StepOutput, RunError>, ghost x: Exchange, ghost more: Page)
    modifies runner.provider, runner`events
    ensures x == Exchange(agent, request, runner.provider.replies(|old(runner.provider.log)|))
    ensures output == StepResult(x.reply, step)
    ensures Grown(runner.emitting, runner.provider.replies, old(runner.provider.log), runner.provider.log,
                  old(runner.events), runner.events, more)
    ensures more.sent == [x] && FinishUsages(more.emitted) == Reported(output) && Starts(more.emitted) == []
  {
    hide Grown, AllQuiet, FinishUsages, Starts, Updates, StepResult;
    runner.Send([StepStart(step)]);
    ghost var l1, e1 := runner.provider.log, runner.events;
    ghost var opening, parts := Page([], [StepStart(step)]), BLANK;
    output, x, parts := runner.SendOnce(agent, request, step);
    SentGrows(runner.emitting, runner.provider.replies, l1, old(runner.events), e1, opening);
    AppendGrown(runner.emitting, runner.provider.replies, l1, l1, runner.provider.log, old(runner.events), e1,
                runner.events, opening, parts);
    ghost var l2, e2 := runner.provider.log, runner.events;
    ghost var closing := Page([], Closing(step, output));
    if output.Success? {
      runner.Send([StepFinish(step, output.value.usage)]);
    }
    SentGrows(runner.emitting, runner.provider.replies, l2, e2, runner.events, closing);
    AppendGrown(runner.emitting, runner.provider.replies, l1, l2, l2, old(runner.events), e2, runner.events,
                Append(opening, parts), closing);
    more := Append(Append(opening, parts), closing);
    AskReports(step, parts.emitted, output);
  }

  ghost predicate Answers(calls: seq<PendingCall>, outcomes: seq<Outcome>) {
    && |outcomes| == |calls|
    && ResultsFor(AsToolCalls(calls), OutcomeMessages(outcomes))
    && forall m :: m in OutcomeMessages(outcomes) ==> !m.content.Parts?
  }

  lemma {:induction false} OutcomesAreAnswers(env: Environment, calls: seq<PendingCall>, verdicts: seq<Verdict>)
    ensures Answers(calls, OutcomesOf(env, calls, verdicts))
  {
    OutcomesAnswer(env, calls, verdicts);
  }

  /** Runs the calls of a step; each gets its outcome. */
  method Dispatch(runner: Runner, agent: Agent, opts: RunOptions, calls: seq<PendingCall>, step: int,
                  recent: seq<string>, ghost history: seq<string>, approved: set<Key>)
    returns (outcomes: Result<seq<Outcome>, RunError>, recent': seq<string>, approved': set<Key>,
             ghost run: ToolRun, ghost emitted: seq<Event>)
    requires recent == Last(history, RECENT_CALLS_MAXLEN)
    modifies runner`events
    ensures runner.events == if runner.emitting then old(runner.events) + emitted else old(runner.events)
    ensures FinishUsages(emitted) == []
    ensures Starts(emitted) == RunStarts(runner.env, agent, opts, calls, approved, run, step)
    ensures outcomes.Success? ==> Answers(calls, outcomes.value)
    ensures outcomes.Success? ==>
              ToolsRan(runner.env, agent, opts, calls, history, approved, run, OutcomeMessages(outcomes.value))
    ensures ToolsBegun(runner.env, agent, opts, calls, history, approved, run)
    ensures outcomes.Success? ==>
              OwnOutcomes(runner.env, calls, run.moment, EndOfRun(runner.env, agent, opts, calls, approved, run),
                          outcomes.value)
    ensures approved' == EndOfRun(runner.env, agent, opts, calls, approved, run).approved
    ensures recent' == Last(history + Fingerprints(PolicyOf(runner.env, agent, opts), calls), RECENT_CALLS_MAXLEN)
  {
    hide EndOfRun, ScenarioOf, EventsOf, Verdicts, OutcomesOf, OutcomeMessages, AllDone, FlagsExact, RunStarts;
    hide Answers, StepTools, Starts, FinishUsages, Last, Fingerprints, OwnOutcomes;
    outcomes, recent', approved', run, emitted :=
      runner.RunStepTools(agent, opts, calls, step, recent, history, approved);
    ghost var sc, s := ScenarioOf(runner.env, agent, opts, calls, run.flags, run.moment),
                       EndOfRun(runner.env, agent, opts, calls, approved, run);
    StepStarts(runner.env, agent, opts, calls, approved, run, step);
    ToolEventsReport(step, if outcomes.Success? then EventsOf(sc, s) else s.events, {});
    if outcomes.Success? {
      OutcomesAreAnswers(runner.env, calls, Verdicts(s));
    }
  }

  function LastCalls(round: seq<Message>): seq<ToolCall> {
    if round == [] then [] else round[0].calls
  }

  lemma {:induction false} RoundCalls(round: seq<Message>)
    requires RoundOk(round)
    ensures CallsIn(round) == LastCalls(round)
  {
    if round != [] {
      CallsInConcat([round[0]], round[1..]);
      assert [round[0]] + round[1..] == round && [round[0]][..0] == [];
      NoCallsIn(round[1..]);
      assert CallsIn([round[0]]) == [] + round[0].calls == round[0].calls;
      assert round[0].calls + [] == round[0].calls;
    }
  }

  /** The scene after a round: its calls with their results, and the frame they leave. */
  function SceneAfter(
    env: Environment, agent: Agent, opts: RunOptions, output: StepOutput, approved: set<Key>, run: ToolRun,
    results: seq<Message>, scene: Scene): Scene
  {
    Scene(scene.earlier + LastCalls(scene.round), [CallMessage(output.text, output.calls)] + results,
          if IsRun(env, agent, opts, output.calls, approved, run)
          then NextFrame(scene.frame, EndOfRun(env, agent, opts, output.calls, approved, run).phases)
          else scene.frame)
  }

  /** Dispatches the calls of a step and folds their results into the state. */
  method Act(runner: Runner, state: LoopState, agent: Agent, opts: RunOptions, output: StepOutput, step: int,
             recent: seq<string>, ghost history: seq<string>, approved: set<Key>, ghost scene: Scene)
    returns (r: Result<seq<Outcome>, RunError>, recent': seq<string>, ghost history': seq<string>, approved': set<Key>,
             ghost run: ToolRun, ghost more: Page)
    requires state.Valid() && Shows(state, scene) && output.calls != []
    requires recent == Last(history, RECENT_CALLS_MAXLEN)
    modifies runner`events, state`ledgerLines, state`roundMessages, state`dispatched, state`screenshot
    ensures Grown(runner.emitting, runner.provider.replies, runner.provider.log, runner.provider.log,
                  old(runner.events), runner.events, more)
    ensures more.sent == [] && FinishUsages(more.emitted) == []
    ensures Starts(more.emitted) == RunStarts(runner.env, agent, opts, output.calls, approved, run, step)
    ensures state.Accounted() && state.dispatched == old(state.dispatched) + AsToolCalls(output.calls)
    ensures r.Success? ==>
              ToolsRan(runner.env, agent, opts, output.calls, history, approved, run, OutcomeMessages(r.value))
    ensures ToolsBegun(runner.env, agent, opts, output.calls, history, approved, run)
    ensures approved' == EndOfRun(runner.env, agent, opts, output.calls, approved, run).approved
    ensures history' == history + Fingerprints(PolicyOf(runner.env, agent, opts), output.calls)
    ensures r.Success? ==>
              && state.Valid()
              && Shows(state,
                       SceneAfter(runner.env, agent, opts, output, approved, run, OutcomeMessages(r.value), scene))
    ensures recent' == Last(history', RECENT_CALLS_MAXLEN)
  {
    hide ToolsRan, IsRun, FlagsExact, EndOfRun, RunStarts, OwnOutcomes, Freshest, NextFrame, FrameMessage;
    RoundCalls(state.roundMessages);
    LinesConcat(scene.earlier, LastCalls(scene.round));
    state.BeginRound(output.text, output.calls);
    ghost var emitted;
    r, recent', approved', run, emitted := Dispatch(runner, agent, opts, output.calls, step, recent, history, approved);
    history' := history + Fingerprints(PolicyOf(runner.env, agent, opts), output.calls);
    more := Page([], emitted);
    if r.Success? {
      state.AppendOutcomes(r.value);
      OwnImages(runner.env, output.calls, run.moment,
                EndOfRun(runner.env, agent, opts, output.calls, approved, run), r.value, scene.frame);
      RoundOfOutcomes(output.text, output.calls, OutcomeMessages(r.value));
    }
  }

  lemma {:induction false} RoundOfOutcomes(text: string, calls: seq<PendingCall>, results: seq<Message>)
    requires calls != [] && |results| == |calls| && ResultsFor(AsToolCalls(calls), results)
    requires forall m :: m in results ==> !m.content.Parts?
    ensures RoundOk([CallMessage(text, calls)] + results)
    ensures CallsIn([CallMessage(text, calls)] + results) == CallsIn([CallMessage(text, calls)])
  {
    var round := [CallMessage(text, calls)] + results;
    assert round[1..] == results;
    CallsInConcat([CallMessage(text, calls)], results);
    forall m | m in results
      ensures m.calls == []
    {
      var i :| 0 <= i < |results| && results[i] == m;
    }
    NoCallsIn(results);
  }

  /** How one round of the loop ends. */
  datatype Move = GoOn | Answer(text: string, finish: string) | Stuck(error: RunError)

  /** What a finished step does to the loop before any tool runs. */
  function MoveOf(output: Result<StepOutput, RunError>, isLast: bool): Move {
    if output.Failure? then Stuck(output.error)
    else if isLast then Answer(output.value.text, "max_steps")
    else if output.value.calls == [] then Answer(output.value.text, "stop")
    else GoOn
  }

  /** What the tools of a round announce and leave behind, given its calls. */
  ghost predicate Worked(
    runner: Runner, agent: Agent, opts: RunOptions, calls: seq<PendingCall>, step: int, history: seq<string>,
    approved: set<Key>, run: ToolRun, announced: seq<Event>)
  {
    && ToolsBegun(runner.env, agent, opts, calls, history, approved, run)
    && Starts(announced) == RunStarts(runner.env, agent, opts, calls, approved, run, step)
  }

  /** The calls were run to their end, and the loop goes on with their fingerprints and approvals. */
  ghost predicate WorkDone(
    runner: Runner, agent: Agent, opts: RunOptions, calls: seq<PendingCall>, history: seq<string>, approved: set<Key>,
    run: ToolRun, results: seq<Message>, history': seq<string>, approved': set<Key>)
  {
    && ToolsRan(runner.env, agent, opts, calls, history, approved, run, results)
    && history' == history + Fingerprints(PolicyOf(runner.env, agent, opts), calls)
    && approved' == EndOfRun(runner.env, agent, opts, calls, approved, run).approved
  }

  /** Tells a leaked last-step call off, or runs the calls of the step. */
  method Continue(runner: Runner, state: LoopState, agent: Agent, opts: RunOptions, output: StepOutput, step: int,
                  isLast: bool, recent: seq<string>, ghost history: seq<string>, approved: set<Key>,
                  ghost scene: Scene)
    returns (move: Move, recent': seq<string>, ghost history': seq<string>, approved': set<Key>,
             ghost run: ToolRun, ghost results: seq<Message>, ghost more: Page)
    requires state.Valid() && Shows(state, scene) && recent == Last(history, RECENT_CALLS_MAXLEN)
    modifies runner`events, state`ledgerLines, state`roundMessages, state`dispatched, state`screenshot
    ensures Grown(runner.emitting, runner.provider.replies, runner.provider.log, runner.provider.log,
                  old(runner.events), runner.events, more)
    ensures more.sent == [] && FinishUsages(more.emitted) == []
    ensures move == MoveOf(Success(output), isLast) || (!isLast && output.calls != [] && move.Stuck?)
    ensures state.Accounted()
    ensures state.dispatched == old(state.dispatched) + if isLast then [] else AsToolCalls(output.calls)
    ensures move.GoOn? ==>
              state.Valid() && Shows(state, SceneAfter(runner.env, agent, opts, output, approved, run, results, scene))
    ensures move.GoOn? ==>
              WorkDone(runner, agent, opts, output.calls, history, approved, run, results, history', approved')
    ensures move.Answer? ==> Starts(more.emitted) == []
    ensures !move.Answer? ==>
              Worked(runner, agent, opts, output.calls, step, history, approved, run, more.emitted)
    ensures recent' == Last(history', RECENT_CALLS_MAXLEN)
  {
    hide SceneAfter, Shows, RunStarts, ToolsBegun, ToolsRan, EndOfRun, Fingerprints, Last;
    recent', history', approved', run, results, more := recent, history, approved, NO_TOOLS, [], BLANK;
    move := MoveOf(Success(output), isLast);
    if isLast {
      if output.calls != [] {
        runner.RejectLastStepTools(output.calls, step);
        more := Page([], StepTools(step, Refusals(output.calls)));
        QuietEvents(more.emitted, {});
      }
    } else if output.calls != [] {
      var acted;
      acted, recent', history', approved', run, more :=
        Act(runner, state, agent, opts, output, step, recent, history, approved, scene);
      if acted.Failure? {
        move := Stuck(acted.error);
      } else {
        results := OutcomeMessages(acted.value);
      }
    }
  }

  /** One round: a provider step and, unless it ends the loop, its tools. */
  method Round(runner: Runner, state: LoopState, agent: Agent, opts: RunOptions, step: int, isLast: bool,
               recent: seq<string>, ghost history: seq<string>, approved: set<Key>, ghost scene: Scene)
    returns (move: Move, output: Result<StepOutput, RunError>, recent': seq<string>, ghost history': seq<string>,
             approved': set<Key>, ghost run: ToolRun, ghost results: seq<Message>, ghost x: Exchange, ghost more: Page)
    requires state.Valid() && Shows(state, scene) && Answered(state.baseMessages)
    requires recent == Last(history, RECENT_CALLS_MAXLEN)
    modifies runner.provider, runner`events, state`ledgerLines, state`roundMessages, state`dispatched, state`screenshot
    ensures Grown(runner.emitting, runner.provider.replies, old(runner.provider.log), runner.provider.log,
                  old(runner.events), runner.events, more)
    ensures more.sent == [x] && x.owner == agent && GoodRequest(x.request, state.baseMessages, old(state.dispatched))
    ensures ShowsScene(x.request, state.baseMessages, scene, isLast)
    ensures output == StepResult(x.reply, step) && FinishUsages(more.emitted) == Reported(output)
    ensures move == MoveOf(output, isLast) || (output.Success? && !isLast && output.value.calls != [] && move.Stuck?)
    ensures state.Accounted()
    ensures state.dispatched ==
            old(state.dispatched) + if output.Success? && !isLast then AsToolCalls(output.value.calls) else []
    ensures move.GoOn? ==> output.Success?
    ensures move.GoOn? ==>
              && state.Valid()
              && Shows(state, SceneAfter(runner.env, agent, opts, output.value, approved, run, results, scene))
    ensures move.GoOn? ==>
              WorkDone(runner, agent, opts, output.value.calls, history, approved, run, results, history', approved')
    ensures output.Failure? || move.Answer? ==> Starts(more.emitted) == []
    ensures output.Success? && !move.Answer? ==>
              Worked(runner, agent, opts, output.value.calls, step, history, approved, run, more.emitted)
    ensures recent' == Last(history', RECENT_CALLS_MAXLEN)
  {
    hide WorkDone, RunStarts, ToolsBegun, GoodRequest, Answered, Grown, FinishUsages, Starts, ShowsScene, SceneAfter;
    var request := NextRequest(state, isLast, scene);
    output, x, more := Ask(runner, agent, request, step);
    if output.Failure? {
      move, recent', history', approved' := Stuck(output.error), recent, history, approved;
      run, results := NO_TOOLS, [];
      return;
    }
    ghost var l1, e1 := runner.provider.log, runner.events;
    ghost var rest;
    move, recent', history', approved', run, results, rest :=
      Continue(runner, state, agent, opts, output.value, step, isLast, recent, history, approved, scene);
    AppendGrown(runner.emitting, runner.provider.replies, old(runner.provider.log), l1, l1, old(runner.events), e1,
                runner.events, more, rest);
    FinishConcat(more.emitted, rest.emitted);
    StartsConcat(more.emitted, rest.emitted);
    assert [] + Starts(rest.emitted) == Starts(rest.emitted);
    more := Append(more, rest);
  }

  lemma {:induction false} SumReported(usages: seq<Usage>, output: Result<StepOutput, RunError>)
    ensures SumUsage(usages + Reported(output)) ==
            if output.Success? then SumUsage(usages).Merge(output.value.usage) else SumUsage(usages)
  {
    if output.Success? {
      assert (usages + [output.value.usage])[..|usages|] == usages;
    } else {
      assert usages + [] == usages;
    }
  }

  /** The calls dispatched on these replies; those leaked on the last step are refused. */
  function DispatchedBy(sent: seq<Exchange>, refused: bool): seq<ToolCall> {
    CallsOf(if refused && sent != [] then sent[..|sent| - 1] else sent)
  }

  lemma {:induction false} RoundDispatched(
      sent: seq<Exchange>, x: Exchange, output: Result<StepOutput, RunError>, isLast: bool)
    requires output == StepResult(x.reply, |sent| + 1)
    ensures DispatchedBy(sent + [x], output.Success? && isLast) ==
            CallsOf(sent) + if output.Success? && !isLast then AsToolCalls(output.value.calls) else []
  {
    AskCalls(sent, x, output);
    assert (sent + [x])[..|sent|] == sent;
    assert CallsOf(sent) + [] == CallsOf(sent);
  }

  /** The books of the loop and the calls it dispatched. */
  ghost predicate Ledger(
    page: Page, agent: Agent, base: seq<Message>, usages: seq<Usage>, dispatched: seq<ToolCall>, refused: bool)
  {
    LoopBooks(page, agent, base, usages) && dispatched == DispatchedBy(page.sent, refused)
  }

  lemma {:induction false} RoundLedger(
    page: Page, more: Page, x: Exchange, agent: Agent, base: seq<Message>, usages: seq<Usage>,
    dispatched: seq<ToolCall>, output: Result<StepOutput, RunError>, isLast: bool)
    requires Ledger(page, agent, base, usages, dispatched, false)
    requires more.sent == [x] && x.owner == agent && GoodRequest(x.request, base, dispatched)
    requires output == StepResult(x.reply, |page.sent| + 1) && FinishUsages(more.emitted) == Reported(output)
    ensures Ledger(Append(page, more), agent, base, usages + Reported(output),
                   dispatched + (if output.Success? && !isLast then AsToolCalls(output.value.calls) else []),
                   output.Success? && isLast)
    ensures Append(page, more).sent == page.sent + [x]
  {
    AskBooks(page, more, x, agent, base, usages, output);
    RoundDispatched(page.sent, x, output, isLast);
  }

  /** The result of the loop is that of its last request. */
  ghost predicate LoopEnded(result: LoopResult, sent: seq<Exchange>, usages: seq<Usage>, maxSteps: int) {
    && sent != []
    && var last := sent[|sent| - 1].reply;
       && last.ending.Finished? && result.text == OutputOf(last.deltas, |sent|).text
       && result.steps == |sent| && result.usage == SumUsage(usages)
       && result.finish == if |sent| >= maxSteps then "max_steps" else "stop"
  }

  /** A turn of the loop, in which nothing is retried and nothing compacted. */
  function WorkTurn(x: Exchange, run: ToolRun, results: seq<Message>): Turn {
    Turn(NotTried, Sendings([x], NotTried, [], NotTried, []), run, results, NotTried)
  }

  lemma {:induction false} WorkTurnAnswers(x: Exchange, run: ToolRun, results: seq<Message>, step: int)
    requires StepResult(x.reply, step).Success?
    ensures OutputAt(WorkTurn(x, run, results), step) == StepResult(x.reply, step).value
    ensures WorkTurn(x, run, results).tools == run && WorkTurn(x, run, results).results == results
  {
    hide StepResult;
  }

  /** The calls of the turn at `k` were run to their end. */
  ghost predicate RanAt(su: Setup, turns: seq<Turn>, k: nat)
    requires k < |turns|
  {
    ToolsRan(
      su.env, su.agent, su.opts, CallsAt(turns, k), CallHistory(su, turns[..k]), ApprovedAfter(su, turns[..k]),
      turns[k].tools, turns[k].results)
  }

  ghost predicate AllRan(su: Setup, turns: seq<Turn>) {
    forall k :: 0 <= k < |turns| ==> RanAt(su, turns, k)
  }

  lemma {:induction false} AddRan(su: Setup, turns: seq<Turn>, t: Turn)
    requires AllRan(su, turns)
    requires ToolsRan(
      su.env, su.agent, su.opts, OutputAt(t, |turns| + 1).calls, CallHistory(su, turns), ApprovedAfter(su, turns),
      t.tools, t.results)
    ensures AllRan(su, turns + [t])
  {
    hide ToolsRan, CallHistory, ApprovedAfter, OutputAt;
    forall k | 0 <= k < |turns + [t]|
      ensures RanAt(su, turns + [t], k)
    {
      PrefixOf(turns, t, k);
      assert k < |turns| ==> RanAt(su, turns, k);
    }
  }

  /**
   * The rounds that went on, and the one cut short while its tools were running: which request each
   * answers, how its calls were run, that the events announce their starts and no others, and that every
   * request shows exactly what the rounds before it left.
   */
  ghost predicate WorkBooks(su: Setup, first: Opening, page: Page, turns: seq<Turn>, cut: seq<Turn>) {
    && |cut| <= 1 && AllRan(su, turns)
    && AllWork(turns + cut, page.sent)
    && AllStaged(su, first, page.sent, turns)
    && (cut != [] ==> BegunAfter(su, turns, cut[0]))
    && Starts(page.emitted) == AllStarts(su, turns + cut)
  }

  /** The turn is that of one request, which finished. */
  predicate WorksOn(t: Turn, x: Exchange) {
    t == WorkTurn(x, t.tools, t.results) && x.reply.ending.Finished?
  }

  ghost predicate AllWork(turns: seq<Turn>, sent: seq<Exchange>) {
    |turns| <= |sent| && forall k :: 0 <= k < |turns| ==> WorksOn(turns[k], sent[k])
  }

  lemma {:induction false} AddWork(
      turns: seq<Turn>, sent: seq<Exchange>, x: Exchange, run: ToolRun, results: seq<Message>)
    requires AllWork(turns, sent) && |turns| == |sent| && x.reply.ending.Finished?
    ensures AllWork(turns + [WorkTurn(x, run, results)], sent + [x])
  {
  }

  /** What a loop starts from. */
  datatype Opening = Opening(base: seq<Message>, frame: Frame)

  /** The scene after some rounds. */
  function SceneBefore(su: Setup, first: Opening, turns: seq<Turn>): Scene {
    if turns == [] then Scene([], [], first.frame)
    else
      var init, last := turns[..|turns| - 1], turns[|turns| - 1];
      SceneAfter(su.env, su.agent, su.opts, OutputAt(last, |turns|), ApprovedAfter(su, init), last.tools, last.results,
                 SceneBefore(su, first, init))
  }

  ghost predicate AllStaged(su: Setup, first: Opening, sent: seq<Exchange>, turns: seq<Turn>) {
    && |sent| <= |turns| + 1
    && forall k :: 0 <= k < |sent| ==>
         ShowsScene(sent[k].request, first.base, SceneBefore(su, first, turns[..k]), IsLastStep(k + 1, su.maxSteps))
  }

  lemma {:induction false} AddStaged(su: Setup, first: Opening, sent: seq<Exchange>, turns: seq<Turn>, x: Exchange)
    requires AllStaged(su, first, sent, turns) && |sent| == |turns|
    requires ShowsScene(x.request, first.base, SceneBefore(su, first, turns), IsLastStep(|turns| + 1, su.maxSteps))
    ensures AllStaged(su, first, sent + [x], turns)
    ensures forall t :: AllStaged(su, first, sent + [x], turns + [t])
  {
    hide ShowsScene, SceneBefore;
    assert turns[..|turns|] == turns;
    forall t
      ensures AllStaged(su, first, sent + [x], turns + [t])
    {
      forall k | 0 <= k < |sent + [x]|
        ensures ShowsScene((sent + [x])[k].request, first.base, SceneBefore(su, first, (turns + [t])[..k]),
                           IsLastStep(k + 1, su.maxSteps))
      {
        PrefixOf(turns, t, k);
      }
    }
  }

  lemma {:induction false} SceneBehind(su: Setup, first: Opening, turns: seq<Turn>, t: Turn)
    ensures SceneBefore(su, first, turns + [t]) ==
            SceneAfter(su.env, su.agent, su.opts, OutputAt(t, |turns| + 1), ApprovedAfter(su, turns), t.tools,
                       t.results, SceneBefore(su, first, turns))
  {
    hide SceneAfter, OutputAt;
    PrefixOf(turns, t, |turns|);
  }

  /** The calls of the round a request shows, and of the rounds before it. */
  lemma {:induction false} SceneCalls(su: Setup, first: Opening, turns: seq<Turn>, sent: seq<Exchange>)
    requires AllWork(turns, sent) && turns != []
    ensures var scene, n := SceneBefore(su, first, turns), |turns|;
      && OutputAt(turns[n - 1], n) == OutputOf(sent[n - 1].reply.deltas, n)
      && scene.earlier == CallsOf(sent[..n - 1])
      && scene.round ==
           [CallMessage(OutputAt(turns[n - 1], n).text, OutputAt(turns[n - 1], n).calls)] + turns[n - 1].results
      && LastCalls(scene.round) == AsToolCalls(OutputOf(sent[n - 1].reply.deltas, n).calls)
  {
    hide OutputOf, AsToolCalls, NextFrame, IsRun, EndOfRun, ApprovedAfter, OutputAt, WorkTurn;
    var n := |turns|;
    assert WorksOn(turns[n - 1], sent[n - 1]);
    WorkTurnAnswers(sent[n - 1], turns[n - 1].tools, turns[n - 1].results, n);
    if n > 1 {
      SceneCalls(su, first, turns[..n - 1], sent);
      assert sent[..n - 1][..n - 2] == sent[..n - 2] && turns[..n - 1][n - 2] == turns[n - 2];
      assert sent[..n - 1][n - 2] == sent[n - 2];
      assert WorksOn(turns[n - 2], sent[n - 2]);
    }
  }

  /**
   * What a request of the loop shows, and nothing else: the base messages, a line for each call of the
   * rounds but the last, the last round with its results, a frame, and the notice of a last step.
   */
  lemma {:induction false} RequestsShowTheWork(
    su: Setup, first: Opening, page: Page, turns: seq<Turn>, cut: seq<Turn>, k: nat)
    returns (round: seq<Message>)
    requires WorkBooks(su, first, page, turns, cut) && k < |page.sent|
    ensures k <= |turns| && page.sent[k].request ==
            first.base + LedgerOf(if k == 0 then [] else CallsOf(page.sent[..k - 1])) + round +
            [DesktopImage(SceneBefore(su, first, turns[..k]).frame)] + Notice(k + 1 >= su.maxSteps)
    ensures k == 0 ==> round == []
    ensures k > 0 ==> Adds(round, OutputOf(page.sent[k - 1].reply.deltas, k), turns[k - 1].results)
  {
    hide AllRan, Starts, AllStarts, BegunAfter, SceneBefore, OutputOf, LedgerOf, DesktopImage, Notice, CallsOf, Adds;
    hide OutputAt, WorksOn;
    round := SceneBefore(su, first, turns[..k]).round;
    if k > 0 {
      assert forall i :: 0 <= i < k ==> turns[..k][i] == (turns + cut)[i];
      SceneCalls(su, first, turns[..k], page.sent);
      var output := OutputAt(turns[k - 1], k);
      var added := WithResultsAdds([], output, turns[k - 1].results);
      var message := CallMessage(output.text, output.calls);
      assert added == [] + added && [] + [message] == [message];
    } else {
      BlankScene(su, first);
    }
  }

  lemma {:induction false} BlankScene(su: Setup, first: Opening)
    ensures SceneBefore(su, first, []) == Scene([], [], first.frame)
  {
  }

  /** Where the loop stands after some rounds. */
  ghost predicate WorkStands(su: Setup, turns: seq<Turn>, history: seq<string>, approved: set<Key>) {
    history == CallHistory(su, turns) && approved == ApprovedAfter(su, turns)
  }

  lemma {:induction false} NothingWorked(su: Setup, first: Opening)
    ensures WorkBooks(su, first, BLANK, [], []) && WorkStands(su, [], [], {})
  {
  }

  lemma {:induction false} WorkGoesOn(
    su: Setup, first: Opening, runner: Runner, page: Page, more: Page, turns: seq<Turn>, x: Exchange,
    output: StepOutput, history: seq<string>, approved: set<Key>, run: ToolRun, results: seq<Message>,
    history': seq<string>, approved': set<Key>)
    requires su.env == runner.env && WorkBooks(su, first, page, turns, []) && WorkStands(su, turns, history, approved)
    requires ShowsScene(x.request, first.base, SceneBefore(su, first, turns), IsLastStep(|turns| + 1, su.maxSteps))
    requires |page.sent| == |turns| && more.sent == [x] && StepResult(x.reply, |turns| + 1) == Success(output)
    requires WorkDone(runner, su.agent, su.opts, output.calls, history, approved, run, results, history', approved')
    requires Worked(runner, su.agent, su.opts, output.calls, |turns| + 1, history, approved, run, more.emitted)
    ensures WorkBooks(su, first, Append(page, more), turns + [WorkTurn(x, run, results)], [])
    ensures SceneBefore(su, first, turns + [WorkTurn(x, run, results)]) ==
            SceneAfter(su.env, su.agent, su.opts, output, approved, run, results, SceneBefore(su, first, turns))
    ensures WorkStands(su, turns + [WorkTurn(x, run, results)], history', approved')
  {
    hide AllRan, AllStarts, CallHistory, ApprovedAfter, ToolsRan, ToolsBegun, EndOfRun, RunStarts, Starts, WorkTurn;
    hide AllWork, AllStaged, ShowsScene, SceneBefore, OutputAt, IsRun, Next, Fingerprints, PolicyOf, RecordsOfTurn;
    hide SentOfTurn, MessagesAfter, AllSent;
    hide AllRecords;
    var t := WorkTurn(x, run, results);
    assert turns + [] == turns && turns + [t] + [] == turns + [t];
    WorkTurnAnswers(x, run, results, |turns| + 1);
    AddStaged(su, first, page.sent, turns, x);
    AddWork(turns, page.sent, x, run, results);
    AddRan(su, turns, t);
    StateAfter(su, [], turns, t);
    ApprovedBehind(su, turns, t);
    SceneBehind(su, first, turns, t);
    StartsConcat(page.emitted, more.emitted);
  }

  lemma {:induction false} WorkIsCut(
    su: Setup, first: Opening, runner: Runner, page: Page, more: Page, turns: seq<Turn>, x: Exchange,
    output: StepOutput, history: seq<string>, approved: set<Key>, run: ToolRun)
    requires su.env == runner.env && WorkBooks(su, first, page, turns, []) && WorkStands(su, turns, history, approved)
    requires ShowsScene(x.request, first.base, SceneBefore(su, first, turns), IsLastStep(|turns| + 1, su.maxSteps))
    requires |page.sent| == |turns| && more.sent == [x] && StepResult(x.reply, |turns| + 1) == Success(output)
    requires Worked(runner, su.agent, su.opts, output.calls, |turns| + 1, history, approved, run, more.emitted)
    ensures WorkBooks(su, first, Append(page, more), turns, [WorkTurn(x, run, [])])
  {
    hide AllRan, AllStarts, CallHistory, ApprovedAfter, ToolsBegun, RunStarts, Starts, WorkTurn, AllWork, AllStaged;
    hide ShowsScene, SceneBefore, OutputAt;
    hide IsRun, Next, Fingerprints, PolicyOf, RecordsOfTurn, SentOfTurn, MessagesAfter, AllSent, AllRecords;
    assert turns + [] == turns;
    WorkTurnAnswers(x, run, [], |turns| + 1);
    AddStaged(su, first, page.sent, turns, x);
    AddWork(turns, page.sent, x, run, []);
    StateAfter(su, [], turns, WorkTurn(x, run, []));
    StartsConcat(page.emitted, more.emitted);
  }

  lemma {:induction false} WorkEnds(
    su: Setup, first: Opening, page: Page, more: Page, turns: seq<Turn>, x: Exchange)
    requires WorkBooks(su, first, page, turns, []) && Starts(more.emitted) == []
    requires |page.sent| == |turns| && more.sent == [x]
    requires ShowsScene(x.request, first.base, SceneBefore(su, first, turns), IsLastStep(|turns| + 1, su.maxSteps))
    ensures WorkBooks(su, first, Append(page, more), turns, [])
  {
    hide AllRan, AllStarts, AllStaged, ShowsScene, SceneBefore;
    AddStaged(su, first, page.sent, turns, x);
    StartsConcat(page.emitted, more.emitted);
    assert Starts(page.emitted) + [] == Starts(page.emitted);
  }

  /** One round, entered in the books. */
  method BookedRound(
    runner: Runner, state: LoopState, agent: Agent, opts: RunOptions, step: int, maxSteps: int, total: Usage,
    recent: seq<string>, ghost history: seq<string>, approved: set<Key>,
    ghost l0: seq<Exchange>, ghost e0: seq<Event>, ghost page: Page, ghost usages: seq<Usage>, ghost turns: seq<Turn>,
    ghost first: Opening)
    returns (move: Move, total': Usage, recent': seq<string>, ghost history': seq<string>, approved': set<Key>,
             ghost page': Page, ghost usages': seq<Usage>, ghost turns': seq<Turn>, ghost cut: seq<Turn>)
    requires state.Valid() && Answered(state.baseMessages)
    requires recent == Last(history, RECENT_CALLS_MAXLEN)
    requires Grown(runner.emitting, runner.provider.replies, l0, runner.provider.log, e0, runner.events, page)
    requires Ledger(page, agent, state.baseMessages, usages, state.dispatched, false) && step == |page.sent| + 1
    requires total == SumUsage(usages) && |turns| == |page.sent| && first.base == state.baseMessages
    requires var su := Setup(runner.env, agent, opts, maxSteps, |l0|);
      && WorkBooks(su, first, page, turns, []) && WorkStands(su, turns, history, approved)
      && Shows(state, SceneBefore(su, first, turns))
    modifies runner.provider, runner`events, state`ledgerLines, state`roundMessages, state`dispatched, state`screenshot
    ensures Grown(runner.emitting, runner.provider.replies, l0, runner.provider.log, e0, runner.events, page')
    ensures Ledger(page', agent, state.baseMessages, usages', state.dispatched,
                   move.Answer? && IsLastStep(step, maxSteps))
    ensures |page'.sent| == step && total' == SumUsage(usages') && state.Accounted()
    ensures move.GoOn? ==> !IsLastStep(step, maxSteps) && state.Valid()
    ensures move.GoOn? ==>
              Shows(state, SceneBefore(Setup(runner.env, agent, opts, maxSteps, |l0|), first, turns'))
    ensures move.Answer? ==> Answering(move, page'.sent, IsLastStep(step, maxSteps))
    ensures recent' == Last(history', RECENT_CALLS_MAXLEN)
    ensures WorkBooks(Setup(runner.env, agent, opts, maxSteps, |l0|), first, page', turns', cut)
    ensures move.GoOn? ==> cut == [] && |turns'| == step
    ensures move.GoOn? ==> WorkStands(Setup(runner.env, agent, opts, maxSteps, |l0|), turns', history', approved')
  {
    hide WorkBooks, Worked, WorkDone, Grown, GoodRequest, Answered, ShowsScene, SceneAfter, SceneBefore, Shows;
    hide Ledger, LoopState.Valid, LoopState.Accounted, SumUsage, IsLastStep, FinishUsages, Starts, Last;
    ghost var su := Setup(runner.env, agent, opts, maxSteps, |l0|);
    ghost var l1, e1 := runner.provider.log, runner.events;
    ghost var dispatched := state.dispatched;
    ghost var scene := SceneBefore(su, first, turns);
    var output;
    ghost var run, results, x, more;
    move, output, recent', history', approved', run, results, x, more :=
      Round(runner, state, agent, opts, step, IsLastStep(step, maxSteps), recent, history, approved, scene);
    AppendGrown(runner.emitting, runner.provider.replies, l0, l1, runner.provider.log, e0, e1, runner.events,
                page, more);
    RoundLedger(page, more, x, agent, state.baseMessages, usages, dispatched, output, IsLastStep(step, maxSteps));
    SumReported(usages, output);
    page', usages' := Append(page, more), usages + Reported(output);
    total' := if output.Success? then total.Merge(output.value.usage) else total;
    turns', cut := turns, [];
    if move.GoOn? {
      WorkGoesOn(su, first, runner, page, more, turns, x, output.value, history, approved, run, results, history',
                 approved');
      turns' := turns + [WorkTurn(x, run, results)];
    } else if output.Success? && move.Stuck? {
      WorkIsCut(su, first, runner, page, more, turns, x, output.value, history, approved, run);
      cut := [WorkTurn(x, run, [])];
    } else {
      WorkEnds(su, first, page, more, turns, x);
    }
  }

  /** The loop answers with the text of the last request. */
  predicate Answering(move: Move, sent: seq<Exchange>, isLast: bool)
    requires move.Answer?
  {
    && sent != []
    && var last := sent[|sent| - 1].reply;
       && last.ending.Finished? && move.text == OutputOf(last.deltas, |sent|).text
       && move.finish == if isLast then "max_steps" else "stop"
  }

  /**
   * The step loop. Every request shows what was dispatched before it and a single frame; the reported
   * usage is what the finished requests cost; there is one request per step; and the tools started are
   * those that the turns account for.
   */
  method Steps(runner: Runner, state: LoopState, agent: Agent, opts: RunOptions, maxSteps: int,
               ghost first: Opening)
    returns (r: Result<LoopResult, RunError>, ghost page: Page, ghost usages: seq<Usage>,
             ghost turns: seq<Turn>, ghost cut: seq<Turn>)
    requires state.Valid() && Shows(state, Scene([], [], first.frame)) && first.base == state.baseMessages
    requires state.dispatched == [] && Answered(state.baseMessages)
    modifies runner.provider, runner`events, state`ledgerLines, state`roundMessages, state`dispatched, state`screenshot
    ensures Grown(runner.emitting, runner.provider.replies, old(runner.provider.log), runner.provider.log,
                  old(runner.events), runner.events, page)
    ensures Ledger(page, agent, state.baseMessages, usages, state.dispatched,
                   r.Success? && r.value.finish == "max_steps")
    ensures 1 <= |page.sent| <= Max(1, maxSteps)
    ensures state.Accounted()
    ensures r.Success? ==> LoopEnded(r.value, page.sent, usages, maxSteps)
    ensures WorkBooks(Setup(runner.env, agent, opts, maxSteps, |old(runner.provider.log)|), first, page, turns, cut)
  {
    hide WorkBooks, WorkStands, Answered, Grown, Shows, SceneAfter;
    ghost var su := Setup(runner.env, agent, opts, maxSteps, |old(runner.provider.log)|);
    var step := 0;
    var total := NO_USAGE;
    var recent: seq<string>, approved: set<Key> := [], {};
    ghost var history: seq<string> := [];
    page, usages, turns, cut := BLANK, [], [], [];
    BlankLedger(agent, state.baseMessages, runner.emitting, runner.provider.replies, runner.provider.log,
                runner.events);
    NothingWorked(su, first);
    while true
      invariant 0 <= step < Max(1, maxSteps) && step == |page.sent| == |turns| && cut == []
      invariant state.Valid() && Shows(state, SceneBefore(su, first, turns))
      invariant Grown(runner.emitting, runner.provider.replies, old(runner.provider.log), runner.provider.log,
                      old(runner.events), runner.events, page)
      invariant Ledger(page, agent, state.baseMessages, usages, state.dispatched, false)
      invariant total == SumUsage(usages)
      invariant recent == Last(history, RECENT_CALLS_MAXLEN)
      invariant WorkBooks(su, first, page, turns, []) && WorkStands(su, turns, history, approved)
      decreases Max(1, maxSteps) - step
    {
      step := step + 1;
      var move;
      move, total, recent, history, approved, page, usages, turns, cut :=
        BookedRound(runner, state, agent, opts, step, maxSteps, total, recent, history, approved,
                    old(runner.provider.log), old(runner.events), page, usages, turns, first);
      match move
      case GoOn =>
      case Answer(text, finish) =>
        r := Success(LoopResult(text, step, total, finish));
        return;
      case Stuck(error) =>
        r := Failure(error);
        return;
    }
  }

  lemma {:induction false} BlankLedger(
      agent: Agent, base: seq<Message>, listening: bool, replies: nat -> Reply, log: seq<Exchange>, events: seq<Event>)
    ensures Ledger(BLANK, agent, base, [], [], false) && |BLANK.sent| == 0
    ensures Grown(listening, replies, log, log, events, events, BLANK)
  {
    assert log + [] == log && events + [] == events;
  }

  // ---------------------------------------------------------------- hold, recording and release

  datatype DesktopAction =
    | Hold(runId: string)
    | RecordStart(runId: string)
    | RecordStop(runId: string)
    | Release(runId: string)

  /** A reply of the desktop, an exception, or the cancellation of the run while waiting for it. */
  datatype Response = Replied(ok: bool, path: string) | Raised | Interrupted

  class Desktop {
    const responses: nat -> Response
    var log: seq<DesktopAction>

    constructor (responses: nat -> Response)
      ensures this.responses == responses && log == []
    {
      this.responses := responses;
      log := [];
    }

    method Perform(action: DesktopAction) returns (response: Response)
      modifies this
      ensures response == responses(|old(log)|) && log == old(log) + [action]
    {
      response := responses(|log|);
      log := log + [action];
    }
  }

  /** What the first screenshot gives. */
  datatype FirstScreen = Screen(jpeg: string) | ScreenFailed | ScreenInterrupted

  datatype ComputerUseError =
    | HoldFailed | RecordingFailed | NoScreenshot | DesktopInterrupted | StepFailed(error: RunError)

  datatype ComputerUseResult = ComputerUseResult(
    output: string, steps: nat, usage: Usage, finish: string, recordingPath: string)

  predicate Records(response: Response) {
    response.Replied? && response.ok
  }

  /** What a run that got its hold asks of the desktop, its next action being the `n`-th. */
  function AfterHold(runId: string, responses: nat -> Response, n: nat): seq<DesktopAction> {
    if !Records(responses(n)) then [RecordStart(runId), Release(runId)]
    else if responses(n + 1).Interrupted? then [RecordStart(runId), RecordStop(runId)]
    else [RecordStart(runId), RecordStop(runId), Release(runId)]
  }

  /** What a run asks of the desktop, given only how the desktop responds from its `n`-th action on. */
  function DesktopTrace(runId: string, responses: nat -> Response, n: nat): seq<DesktopAction> {
    [Hold(runId)] + if responses(n).Replied? then AfterHold(runId, responses, n + 1) else []
  }

  /**
   * A run that got its hold releases it exactly once, unless it is cancelled while its recording is
   * being stopped; it stops a recording exactly when one was started, and before the release.
   */
  lemma {:induction false} HoldIsReleasedUnlessStopInterrupted(runId: string, responses: nat -> Response, n: nat)
    ensures var trace := multiset(DesktopTrace(runId, responses, n));
      var held := responses(n).Replied?;
      var recorded := held && Records(responses(n + 1));
      && trace[Hold(runId)] == 1
      && trace[RecordStop(runId)] == (if recorded then 1 else 0)
      && trace[Release(runId)] == (if held && !(recorded && responses(n + 2).Interrupted?) then 1 else 0)
    ensures var trace := DesktopTrace(runId, responses, n);
      RecordStop(runId) in trace && Release(runId) in trace ==>
        trace[|trace| - 2..] == [RecordStop(runId), Release(runId)]
  {
    var trace := DesktopTrace(runId, responses, n);
    assert trace[0] == Hold(runId);
  }

  /** A second cancellation at the wrong moment leaves the hold behind. */
  lemma {:induction false} InterruptedStopKeepsHold(runId: string)
    ensures var responses := (n: nat) => if n == 2 then Interrupted else Replied(true, "");
      Release(runId) !in DesktopTrace(runId, responses, 0)
  {
  }

  /** The result belongs to the last request and embeds the recording. */
  ghost predicate ResultOk(
      result: ComputerUseResult, sent: seq<Exchange>, usages: seq<Usage>, maxSteps: int, runId: string)
  {
    && sent != []
    && var last := sent[|sent| - 1].reply;
       && last.ending.Finished?
       && result.output == RecordingOutput.AppendVideo(OutputOf(last.deltas, |sent|).text, runId)
       && Text.Find(result.output, RecordingOutput.RecordingMarker(runId)) != -1
       && result.steps == |sent| && result.usage == SumUsage(usages)
       && result.finish == if |sent| >= maxSteps then "max_steps" else "stop"
  }

  /** The frame of the first request. */
  function FirstFrame(screen: FirstScreen): Frame {
    Frame(INITIAL_DESKTOP_TEXT, if screen.Screen? then screen.jpeg else "")
  }

  /** Where the recording is, by the reply to its start. */
  function RecordedPath(started: Response, runId: string): string {
    if started.Replied? && started.path != "" then started.path
    else RecordingOutput.RECORD_DIR + "/" + runId + "/session.mp4"
  }

  /** What happens between hold and release, and whether a recording was started. */
  method WhileHeld(runner: Runner, desktop: Desktop, state: LoopState, agent: Agent, opts: RunOptions, maxSteps: int,
                   runId: string, screen: FirstScreen)
    returns (r: Result<ComputerUseResult, ComputerUseError>, recording: bool, ghost page: Page,
             ghost usages: seq<Usage>, ghost turns: seq<Turn>, ghost cut: seq<Turn>)
    requires state.Valid() && state.dispatched == [] && Answered(state.baseMessages)
    requires state.ledgerLines == [] && state.roundMessages == []
    modifies runner.provider, runner`events, desktop
    modifies state`ledgerLines, state`roundMessages, state`dispatched, state`screenshot
    ensures desktop.log == old(desktop.log) + [RecordStart(runId)]
    ensures recording == Records(desktop.responses(|old(desktop.log)|))
    ensures Grown(runner.emitting, runner.provider.replies, old(runner.provider.log), runner.provider.log,
                  old(runner.events), runner.events, page)
    ensures Ledger(page, agent, state.baseMessages, usages, state.dispatched,
                   r.Success? && r.value.finish == "max_steps")
    ensures |page.sent| <= Max(1, maxSteps) && state.Accounted()
    ensures r.Success? ==> recording && ResultOk(r.value, page.sent, usages, maxSteps, runId)
    ensures r.Success? ==>
              r.value.recordingPath == RecordedPath(desktop.responses(|old(desktop.log)|), runId)
    ensures WorkBooks(Setup(runner.env, agent, opts, maxSteps, |old(runner.provider.log)|),
                      Opening(state.baseMessages, FirstFrame(screen)), page, turns, cut)
  {
    hide WorkBooks, Grown, Ledger, Answered, Text.Find, OutputOf, SumUsage, RoundOk, Lines, CallsIn, FrameMessage;
    hide Shows;
    hide RecordingOutput.AppendVideo, RecordingOutput.RecordingMarker;
    page, usages, turns, cut := BLANK, [], [], [];
    BlankLedger(agent, state.baseMessages, runner.emitting, runner.provider.replies, runner.provider.log,
                runner.events);
    NothingWorked(Setup(runner.env, agent, opts, maxSteps, |old(runner.provider.log)|),
                  Opening(state.baseMessages, FirstFrame(screen)));
    var started := desktop.Perform(RecordStart(runId));
    recording := started.Replied? && started.ok;
    if !recording {
      r := Failure(if started.Interrupted? then DesktopInterrupted else RecordingFailed);
      return;
    }
    var path := if started.path != "" then started.path else RecordingOutput.RecordingPath(runId);
    if !screen.Screen? || screen.jpeg == "" {
      r := Failure(if screen.ScreenInterrupted? then DesktopInterrupted else NoScreenshot);
      return;
    }
    state.SetScreenshot(INITIAL_DESKTOP_TEXT, screen.jpeg);
    ShowsOpening(state, FirstFrame(screen));
    var result;
    result, page, usages, turns, cut :=
      Steps(runner, state, agent, opts, maxSteps, Opening(state.baseMessages, FirstFrame(screen)));
    if result.Failure? {
      r := Failure(StepFailed(result.error));
      return;
    }
    RecordingOutput.MarkerOccurs(result.value.text, runId);
    r := Success(ComputerUseResult(
                   RecordingOutput.AppendVideo(result.value.text, runId),
                   result.value.steps, result.value.usage, result.value.finish, path));
  }

  /** Stops the recording and gives the hold back; a cancellation cuts this short. */
  method CleanUp(desktop: Desktop, runId: string, recording: bool) returns (interrupted: bool)
    modifies desktop
    ensures var n := |old(desktop.log)|;
      var cut := recording && desktop.responses(n).Interrupted?;
      && desktop.log ==
           old(desktop.log) + (if recording then [RecordStop(runId)] else []) + (if cut then [] else [Release(runId)])
      && interrupted == (cut || desktop.responses(|desktop.log| - 1).Interrupted?)
  {
    if recording {
      var stopped := desktop.Perform(RecordStop(runId));
      if stopped.Interrupted? {
        return true;
      }
    }
    var released := desktop.Perform(Release(runId));
    return released.Interrupted?;
  }

  /** The messages a computer-use run starts from; its prompt carries no message id. */
  function BaseMessages(runner: Runner, agent: Agent, opts: RunOptions, promptText: string): seq<Message> {
    [SystemMessage(runner.env.systemPrompt(agent))] + opts.history + [UserMessage(runner.env.hydrate(promptText), "")]
  }

  /**
   * A computer-use run from its hold to its release. Whatever happens in between, what it asks of
   * the desktop depends on the desktop's responses alone.
   */
  method Run(runner: Runner, desktop: Desktop, promptText: string, agent: Agent, opts: RunOptions, maxSteps: int,
             runId: string, screen: FirstScreen)
    returns (r: Result<ComputerUseResult, ComputerUseError>,
             ghost page: Page, ghost usages: seq<Usage>, ghost dispatched: seq<ToolCall>, ghost refused: bool,
             ghost turns: seq<Turn>, ghost cut: seq<Turn>)
    requires Answered(opts.history)
    modifies runner.provider, runner`events, desktop
    ensures desktop.log == old(desktop.log) + DesktopTrace(runId, desktop.responses, |old(desktop.log)|)
    ensures Grown(runner.emitting, runner.provider.replies, old(runner.provider.log), runner.provider.log,
                  old(runner.events), runner.events, page)
    ensures Ledger(page, agent, BaseMessages(runner, agent, opts, promptText), usages, dispatched, refused)
    ensures r.Success? ==> refused == (r.value.finish == "max_steps")
    ensures |page.sent| <= Max(1, maxSteps)
    ensures r.Success? ==> ResultOk(r.value, page.sent, usages, maxSteps, runId)
    ensures r.Success? ==>
              r.value.recordingPath == RecordedPath(desktop.responses(|old(desktop.log)| + 1), runId)
    ensures WorkBooks(Setup(runner.env, agent, opts, maxSteps, |old(runner.provider.log)|),
                      Opening(BaseMessages(runner, agent, opts, promptText), FirstFrame(screen)), page, turns, cut)
  {
    hide WorkBooks, Ledger, Grown, ResultOk, Answered, AfterHold, RoundOk, Lines, CallsIn;
    var system, prompt :=
      SystemMessage(runner.env.systemPrompt(agent)), UserMessage(runner.env.hydrate(promptText), "");
    BaseAnswered(system, opts.history, prompt);
    var state := new LoopState([system] + opts.history + [prompt]);
    var held := desktop.Perform(Hold(runId));
    if !held.Replied? {
      r := Failure(if held.Interrupted? then DesktopInterrupted else HoldFailed);
      page, usages, dispatched, refused, turns, cut := BLANK, [], [], false, [], [];
      NothingWorked(Setup(runner.env, agent, opts, maxSteps, |old(runner.provider.log)|),
                  Opening(state.baseMessages, FirstFrame(screen)));
      BlankLedger(agent, state.baseMessages, runner.emitting, runner.provider.replies, runner.provider.log,
                  runner.events);
      return;
    }
    r, page, usages, refused, turns, cut :=
      HoldThenRelease(runner, desktop, state, agent, opts, maxSteps, runId, screen);
    dispatched := state.dispatched;
  }

  /** A run that got its hold, up to its release. */
  method HoldThenRelease(
    runner: Runner, desktop: Desktop, state: LoopState, agent: Agent, opts: RunOptions, maxSteps: int,
    runId: string, screen: FirstScreen)
    returns (r: Result<ComputerUseResult, ComputerUseError>, ghost page: Page, ghost usages: seq<Usage>,
             ghost refused: bool, ghost turns: seq<Turn>, ghost cut: seq<Turn>)
    requires state.Valid() && state.dispatched == [] && Answered(state.baseMessages)
    requires state.ledgerLines == [] && state.roundMessages == []
    modifies runner.provider, runner`events, desktop
    modifies state`ledgerLines, state`roundMessages, state`dispatched, state`screenshot
    ensures desktop.log == old(desktop.log) + AfterHold(runId, desktop.responses, |old(desktop.log)|)
    ensures Grown(runner.emitting, runner.provider.replies, old(runner.provider.log), runner.provider.log,
                  old(runner.events), runner.events, page)
    ensures Ledger(page, agent, state.baseMessages, usages, state.dispatched, refused)
    ensures r.Success? ==> refused == (r.value.finish == "max_steps")
    ensures |page.sent| <= Max(1, maxSteps) && state.Accounted()
    ensures r.Success? ==> ResultOk(r.value, page.sent, usages, maxSteps, runId)
    ensures r.Success? ==>
              r.value.recordingPath == RecordedPath(desktop.responses(|old(desktop.log)|), runId)
    ensures WorkBooks(Setup(runner.env, agent, opts, maxSteps, |old(runner.provider.log)|),
                      Opening(state.baseMessages, FirstFrame(screen)), page, turns, cut)
  {
    hide WorkBooks, RecordedPath, Ledger, Grown, Answered, ResultOk, LoopState.Valid, LoopState.Accounted;
    var recording;
    r, recording, page, usages, turns, cut := WhileHeld(runner, desktop, state, agent, opts, maxSteps, runId, screen);
    refused := r.Success? && r.value.finish == "max_steps";
    var interrupted := CleanUp(desktop, runId, recording);
    if interrupted {
      r := Failure(DesktopInterrupted);
    }
  }

  lemma {:induction false} BaseAnswered(system: Message, history: seq<Message>, prompt: Message)
    requires Answered(history) && system.calls == [] && prompt.calls == [] && prompt.role.User?
    ensures Answered([system] + history + [prompt])
  {
    assert [prompt][1..] == [];
    AnsweredAppend(history, [prompt]);
    AnsweredPrepend([system], history + [prompt]);
    assert [system] + history + [prompt] == [system] + (history + [prompt]);
  }
}
