/**
 * The step loop as a trace of turns: everything a turn sent, which compactions it tried, how its tools
 * were run, and what it led to.
 */
module RunTrace {
  import opened Wrappers
  import opened Messages
  import opened Providers
  import opened StreamAssembly
  import opened ProviderRetry
  import opened Compaction
  import opened CompactionTheorems
  import opened RunLog
  import opened RunTools
  import opened ToolDispatch
  import Text

  const DEFAULT_MAX_STEPS := 100
  const MAX_STEPS_PROMPT := "CRITICAL - MAXIMUM STEPS REACHED"

  datatype RunError = RunCancelled | ProviderFailed(error: ProviderError) | HistoryTooLarge | InvalidRun

  datatype RunResult = RunResult(output: string, steps: nat, usage: Usage, finish: string)

  function StepResult(reply: Reply, step: int): Result<StepOutput, RunError> {
    match reply.ending
    case Finished => Success(OutputOf(reply.deltas, step))
    case Raised(error) => Failure(ProviderFailed(error))
    case Cancelled => Failure(RunCancelled)
  }

  function CallMessage(text: string, calls: seq<PendingCall>): Message {
    Message(Assistant, if text == "" then NoContent else Plain(text), AsToolCalls(calls), "", "")
  }

  predicate IsLastStep(step: int, maxSteps: int) {
    step >= maxSteps
  }

  /** The last allowed step is told to answer in text only. */
  function LastStepRequest(messages: seq<Message>, isLast: bool): seq<Message> {
    if isLast then messages + [AssistantText(MAX_STEPS_PROMPT)] else messages
  }

  const CONTENT_FILTER_NOTICE :=
    "\n\n[Notice: the response was stopped by a content filter; tool calls were skipped.]"
  const LENGTH_TRUNCATION_NOTICE := "\n\n[Notice: the response was truncated due to length limits.]"

  datatype RoundEnd = Continue(messages: seq<Message>) | Finish(output: string, finish: string) | Fail(error: RunError)

  /** What a finished step ends the run with, if it does. */
  function EndOf(output: StepOutput, isLast: bool): Option<(string, string)> {
    if output.finish == "content_filter" then Some((output.text + CONTENT_FILTER_NOTICE, "content_filter"))
    else if output.finish == "length" then Some((output.text + LENGTH_TRUNCATION_NOTICE, "length"))
    else if isLast then Some((output.text, "max_steps"))
    else if output.calls == [] then Some((output.text, "stop"))
    else None
  }

  /** The provider or the step limit ends the run, whatever the step asks for. */
  predicate StopsHere(output: StepOutput, isLast: bool) {
    isLast || output.finish == "content_filter" || output.finish == "length"
  }

  // ---------------------------------------------------------------- the sendings of one request

  predicate SentBy(x: Exchange, agent: Agent, request: seq<Message>) {
    x.owner == agent && x.request == request
  }

  /** The exchange failed with an error worth retrying. */
  predicate IsTransient(x: Exchange) {
    x.reply.ending.Raised? && IsRetryable(x.reply.ending.error)
  }

  /**
   * One to six sendings of the same request. All but the last failed transiently; when the last one
   * did too, all six were used.
   */
  ghost predicate Retried(sent: seq<Exchange>, agent: Agent, request: seq<Message>) {
    && 1 <= |sent| <= 6
    && (forall x :: x in sent ==> SentBy(x, agent, request))
    && (forall x :: x in sent[..|sent| - 1] ==> IsTransient(x))
    && (IsTransient(sent[|sent| - 1]) ==> |sent| == 6)
  }

  /** The request is sent when this point is reached, and otherwise not. */
  ghost predicate SentWhen(sent: seq<Exchange>, reached: bool, agent: Agent, request: seq<Message>) {
    if reached then Retried(sent, agent, request) else sent == []
  }

  /** What the last sending came to. */
  function LastResult(sent: seq<Exchange>, step: int): Result<StepOutput, RunError> {
    if sent == [] then Failure(RunCancelled) else StepResult(sent[|sent| - 1].reply, step)
  }

  predicate IsOverflowFailure(error: RunError) {
    error.ProviderFailed? && error.error.overflowText
  }

  /** The provider has refused the request because the context overflows. */
  predicate Overflowed(sent: seq<Exchange>, step: int) {
    LastResult(sent, step).Failure? && IsOverflowFailure(LastResult(sent, step).error)
  }

  // ---------------------------------------------------------------- attempts to compact

  /**
   * A run of the compaction agent: what it was asked, where in the provider's log it begins, its turns
   * and requests, and what came of it.
   */
  datatype Child = Child(
    prompt: string, at: nat, result: Result<RunResult, RunError>, turns: seq<Turn>, sent: seq<Exchange>)

  /** A point of the loop where the list is compacted if need be. */
  datatype Attempt = NotTried | Summarised(child: Child)

  /** The trimmed output of a child that finished. */
  function Summary(a: Attempt): string {
    if a.Summarised? && a.child.result.Success? then Text.Strip(a.child.result.value.output) else ""
  }

  /** The cancellation of the child cancels the run. */
  predicate Interrupted(a: Attempt) {
    a.Summarised? && a.child.result == Failure(RunCancelled)
  }

  /** What the compaction agent is asked. */
  function SummaryPrompt(env: Environment, ms: seq<Message>, limits: ModelLimits): string {
    env.compactionPrompt(SelectSpec(ms, limits).head, FindPreviousSummary(ms))
  }

  /** There is something to summarise, and the agent is not the one that summarises. */
  predicate AsksForSummary(env: Environment, agent: Agent, opts: RunOptions, ms: seq<Message>) {
    && !agent.CompactionAgent? && SelectSpec(ms, opts.limits).head != []
    && Text.Strip(SummaryPrompt(env, ms, opts.limits)) != ""
  }

  /** A child is asked exactly when a compaction is due and there is something to summarise. */
  predicate AttemptOk(
      env: Environment, agent: Agent, opts: RunOptions, ms: seq<Message>, due: bool, at: nat, a: Attempt)
  {
    && (a.Summarised? <==> due && AsksForSummary(env, agent, opts, ms))
    && (a.Summarised? ==> a.child.prompt == SummaryPrompt(env, ms, opts.limits) && a.child.at == at)
  }

  /** The list is rewritten exactly when the child gave a summary. */
  function After(ms: seq<Message>, a: Attempt, limits: ModelLimits, overflow: bool): seq<Message> {
    if Summary(a) == "" then ms else Compacted(ms, Summary(a), limits, overflow)
  }

  /** The summary as it is recorded. */
  function Clip(summary: string): string {
    if |summary| <= 32_768 then summary else summary[..32_768]
  }

  /** The record of an attempt that rewrote the list. */
  function RecordOf(ms: seq<Message>, a: Attempt, limits: ModelLimits, overflow: bool): seq<Event> {
    if Summary(a) == "" then []
    else [CompactionDone(Clip(Summary(a)), overflow, ApplyCompaction(ms, Summary(a), limits).1)]
  }

  function SentIn(a: Attempt): seq<Exchange> {
    if a.Summarised? then a.child.sent else []
  }

  /** The last step left too little room for another one. */
  predicate Overfull(last: Usage, opts: RunOptions) {
    IsOverflow(last.prompt, last.completion, last.total, opts.limits, opts.autoCompact)
  }

  // ---------------------------------------------------------------- the provider part of a turn

  /**
   * What a turn sends for its answer: the sendings of the request; after a context overflow an attempt
   * to compact and the sendings after it; after a length stop a last attempt and the sendings after it.
   */
  datatype Sendings = Sendings(
    first: seq<Exchange>, onOverflow: Attempt, second: seq<Exchange>, onLength: Attempt, third: seq<Exchange>)

  const NOTHING_SENT := Sendings([], NotTried, [], NotTried, [])

  /** Everything sent, the requests of children included. */
  function SentFor(s: Sendings): seq<Exchange> {
    s.first + (SentIn(s.onOverflow) + s.second) + (SentIn(s.onLength) + s.third)
  }

  /** What the step comes to once an overflow has been dealt with. */
  function OverflowOutcome(first: seq<Exchange>, onOverflow: Attempt, second: seq<Exchange>, step: int)
    : Result<StepOutput, RunError>
  {
    if !Overflowed(first, step) then LastResult(first, step)
    else if Interrupted(onOverflow) then Failure(RunCancelled)
    else if Overflowed(second, step) then Failure(HistoryTooLarge)
    else LastResult(second, step)
  }

  predicate LengthStopped(r: Result<StepOutput, RunError>) {
    r.Success? && r.value.finish == "length"
  }

  /** And once a length stop has been dealt with. */
  function LengthOutcome(r: Result<StepOutput, RunError>, onLength: Attempt, third: seq<Exchange>, step: int)
    : Result<StepOutput, RunError>
  {
    if !LengthStopped(r) then r
    else if Interrupted(onLength) then Failure(RunCancelled)
    else if Summary(onLength) == "" then r
    else LastResult(third, step)
  }

  function AnswerTo(s: Sendings, step: int): Result<StepOutput, RunError> {
    LengthOutcome(OverflowOutcome(s.first, s.onOverflow, s.second, step), s.onLength, s.third, step)
  }

  /** The list after an overflow, and after a length stop. */
  function Between(ms: seq<Message>, s: Sendings, limits: ModelLimits): seq<Message> {
    After(ms, s.onOverflow, limits, true)
  }

  function ShownBy(ms: seq<Message>, s: Sendings, limits: ModelLimits): seq<Message> {
    After(Between(ms, s, limits), s.onLength, limits, false)
  }

  function RecordsFor(ms: seq<Message>, s: Sendings, limits: ModelLimits): seq<Event> {
    RecordOf(ms, s.onOverflow, limits, true) + RecordOf(Between(ms, s, limits), s.onLength, limits, false)
  }

  /** After a context overflow the list is compacted and the request sent again, once. */
  ghost predicate OverflowOk(
    env: Environment, agent: Agent, opts: RunOptions, ms: seq<Message>, step: int, isLast: bool, n: nat,
    first: seq<Exchange>, onOverflow: Attempt, second: seq<Exchange>)
  {
    && AttemptOk(env, agent, opts, ms, Overflowed(first, step), n, onOverflow)
    && SentWhen(second, Overflowed(first, step) && !Interrupted(onOverflow), agent,
                LastStepRequest(After(ms, onOverflow, opts.limits, true), isLast))
  }

  /** After a length stop the list is compacted and, if that changed it, the request sent again, once. */
  ghost predicate LengthOk(
    env: Environment, agent: Agent, opts: RunOptions, ms: seq<Message>, isLast: bool, n: nat,
    r: Result<StepOutput, RunError>, onLength: Attempt, third: seq<Exchange>)
  {
    && AttemptOk(env, agent, opts, ms, LengthStopped(r), n, onLength)
    && SentWhen(third, Summary(onLength) != "", agent,
                LastStepRequest(After(ms, onLength, opts.limits, false), isLast))
  }

  /** The sendings of a step that begins with these messages and the `n`-th request. */
  ghost predicate SendingsOk(
    env: Environment, agent: Agent, opts: RunOptions, ms: seq<Message>, step: int, isLast: bool, n: nat, s: Sendings)
  {
    && Retried(s.first, agent, LastStepRequest(ms, isLast))
    && OverflowOk(env, agent, opts, ms, step, isLast, n + |s.first|, s.first, s.onOverflow, s.second)
    && LengthOk(env, agent, opts, Between(ms, s, opts.limits), isLast,
                n + |s.first| + |SentIn(s.onOverflow) + s.second|,
                OverflowOutcome(s.first, s.onOverflow, s.second, step), s.onLength, s.third)
  }

  // ---------------------------------------------------------------- turns

  /**
   * One turn of the loop: an early attempt to compact, the sendings, how the calls were run with which
   * results, and a late attempt.
   */
  datatype Turn = Turn(early: Attempt, sendings: Sendings, tools: ToolRun, results: seq<Message>, late: Attempt)

  function BeforeTools(t: Turn): seq<Exchange> {
    SentIn(t.early) + SentFor(t.sendings)
  }

  function SentOfTurn(t: Turn): seq<Exchange> {
    BeforeTools(t) + SentIn(t.late)
  }

  /** What the provider part of a turn comes to. */
  function AnswerOf(t: Turn, step: int): Result<StepOutput, RunError> {
    AnswerTo(t.sendings, step)
  }

  const NO_OUTPUT := StepOutput("", [], NO_USAGE, "")

  function OutputAt(t: Turn, step: int): StepOutput {
    if AnswerOf(t, step).Success? then AnswerOf(t, step).value else NO_OUTPUT
  }

  /** The list the turn sends, and the one its last request shows. */
  function Begun(start: seq<Message>, t: Turn, limits: ModelLimits): seq<Message> {
    After(start, t.early, limits, false)
  }

  function Shown(start: seq<Message>, t: Turn, limits: ModelLimits): seq<Message> {
    ShownBy(Begun(start, t, limits), t.sendings, limits)
  }

  function WithResults(ms: seq<Message>, output: StepOutput, results: seq<Message>): seq<Message> {
    ms + [CallMessage(output.text, output.calls)] + results
  }

  /** The list with what the step has answered. */
  function WithAnswer(ms: seq<Message>, output: StepOutput, results: seq<Message>): seq<Message> {
    if output.calls == [] then ms + [AssistantText(output.text)] else WithResults(ms, output, results)
  }

  function Extended(start: seq<Message>, t: Turn, step: int, limits: ModelLimits): seq<Message> {
    WithAnswer(Shown(start, t, limits), OutputAt(t, step), t.results)
  }

  /** The messages the next turn starts from. */
  function Next(start: seq<Message>, t: Turn, step: int, limits: ModelLimits): seq<Message> {
    After(Extended(start, t, step, limits), t.late, limits, false)
  }

  /** The turn gets as far as its tools. */
  predicate RunsTools(t: Turn, step: int, isLast: bool) {
    AnswerOf(t, step).Success? && !StopsHere(OutputAt(t, step), isLast) && OutputAt(t, step).calls != []
  }

  /** The run is cancelled while the tools of the turn are running. */
  predicate CutShort(env: Environment, t: Turn, step: int, isLast: bool) {
    RunsTools(t, step, isLast) && env.cancels(t.tools.moment)
  }

  /** The step has left too little room, and the run may go on. */
  predicate LateDue(env: Environment, opts: RunOptions, t: Turn, step: int, isLast: bool) {
    && AnswerOf(t, step).Success? && !StopsHere(OutputAt(t, step), isLast) && !CutShort(env, t, step, isLast)
    && Overfull(OutputAt(t, step).usage, opts)
  }

  /** The early attempt, made from the `n`-th request on, and the sendings. */
  ghost predicate ProviderOk(
    env: Environment, agent: Agent, opts: RunOptions, start: seq<Message>, step: int, isLast: bool, n: nat, t: Turn)
  {
    && AttemptOk(env, agent, opts, start, step == 1 && Overfull(opts.lastStep, opts), n, t.early)
    && if Interrupted(t.early) then t.sendings == NOTHING_SENT
       else SendingsOk(env, agent, opts, Begun(start, t, opts.limits), step, isLast, n + |SentIn(t.early)|, t.sendings)
  }

  /** The calls are run at this moment, and to their end unless the run is cancelled. */
  ghost predicate CallsRan(
    env: Environment, agent: Agent, opts: RunOptions, calls: seq<PendingCall>, history: seq<string>, approved: set<Key>,
    moment: nat, run: ToolRun, results: seq<Message>)
  {
    && run.moment == moment
    && ToolsBegun(env, agent, opts, calls, history, approved, run)
    && if env.cancels(moment) then results == []
       else ToolsRan(env, agent, opts, calls, history, approved, run, results)
  }

  /** The calls of the turn are run when it gets that far. */
  ghost predicate ToolsOk(
    env: Environment, agent: Agent, opts: RunOptions, history: seq<string>, approved: set<Key>, step: int, isLast: bool,
    n: nat, t: Turn)
  {
    if !RunsTools(t, step, isLast) then t.tools == NO_TOOLS && t.results == []
    else CallsRan(env, agent, opts, OutputAt(t, step).calls, history, approved, n + |BeforeTools(t)|, t.tools,
                  t.results)
  }

  /** A late compaction is due when the step has left too little room and the run may go on. */
  ghost predicate LateOk(
    env: Environment, agent: Agent, opts: RunOptions, start: seq<Message>, step: int, isLast: bool, n: nat, t: Turn)
  {
    AttemptOk(env, agent, opts, Extended(start, t, step, opts.limits), LateDue(env, opts, t, step, isLast),
              n + |BeforeTools(t)|, t.late)
  }

  // ---------------------------------------------------------------- traces

  /** What a run is set up with, and the number of requests the provider has seen before it. */
  datatype Setup = Setup(env: Environment, agent: Agent, opts: RunOptions, maxSteps: int, at: nat)

  /** A turn as the loop performs it, given the state it starts from. */
  ghost predicate TurnOk(
    su: Setup, start: seq<Message>, history: seq<string>, approved: set<Key>, step: int, n: nat, t: Turn)
  {
    var isLast := IsLastStep(step, su.maxSteps);
    && ProviderOk(su.env, su.agent, su.opts, start, step, isLast, n, t)
    && ToolsOk(su.env, su.agent, su.opts, history, approved, step, isLast, n, t)
    && LateOk(su.env, su.agent, su.opts, start, step, isLast, n, t)
  }

  /** What a turn leads to. */
  function TurnEnd(su: Setup, start: seq<Message>, t: Turn, step: int): RoundEnd {
    var isLast, output := IsLastStep(step, su.maxSteps), OutputAt(t, step);
    if AnswerOf(t, step).Failure? then Fail(AnswerOf(t, step).error)
    else if StopsHere(output, isLast) then Finish(EndOf(output, isLast).value.0, EndOf(output, isLast).value.1)
    else if CutShort(su.env, t, step, isLast) || Interrupted(t.late) then Fail(RunCancelled)
    else if output.calls == [] then Finish(output.text, "stop")
    else Continue(Next(start, t, step, su.opts.limits))
  }

  /** The messages after some turns. */
  function MessagesAfter(initial: seq<Message>, turns: seq<Turn>, limits: ModelLimits): seq<Message> {
    if turns == [] then initial
    else Next(MessagesAfter(initial, turns[..|turns| - 1], limits), turns[|turns| - 1], |turns|, limits)
  }

  /** Everything some turns sent. */
  function AllSent(turns: seq<Turn>): seq<Exchange> {
    if turns == [] then [] else AllSent(turns[..|turns| - 1]) + SentOfTurn(turns[|turns| - 1])
  }

  function CallsAt(turns: seq<Turn>, k: nat): seq<PendingCall>
    requires k < |turns|
  {
    OutputAt(turns[k], k + 1).calls
  }

  /** The fingerprints of all calls of some turns. */
  function CallHistory(su: Setup, turns: seq<Turn>): seq<string> {
    if turns == [] then []
    else
      CallHistory(su, turns[..|turns| - 1]) +
      Fingerprints(PolicyOf(su.env, su.agent, su.opts), CallsAt(turns, |turns| - 1))
  }

  /** The keys approved once in some turns. */
  function ApprovedAfter(su: Setup, turns: seq<Turn>): set<Key> {
    if turns == [] then {}
    else
      var approved := ApprovedAfter(su, turns[..|turns| - 1]);
      var calls, run := CallsAt(turns, |turns| - 1), turns[|turns| - 1].tools;
      if IsRun(su.env, su.agent, su.opts, calls, approved, run)
      then EndOfRun(su.env, su.agent, su.opts, calls, approved, run).approved
      else approved
  }

  /** The tool starts that the last of some turns announces. */
  function StartsOfTurn(su: Setup, turns: seq<Turn>, t: Turn): seq<Event> {
    var step := |turns| + 1;
    RunStarts(su.env, su.agent, su.opts, OutputAt(t, step).calls, ApprovedAfter(su, turns), t.tools, step)
  }

  /** The tool starts that some turns announce. */
  function AllStarts(su: Setup, turns: seq<Turn>): seq<Event> {
    if turns == [] then []
    else
      var init := turns[..|turns| - 1];
      AllStarts(su, init) + StartsOfTurn(su, init, turns[|turns| - 1])
  }

  /** The compactions a turn records: one for each attempt that rewrote the list. */
  function RecordsOfTurn(start: seq<Message>, t: Turn, step: int, limits: ModelLimits): seq<Event> {
    RecordOf(start, t.early, limits, false) + RecordsFor(Begun(start, t, limits), t.sendings, limits) +
    RecordOf(Extended(start, t, step, limits), t.late, limits, false)
  }

  /** The compactions some turns record. */
  function AllRecords(initial: seq<Message>, turns: seq<Turn>, limits: ModelLimits): seq<Event> {
    if turns == [] then []
    else
      var init := turns[..|turns| - 1];
      AllRecords(initial, init, limits) +
      RecordsOfTurn(MessagesAfter(initial, init, limits), turns[|turns| - 1], |turns|, limits)
  }

  /** The turn fits behind the others. */
  ghost predicate Follows(su: Setup, initial: seq<Message>, turns: seq<Turn>, t: Turn) {
    TurnOk(su, MessagesAfter(initial, turns, su.opts.limits), CallHistory(su, turns), ApprovedAfter(su, turns),
           |turns| + 1, su.at + |AllSent(turns)|, t)
  }

  /** What it leads to there. */
  function EndBehind(su: Setup, initial: seq<Message>, turns: seq<Turn>, t: Turn): RoundEnd {
    TurnEnd(su, MessagesAfter(initial, turns, su.opts.limits), t, |turns| + 1)
  }

  ghost predicate TurnAt(su: Setup, initial: seq<Message>, turns: seq<Turn>, k: nat)
    requires k < |turns|
  {
    Follows(su, initial, turns[..k], turns[k])
  }

  function EndOfTurn(su: Setup, initial: seq<Message>, turns: seq<Turn>, k: nat): RoundEnd
    requires k < |turns|
  {
    EndBehind(su, initial, turns[..k], turns[k])
  }

  /** Turn after turn starts from what the one before left; all but the last go on. */
  ghost predicate IsTrace(su: Setup, initial: seq<Message>, turns: seq<Turn>) {
    && (forall k :: 0 <= k < |turns| ==> TurnAt(su, initial, turns, k))
    && (forall k :: 0 <= k < |turns| - 1 ==> EndOfTurn(su, initial, turns, k).Continue?)
  }

  /** All turns go on. */
  ghost predicate IsOngoing(su: Setup, initial: seq<Message>, turns: seq<Turn>) {
    && (forall k :: 0 <= k < |turns| ==> TurnAt(su, initial, turns, k))
    && (forall k :: 0 <= k < |turns| ==> EndOfTurn(su, initial, turns, k).Continue?)
  }

  /** The turns lead to this result, or to this failure; a run that is not valid has none. */
  ghost predicate Traced(r: Result<RunResult, RunError>, su: Setup, initial: seq<Message>, turns: seq<Turn>) {
    && IsTrace(su, initial, turns)
    && (turns == [] <==> r == Failure(InvalidRun))
    && (turns != [] ==>
          var end := EndOfTurn(su, initial, turns, |turns| - 1);
          match r
          case Failure(error) => end == Fail(error)
          case Success(result) =>
            && end == Finish(result.output, result.finish) && result.steps == |turns|
            && result.usage == SumUsage(Billed(AllSent(turns), su.agent)))
  }

  // ---------------------------------------------------------------- the runs of the compaction agent

  /** The limit of the run, or the default; no agent definition sets one of its own. */
  function EffectiveMaxSteps(opts: RunOptions): int {
    if opts.maxSteps.None? || opts.maxSteps.value == 0 then DEFAULT_MAX_STEPS else opts.maxSteps.value
  }

  /** A compaction child starts without history, approves everything and never compacts. */
  function ChildOptions(): RunOptions {
    RunOptions(None, [], "", 0, 1, true, false, false, ModelLimits(0, 0), NO_USAGE)
  }

  function PromptMessage(env: Environment, promptText: string, opts: RunOptions): Message {
    UserMessage(env.hydrate(promptText), opts.currentUserMessageId)
  }

  /** The messages a run starts from. */
  function InitialMessages(env: Environment, agent: Agent, opts: RunOptions, prompt: Message): seq<Message> {
    [SystemMessage(env.systemPrompt(agent))] + opts.history + [prompt]
  }

  /** What the run of a child is set up with. */
  function ChildSetup(env: Environment, at: nat): Setup {
    Setup(env, CompactionAgent, ChildOptions(), EffectiveMaxSteps(ChildOptions()), at)
  }

  function ChildMessages(env: Environment, prompt: string): seq<Message> {
    InitialMessages(env, CompactionAgent, ChildOptions(), PromptMessage(env, prompt, ChildOptions()))
  }

  /** The child is a run of the compaction agent on its prompt. */
  ghost predicate ChildOk(env: Environment, child: Child) {
    && Traced(child.result, ChildSetup(env, child.at), ChildMessages(env, child.prompt), child.turns)
    && AllSent(child.turns) == child.sent && child.turns != []
  }

  ghost predicate AttemptTraced(env: Environment, a: Attempt) {
    a.Summarised? ==> ChildOk(env, a.child)
  }

  ghost predicate TurnTraced(env: Environment, t: Turn) {
    AttemptTraced(env, t.early) && SendingsTraced(env, t.sendings) && AttemptTraced(env, t.late)
  }

  ghost predicate SendingsTraced(env: Environment, s: Sendings) {
    AttemptTraced(env, s.onOverflow) && AttemptTraced(env, s.onLength)
  }

  /** Every child that some turns asked is a run of the compaction agent. */
  ghost predicate AllTraced(env: Environment, turns: seq<Turn>) {
    forall t :: t in turns ==> TurnTraced(env, t)
  }

  // ---------------------------------------------------------------- building traces

  lemma {:induction false} NoTurns(su: Setup, initial: seq<Message>)
    ensures IsOngoing(su, initial, []) && MessagesAfter(initial, [], su.opts.limits) == initial
    ensures CallHistory(su, []) == [] && ApprovedAfter(su, []) == {} && AllStarts(su, []) == []
    ensures AllSent([]) == [] && AllRecords(initial, [], su.opts.limits) == [] && AllTraced(su.env, [])
  {
  }

  lemma {:induction false} PrefixOf(turns: seq<Turn>, t: Turn, k: nat)
    requires k <= |turns|
    ensures (turns + [t])[..k] == turns[..k]
    ensures k < |turns| ==> (turns + [t])[k] == turns[k]
    ensures k == |turns| ==> (turns + [t])[..k] == turns && (turns + [t])[k] == t
  {
  }

  /** A turn enters the trace, which goes on or ends with it. */
  lemma {:induction false} EnterTurn(su: Setup, initial: seq<Message>, turns: seq<Turn>, t: Turn)
    requires IsOngoing(su, initial, turns) && Follows(su, initial, turns, t)
    ensures IsTrace(su, initial, turns + [t])
    ensures EndOfTurn(su, initial, turns + [t], |turns|) == EndBehind(su, initial, turns, t)
    ensures EndBehind(su, initial, turns, t).Continue? ==> IsOngoing(su, initial, turns + [t])
  {
    hide Follows, EndBehind;
    var more := turns + [t];
    PrefixOf(turns, t, |turns|);
    forall k | 0 <= k < |turns|
      ensures TurnAt(su, initial, more, k) && EndOfTurn(su, initial, more, k).Continue?
    {
      PrefixOf(turns, t, k);
      assert TurnAt(su, initial, turns, k) && EndOfTurn(su, initial, turns, k).Continue?;
    }
  }

  /** The state behind one more turn. */
  lemma {:induction false} StateAfter(su: Setup, initial: seq<Message>, turns: seq<Turn>, t: Turn)
    ensures MessagesAfter(initial, turns + [t], su.opts.limits) ==
            Next(MessagesAfter(initial, turns, su.opts.limits), t, |turns| + 1, su.opts.limits)
    ensures CallHistory(su, turns + [t]) ==
            CallHistory(su, turns) +
            Fingerprints(PolicyOf(su.env, su.agent, su.opts), OutputAt(t, |turns| + 1).calls)
    ensures AllSent(turns + [t]) == AllSent(turns) + SentOfTurn(t)
    ensures AllStarts(su, turns + [t]) == AllStarts(su, turns) + StartsOfTurn(su, turns, t)
    ensures AllRecords(initial, turns + [t], su.opts.limits) ==
            AllRecords(initial, turns, su.opts.limits) +
            RecordsOfTurn(MessagesAfter(initial, turns, su.opts.limits), t, |turns| + 1, su.opts.limits)
  {
    hide Next, OutputAt, SentOfTurn, StartsOfTurn, RecordsOfTurn;
    PrefixOf(turns, t, |turns|);
  }

  ghost predicate BegunAfter(su: Setup, turns: seq<Turn>, t: Turn) {
    ToolsBegun(
      su.env, su.agent, su.opts, OutputAt(t, |turns| + 1).calls, CallHistory(su, turns),
      ApprovedAfter(su, turns), t.tools)
  }

  /** Once the calls of a turn were run, the approvals are those of its tools. */
  lemma {:induction false} ApprovedBehind(su: Setup, turns: seq<Turn>, t: Turn)
    requires BegunAfter(su, turns, t)
    ensures ApprovedAfter(su, turns + [t]) ==
            EndOfRun(su.env, su.agent, su.opts, OutputAt(t, |turns| + 1).calls, ApprovedAfter(su, turns),
                     t.tools).approved
  {
    hide IsRun, EndOfRun, OutputAt;
    PrefixOf(turns, t, |turns|);
  }

  lemma {:induction false} AddTraced(env: Environment, turns: seq<Turn>, t: Turn)
    requires AllTraced(env, turns) && TurnTraced(env, t)
    ensures AllTraced(env, turns + [t])
  {
    hide TurnTraced;
  }
}
