/** What the tool calls of one step are run with, and what came of them. */
module RunTools {
  import opened Wrappers
  import opened Messages
  import opened Providers
  import opened StreamAssembly
  import opened ToolDispatch
  import opened ToolSchedules
  import opened Compaction
  import opened ProviderRetry
  import opened RunLog

  datatype RunOptions = RunOptions(
    maxSteps: Option<int>,
    history: seq<Message>,
    currentUserMessageId: string,
    depth: nat,
    maxDepth: nat,
    autoApprove: bool,
    hasCallback: bool,
    autoCompact: bool,
    limits: ModelLimits,
    lastStep: Usage)

  /**
   * What the run cannot decide itself: prompts, permission rules, users, tools, cancellations and chance.
   * Users and tools answer anew at every moment, that is, for every tool step of every run, and may be
   * cut short by a cancellation; a moment is the number of requests the shared provider has seen.
   */
  datatype Environment = Environment(
    systemPrompt: Agent -> string,
    compactionPrompt: (seq<Message>, Option<string>) -> string,
    hydrate: string -> Content,
    kind: PendingCall -> ToolKind,
    action: PendingCall -> string,
    external: PendingCall -> bool,
    fingerprint: PendingCall -> string,
    baseRules: (PendingCall, bool, bool) -> Decision,
    agentRules: (Agent, PendingCall, bool, bool) -> Decision,
    respond: (nat, nat) -> Response,
    atOnce: (nat, nat) -> bool,
    execute: (nat, nat) -> Execution,
    cancels: nat -> bool,
    errorText: (PendingCall, Verdict) -> string,
    reportText: (PendingCall, Verdict) -> string,
    jitter: nat -> Jitter)

  /** The tool-role message of one call and the image its result carries. */
  datatype Outcome = Outcome(message: Message, image: Option<string>)

  function AsToolCalls(calls: seq<PendingCall>): seq<ToolCall> {
    seq(|calls|, i requires 0 <= i < |calls| => ToolCall(calls[i].callId, calls[i].name, calls[i].rawArguments))
  }

  function OutcomeMessages(outcomes: seq<Outcome>): seq<Message> {
    seq(|outcomes|, i requires 0 <= i < |outcomes| => outcomes[i].message)
  }

  /** How deep runs may nest; a run may always have children unless told otherwise. */
  function EffectiveMaxDepth(opts: RunOptions): nat {
    if opts.maxDepth > 0 then opts.maxDepth else 1
  }

  function PolicyOf(env: Environment, agent: Agent, opts: RunOptions): Policy {
    Policy(
      env.kind, env.action, env.external, env.fingerprint, env.baseRules,
      (call, doom, external) => env.agentRules(agent, call, doom, external),
      opts.depth, EffectiveMaxDepth(opts))
  }

  function ErrorsOf(env: Environment, call: PendingCall, execution: Execution): ErrorTexts {
    ErrorTexts(env.reportText(call, Turned), env.reportText(call, Ran(execution)), env.reportText(call, DispatchFailed))
  }

  /**
   * How the calls of a step were run: at which moment, with which doom-loop flags, and in which order
   * their tasks were resumed.
   */
  datatype ToolRun = ToolRun(moment: nat, flags: seq<bool>, schedule: seq<nat>)

  /** No call was run. */
  const NO_TOOLS := ToolRun(0, [], [])

  function JobOf(
      env: Environment, agent: Agent, opts: RunOptions, call: PendingCall, doom: bool, moment: nat, i: nat): Job
  {
    var execution := env.execute(moment, i);
    Job(call, GateOf(PolicyOf(env, agent, opts), call, doom), (call.name, env.action(call)),
        env.respond(moment, i), env.atOnce(moment, i), execution, ErrorsOf(env, call, execution))
  }

  /** The calls of a step with their gates, and with what users and tools would do. */
  function ScenarioOf(
      env: Environment, agent: Agent, opts: RunOptions, calls: seq<PendingCall>, flags: seq<bool>, moment: nat)
    : Scenario
    requires |flags| == |calls|
  {
    var jobs := seq(|calls|, i requires 0 <= i < |calls| => JobOf(env, agent, opts, calls[i], flags[i], moment, i));
    Scenario(jobs, opts.autoApprove, opts.hasCallback)
  }

  function OutcomeOf(env: Environment, call: PendingCall, verdict: Verdict): Outcome {
    match verdict
    case Ran(Completed(output, image)) => Outcome(ToolResult(call.callId, output), image)
    case _ => Outcome(ToolResult(call.callId, env.errorText(call, verdict)), None)
  }

  function OutcomesOf(env: Environment, calls: seq<PendingCall>, verdicts: seq<Verdict>): seq<Outcome> {
    seq(|calls|, i requires 0 <= i < |calls| =>
      OutcomeOf(env, calls[i], if i < |verdicts| then verdicts[i] else DispatchFailed))
  }

  lemma {:induction false} OutcomesAnswer(env: Environment, calls: seq<PendingCall>, verdicts: seq<Verdict>)
    ensures var results := OutcomeMessages(OutcomesOf(env, calls, verdicts));
      |results| == |calls| && ResultsFor(AsToolCalls(calls), results)
  {
  }

  /** All tool events of a step: those of the tasks, then those of the tasks that raised. */
  function EventsOf(sc: Scenario, s: State): seq<ToolEvent> {
    s.events + if |sc.jobs| == |s.phases| then CrashEvents(sc.jobs, s.phases) else []
  }

  // ---------------------------------------------------------------- one tool step

  predicate IsRun(
    env: Environment, agent: Agent, opts: RunOptions, calls: seq<PendingCall>, approved: set<Key>, run: ToolRun)
  {
    && |run.flags| == |calls|
    && var sc := ScenarioOf(env, agent, opts, calls, run.flags, run.moment);
       InOrder(sc, Start(sc, approved), run.schedule)
  }

  function EndOfRun(
    env: Environment, agent: Agent, opts: RunOptions, calls: seq<PendingCall>, approved: set<Key>, run: ToolRun): State
    requires IsRun(env, agent, opts, calls, approved, run)
  {
    var sc := ScenarioOf(env, agent, opts, calls, run.flags, run.moment);
    Exec(sc, Start(sc, approved), run.schedule)
  }

  /** The calls were run with exact doom-loop flags, perhaps not to their end. */
  ghost predicate ToolsBegun(
    env: Environment, agent: Agent, opts: RunOptions, calls: seq<PendingCall>,
    history: seq<string>, approved: set<Key>, run: ToolRun)
  {
    && IsRun(env, agent, opts, calls, approved, run)
    && FlagsExact(history, Fingerprints(PolicyOf(env, agent, opts), calls), run.flags)
  }

  /** All calls were run to their end, and these are their results. */
  ghost predicate ToolsRan(
    env: Environment, agent: Agent, opts: RunOptions, calls: seq<PendingCall>,
    history: seq<string>, approved: set<Key>, run: ToolRun, results: seq<Message>)
  {
    && ToolsBegun(env, agent, opts, calls, history, approved, run)
    && var s := EndOfRun(env, agent, opts, calls, approved, run);
       AllDone(s) && results == OutcomeMessages(OutcomesOf(env, calls, Verdicts(s)))
  }

  ghost predicate FlagsExact(history: seq<string>, fingerprints: seq<string>, flags: seq<bool>) {
    |flags| <= |fingerprints| && forall i :: 0 <= i < |flags| ==> flags[i] == Doomed(history + fingerprints[..i + 1])
  }

  lemma {:induction false} RanAnswers(
    env: Environment, agent: Agent, opts: RunOptions, calls: seq<PendingCall>,
    history: seq<string>, approved: set<Key>, run: ToolRun, results: seq<Message>)
    requires ToolsRan(env, agent, opts, calls, history, approved, run, results)
    ensures |results| == |calls| && ResultsFor(AsToolCalls(calls), results)
  {
    OutcomesAnswer(env, calls, Verdicts(EndOfRun(env, agent, opts, calls, approved, run)));
  }

  // ---------------------------------------------------------------- every call gets its own result

  /**
   * What a call ends with is what it is answered: the output and the image of its own tool, or the error
   * text for its own end.
   */
  predicate OwnOutcome(env: Environment, call: PendingCall, moment: nat, i: nat, phase: Phase, o: Outcome) {
    match phase
    case Finished(Ran(Completed(output, image))) =>
      env.execute(moment, i) == Completed(output, image) && IsToolMessage(o, call, output) && o.image == image
    case Finished(Ran(execution)) =>
      && env.execute(moment, i) == execution
      && IsToolMessage(o, call, env.errorText(call, Ran(execution))) && o.image == None
    case Finished(Turned) => IsToolMessage(o, call, env.errorText(call, Turned)) && o.image == None
    case Crashed => IsToolMessage(o, call, env.errorText(call, DispatchFailed)) && o.image == None
    case _ => false
  }

  predicate IsToolMessage(o: Outcome, call: PendingCall, text: string) {
    o.message == Message(Tool, Plain(text), [], call.callId, "")
  }

  ghost predicate OwnOutcomes(
      env: Environment, calls: seq<PendingCall>, moment: nat, s: State, outcomes: seq<Outcome>)
  {
    && |outcomes| == |calls| == |s.phases|
    && forall i :: 0 <= i < |calls| ==> OwnOutcome(env, calls[i], moment, i, s.phases[i], outcomes[i])
  }

  /** What the tasks of a run of calls have come to. */
  lemma {:induction false} PhasesOfRun(
    env: Environment, agent: Agent, opts: RunOptions, calls: seq<PendingCall>, approved: set<Key>, run: ToolRun, i: nat)
    requires IsRun(env, agent, opts, calls, approved, run) && i < |calls|
    ensures var s := EndOfRun(env, agent, opts, calls, approved, run);
      && |s.phases| == |calls|
      && (s.phases[i].Finished? ==> s.phases[i].verdict in {Turned, Ran(env.execute(run.moment, i))})
  {
    hide InOrder, Exec;
    var sc := ScenarioOf(env, agent, opts, calls, run.flags, run.moment);
    StartInv(sc, approved);
    ExecKeepsInv(sc, approved, Start(sc, approved), run.schedule);
    assert PhaseOk(sc, EndOfRun(env, agent, opts, calls, approved, run), i);
  }

  lemma {:induction false} OutcomesAreOwn(
    env: Environment, agent: Agent, opts: RunOptions, calls: seq<PendingCall>, approved: set<Key>, run: ToolRun)
    requires IsRun(env, agent, opts, calls, approved, run)
    requires AllDone(EndOfRun(env, agent, opts, calls, approved, run))
    ensures var s := EndOfRun(env, agent, opts, calls, approved, run);
      |s.phases| == |calls| && OwnOutcomes(env, calls, run.moment, s, OutcomesOf(env, calls, Verdicts(s)))
  {
    hide IsRun, EndOfRun;
    var s := EndOfRun(env, agent, opts, calls, approved, run);
    LengthOfRun(env, agent, opts, calls, approved, run);
    forall i | 0 <= i < |calls|
      ensures OwnOutcome(env, calls[i], run.moment, i, s.phases[i], OutcomesOf(env, calls, Verdicts(s))[i])
    {
      PhasesOfRun(env, agent, opts, calls, approved, run, i);
      assert Done(s.phases[i]);
    }
  }

  lemma {:induction false} LengthOfRun(
    env: Environment, agent: Agent, opts: RunOptions, calls: seq<PendingCall>, approved: set<Key>, run: ToolRun)
    requires IsRun(env, agent, opts, calls, approved, run)
    ensures |EndOfRun(env, agent, opts, calls, approved, run).phases| == |calls|
  {
    hide InOrder, Exec;
    var sc := ScenarioOf(env, agent, opts, calls, run.flags, run.moment);
    StartInv(sc, approved);
    ExecKeepsInv(sc, approved, Start(sc, approved), run.schedule);
  }

  /** The message that stands for a call in the list, given what the call ended with. */
  ghost predicate OwnResult(env: Environment, call: PendingCall, moment: nat, i: nat, phase: Phase, result: Message) {
    exists image :: OwnOutcome(env, call, moment, i, phase, Outcome(result, image))
  }

  /**
   * In a tool step that ran to its end, every call is answered with its own result: when it ends with a
   * completed tool, with the output of the tool at its own place, and otherwise with the error text for
   * its own end.
   */
  lemma {:induction false} EachCallGetsItsOwnResult(
    env: Environment, agent: Agent, opts: RunOptions, calls: seq<PendingCall>, history: seq<string>,
    approved: set<Key>, run: ToolRun, results: seq<Message>, i: nat)
    requires ToolsRan(env, agent, opts, calls, history, approved, run, results) && i < |calls|
    ensures |results| == |calls| && |EndOfRun(env, agent, opts, calls, approved, run).phases| == |calls|
    ensures OwnResult(env, calls[i], run.moment, i, EndOfRun(env, agent, opts, calls, approved, run).phases[i],
                      results[i])
  {
    hide IsRun, EndOfRun, FlagsExact, OwnOutcome, AllDone;
    OutcomesAreOwn(env, agent, opts, calls, approved, run);
    var s := EndOfRun(env, agent, opts, calls, approved, run);
    var o := OutcomesOf(env, calls, Verdicts(s))[i];
    assert results[i] == o.message && o == Outcome(results[i], o.image);
  }

  /** The call is turned down whatever the user says: by the nesting depth, or by a layer of rules. */
  predicate Forbidden(env: Environment, agent: Agent, opts: RunOptions, call: PendingCall, doom: bool) {
    var external := !doom && env.external(call);
    || (env.kind(call).TaskTool? && opts.depth >= Max(1, opts.maxDepth))
    || (env.kind(call).TodoWriteTool? && opts.depth > 0)
    || env.baseRules(call, doom, external).Deny? || env.agentRules(agent, call, doom, external).Deny?
  }

  /** No flag is raised and both layers of rules allow the call. */
  predicate Unquestioned(env: Environment, agent: Agent, call: PendingCall, doom: bool) {
    && !doom && !env.external(call)
    && env.baseRules(call, false, false).Allow? && env.agentRules(agent, call, false, false).Allow?
  }

  /** The user is asked about the call, unless approvals are automatic or its key has been approved. */
  predicate Questionable(env: Environment, agent: Agent, opts: RunOptions, call: PendingCall, doom: bool) {
    !Forbidden(env, agent, opts, call, doom) && !Unquestioned(env, agent, call, doom)
  }

  /** The doom-loop flag of call `i`: it repeats the two calls before it. */
  predicate Repeats(
    env: Environment, agent: Agent, opts: RunOptions, calls: seq<PendingCall>, history: seq<string>, i: nat)
    requires i < |calls|
  {
    var past := history + Fingerprints(PolicyOf(env, agent, opts), calls)[..i + 1];
    |past| >= 3 && past[|past| - 1] == past[|past| - 2] == past[|past| - 3]
  }

  lemma {:induction false} GateIs(env: Environment, agent: Agent, opts: RunOptions, call: PendingCall, doom: bool)
    ensures var gate := GateOf(PolicyOf(env, agent, opts), call, doom);
      && (gate.Rejected? <==> Forbidden(env, agent, opts, call, doom))
      && (gate.NeedsApproval? <==> Questionable(env, agent, opts, call, doom))
  {
    hide GateOf;
    GateIsTight(PolicyOf(env, agent, opts), call, doom);
  }

  /** The verdict of call `i`, in terms of the calls before it. */
  lemma {:induction false} VerdictOfCall(
    env: Environment, agent: Agent, opts: RunOptions, calls: seq<PendingCall>, history: seq<string>,
    approved: set<Key>, run: ToolRun, results: seq<Message>, i: nat)
    requires ToolsRan(env, agent, opts, calls, history, approved, run, results) && i < |calls|
    ensures var sc, s := ScenarioOf(env, agent, opts, calls, run.flags, run.moment),
                         EndOfRun(env, agent, opts, calls, approved, run);
      && |s.phases| == |calls| && Done(s.phases[i])
      && VerdictOf(s.phases[i]) == Expected(sc, Cached(sc, approved, i), i)
      && run.flags[i] == Repeats(env, agent, opts, calls, history, i)
  {
    hide InOrder, Exec, OutcomesOf, OutcomeMessages, GateOf, Cached, Expected, Fingerprints, VerdictOf, JobOf;
    var sc, s := ScenarioOf(env, agent, opts, calls, run.flags, run.moment),
                 EndOfRun(env, agent, opts, calls, approved, run);
    LengthOfRun(env, agent, opts, calls, approved, run);
    OutcomesAreDetermined(sc, approved, run.schedule);
    assert Verdicts(s)[i] == VerdictOf(s.phases[i]);
  }

  lemma {:induction false} CachedKeeps(sc: Scenario, initial: set<Key>, n: nat)
    requires n <= |sc.jobs|
    ensures initial <= Cached(sc, initial, n)
  {
    if n > 0 {
      CachedKeeps(sc, initial, n - 1);
    }
  }

  lemma {:induction false} PhaseIsVerdict(
    env: Environment, agent: Agent, opts: RunOptions, calls: seq<PendingCall>, approved: set<Key>, run: ToolRun, i: nat)
    requires IsRun(env, agent, opts, calls, approved, run) && i < |calls|
    requires |EndOfRun(env, agent, opts, calls, approved, run).phases| == |calls|
    requires Done(EndOfRun(env, agent, opts, calls, approved, run).phases[i])
    ensures var phase := EndOfRun(env, agent, opts, calls, approved, run).phases[i];
      if VerdictOf(phase).DispatchFailed? then phase.Crashed? else phase == Phase.Finished(VerdictOf(phase))
  {
    hide IsRun, EndOfRun;
    PhasesOfRun(env, agent, opts, calls, approved, run, i);
  }

  /**
   * In a step that ran to its end, whatever the schedule, a forbidden call was turned down, and one that
   * nobody need be asked about, or no longer, ran its tool.
   */
  lemma {:induction false} RulesDecide(
    env: Environment, agent: Agent, opts: RunOptions, calls: seq<PendingCall>, history: seq<string>,
    approved: set<Key>, run: ToolRun, results: seq<Message>, i: nat)
    requires ToolsRan(env, agent, opts, calls, history, approved, run, results) && i < |calls|
    ensures |EndOfRun(env, agent, opts, calls, approved, run).phases| == |calls|
    ensures var doom, phase := Repeats(env, agent, opts, calls, history, i),
                               EndOfRun(env, agent, opts, calls, approved, run).phases[i];
      if Forbidden(env, agent, opts, calls[i], doom) then phase == Phase.Finished(Turned)
      else
        Unquestioned(env, agent, calls[i], doom) || opts.autoApprove || (calls[i].name,
            env.action(calls[i])) in approved ==>
          phase == Phase.Finished(Ran(env.execute(run.moment, i)))
  {
    hide InOrder, AllDone, OutcomesOf, OutcomeMessages, FlagsExact, EndOfRun, GateOf, Cached, Repeats, PolicyOf;
    VerdictOfCall(env, agent, opts, calls, history, approved, run, results, i);
    GateIs(env, agent, opts, calls[i], run.flags[i]);
    CachedKeeps(ScenarioOf(env, agent, opts, calls, run.flags, run.moment), approved, i);
  }

  /** The user approves call `j` once, by a callback that answers without suspending. */
  predicate ApprovedAtOnce(
    env: Environment, agent: Agent, opts: RunOptions, calls: seq<PendingCall>, history: seq<string>,
    moment: nat, j: nat)
    requires j < |calls|
  {
    && Questionable(env, agent, opts, calls[j], Repeats(env, agent, opts, calls, history, j))
    && env.respond(moment, j).Once? && env.atOnce(moment, j)
  }

  /**
   * A call about which the user must be asked ran its tool exactly when its own callback approved it, or
   * an earlier call of the step with the same name and action was approved before it started. Otherwise
   * it was turned down, or its task raised with its callback.
   */
  lemma {:induction false} UsersDecide(
    env: Environment, agent: Agent, opts: RunOptions, calls: seq<PendingCall>, history: seq<string>,
    approved: set<Key>, run: ToolRun, results: seq<Message>, i: nat)
    requires ToolsRan(env, agent, opts, calls, history, approved, run, results) && i < |calls|
    requires Questionable(env, agent, opts, calls[i], Repeats(env, agent, opts, calls, history, i))
    requires !opts.autoApprove && (calls[i].name, env.action(calls[i])) !in approved
    ensures |EndOfRun(env, agent, opts, calls, approved, run).phases| == |calls|
    ensures var response, phase :=
              env.respond(run.moment, i), EndOfRun(env, agent, opts, calls, approved, run).phases[i];
      var earlier :=
        exists j :: (
          && 0 <= j < i && ApprovedAtOnce(env, agent, opts, calls, history, run.moment, j)
          && calls[j].name == calls[i].name && env.action(calls[j]) == env.action(calls[i]));
      if opts.hasCallback && (response.Once? || response.Always? || earlier)
      then phase == Phase.Finished(Ran(env.execute(run.moment, i)))
      else if opts.hasCallback && response.CallbackRaised? then phase.Crashed?
      else phase == Phase.Finished(Turned)
  {
    hide InOrder, AllDone, OutcomesOf, OutcomeMessages, FlagsExact, EndOfRun, GateOf, Cached, Repeats, PolicyOf;
    hide Forbidden, Unquestioned;
    var sc := ScenarioOf(env, agent, opts, calls, run.flags, run.moment);
    VerdictOfCall(env, agent, opts, calls, history, approved, run, results, i);
    GateIs(env, agent, opts, calls[i], run.flags[i]);
    CachedMeans(sc, approved, i, (calls[i].name, env.action(calls[i])));
    forall j | 0 <= j < i
      ensures Grants(sc, j) && sc.jobs[j].atOnce <==>
              !opts.autoApprove && opts.hasCallback && ApprovedAtOnce(env, agent, opts, calls, history, run.moment, j)
    {
      VerdictOfCall(env, agent, opts, calls, history, approved, run, results, j);
      GateIs(env, agent, opts, calls[j], run.flags[j]);
    }
    assert run.flags[i] == Repeats(env, agent, opts, calls, history, i);
    PhaseIsVerdict(env, agent, opts, calls, approved, run, i);
  }

  /** The text that reports the end of a call. */
  predicate OwnReport(env: Environment, call: PendingCall, moment: nat, i: nat, verdict: Verdict, report: ToolEvent) {
    match verdict
    case Ran(Completed(output, _)) => report == ToolCompleted(call.callId, call.name, output)
    case Ran(execution) => report ==
        ToolError(call.callId, call.name, env.reportText(call, Ran(env.execute(moment, i))))
    case verdict => report == ToolError(call.callId, call.name, env.reportText(call, verdict))
  }

  /** The reports of the calls are those of their own ends. */
  lemma {:induction false} EachCallIsReportedOnce(
    env: Environment, agent: Agent, opts: RunOptions, calls: seq<PendingCall>, approved: set<Key>, run: ToolRun)
    returns (reports: seq<ToolEvent>)
    requires IsRun(env, agent, opts, calls, approved, run)
    requires AllDone(EndOfRun(env, agent, opts, calls, approved, run))
    ensures var sc, s := ScenarioOf(env, agent, opts, calls, run.flags, run.moment),
                         EndOfRun(env, agent, opts, calls, approved, run);
      && |reports| == |calls| == |s.phases|
      && multiset(EndsIn(EventsOf(sc, s))) == multiset(reports)
      && forall i :: 0 <= i < |calls| ==> OwnReport(env, calls[i], run.moment, i, VerdictOf(s.phases[i]), reports[i])
  {
    hide InOrder, Exec, Reports, EndsIn, AllDone, OwnReport, Report, JobOf;
    var sc, s := ScenarioOf(env, agent, opts, calls, run.flags, run.moment),
                 EndOfRun(env, agent, opts, calls, approved, run);
    EachCallReportsItsOwnEnd(sc, approved, run.schedule);
    reports := ReportList(sc.jobs, s.phases);
    forall i | 0 <= i < |calls|
      ensures OwnReport(env, calls[i], run.moment, i, VerdictOf(s.phases[i]), reports[i])
    {
      ReportIsOwn(env, agent, opts, calls[i], run.flags[i], run.moment, i, VerdictOf(s.phases[i]));
    }
  }

  lemma {:induction false} ReportIsOwn(
    env: Environment, agent: Agent, opts: RunOptions, call: PendingCall, doom: bool, moment: nat, i: nat,
    verdict: Verdict)
    ensures OwnReport(env, call, moment, i, verdict, Report(JobOf(env, agent, opts, call, doom, moment, i), verdict))
  {
  }

  lemma {:induction false} ReportList(jobs: seq<Job>, phases: seq<Phase>) returns (reports: seq<ToolEvent>)
    requires |jobs| == |phases|
    ensures |reports| == |jobs| && multiset(reports) == Reports(jobs, phases, IsAny)
    ensures forall i :: 0 <= i < |jobs| ==> reports[i] == Report(jobs[i], VerdictOf(phases[i]))
  {
    hide Report, VerdictOf;
    reports := [];
    if jobs != [] {
      var rest := ReportList(jobs[1..], phases[1..]);
      reports := [Report(jobs[0], VerdictOf(phases[0]))] + rest;
    }
  }

  lemma {:induction false} SameFlags(history: seq<string>, fingerprints: seq<string>, a: seq<bool>, b: seq<bool>)
    requires |a| == |b| && FlagsExact(history, fingerprints, a) && FlagsExact(history, fingerprints, b)
    ensures a == b
  {
  }

  /** What the calls of a step lead to does not depend on how their tasks were interleaved. */
  lemma {:induction false} ResultsAreDetermined(
    env: Environment, agent: Agent, opts: RunOptions, calls: seq<PendingCall>,
    history: seq<string>, approved: set<Key>, a: ToolRun, b: ToolRun, results: seq<Message>, results': seq<Message>)
    requires ToolsRan(env, agent, opts, calls, history, approved, a, results)
    requires ToolsRan(env, agent, opts, calls, history, approved, b, results')
    requires a.moment == b.moment
    ensures results == results'
    ensures EndOfRun(env, agent, opts, calls, approved, a).approved ==
              EndOfRun(env, agent, opts, calls, approved, b).approved
  {
    hide Exec, InOrder, AllDone, Verdicts, OutcomesOf, OutcomeMessages, JobOf;
    SameFlags(history, Fingerprints(PolicyOf(env, agent, opts), calls), a.flags, b.flags);
    var sc := ScenarioOf(env, agent, opts, calls, a.flags, a.moment);
    assert sc == ScenarioOf(env, agent, opts, calls, b.flags, b.moment);
    OutcomesAreDetermined(sc, approved, a.schedule);
    OutcomesAreDetermined(sc, approved, b.schedule);
  }

  // ---------------------------------------------------------------- started calls

  /** The start events of a tool step. */
  function RunStarts(
    env: Environment, agent: Agent, opts: RunOptions, calls: seq<PendingCall>, approved: set<Key>, run: ToolRun,
    step: int)
    : seq<Event>
  {
    if IsRun(env, agent, opts, calls, approved, run)
    then StepTools(step, StartsIn(EndOfRun(env, agent, opts, calls, approved, run).events))
    else []
  }

  /** Where no task was resumed nothing has started. */
  lemma {:induction false} NothingStarts(
    env: Environment, agent: Agent, opts: RunOptions, calls: seq<PendingCall>, approved: set<Key>, run: ToolRun,
    step: int)
    requires run.schedule == []
    ensures RunStarts(env, agent, opts, calls, approved, run, step) == []
  {
  }

  lemma {:induction false} NoToolsBegun(
    env: Environment, agent: Agent, opts: RunOptions, history: seq<string>, approved: set<Key>, step: int)
    ensures ToolsBegun(env, agent, opts, [], history, approved, NO_TOOLS)
    ensures RunStarts(env, agent, opts, [], approved, NO_TOOLS, step) == []
  {
  }

  /** The events of a tool step, cancelled or not, hold the start events of its run. */
  lemma {:induction false} StepStarts(
    env: Environment, agent: Agent, opts: RunOptions, calls: seq<PendingCall>, approved: set<Key>, run: ToolRun,
    step: int)
    requires IsRun(env, agent, opts, calls, approved, run)
    ensures var sc, s := ScenarioOf(env, agent, opts, calls, run.flags, run.moment),
                         EndOfRun(env, agent, opts, calls, approved, run);
      && Starts(StepTools(step, s.events)) == RunStarts(env, agent, opts, calls, approved, run, step)
      && Starts(StepTools(step, EventsOf(sc, s))) == RunStarts(env, agent, opts, calls, approved, run, step)
  {
    hide Exec, InOrder, JobOf;
    var sc, s := ScenarioOf(env, agent, opts, calls, run.flags, run.moment),
                 EndOfRun(env, agent, opts, calls, approved, run);
    StartsAreAnnounced(sc, approved, run.schedule);
    ToolStarts(step, s.events);
    ToolStarts(step, EventsOf(sc, s));
  }
}
