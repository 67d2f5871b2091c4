/** The concurrent execution of the tool calls of one step, under every schedule. */
module ToolDispatch {
  import opened Wrappers
  import opened StreamAssembly

  // ---------------------------------------------------------------- permission gate

  datatype Decision = Allow | Ask | Deny

  /** Deny beats ask, ask beats allow. */
  function CombineDecisions(decisions: seq<Decision>): (d: Decision)
    ensures d.Deny? <==> Deny in decisions
    ensures d.Ask? <==> Ask in decisions && Deny !in decisions
  {
    if Deny in decisions then Deny else if Ask in decisions then Ask else Allow
  }

  datatype ToolKind = TaskTool | TodoWriteTool | OtherTool

  /**
   * What decides about a call: the permission layers, each asked with the doom-loop and
   * external-directory flags, and the nesting depth of the run.
   */
  datatype Policy = Policy(
    kind: PendingCall -> ToolKind,
    action: PendingCall -> string,
    external: PendingCall -> bool,
    fingerprint: PendingCall -> string,
    base: (PendingCall, bool, bool) -> Decision,
    agent: (PendingCall, bool, bool) -> Decision,
    depth: nat,
    maxDepth: nat)

  /** The merged decision; the doom-loop flag shadows the external-directory flag. */
  function Decide(p: Policy, call: PendingCall, doom: bool): Decision {
    var external := !doom && p.external(call);
    CombineDecisions([p.base(call, doom, external), p.agent(call, doom, external)])
  }

  datatype Gate = Rejected | NeedsApproval | Free

  function GateOf(p: Policy, call: PendingCall, doom: bool): Gate {
    if p.kind(call).TaskTool? && p.depth >= p.maxDepth then Rejected
    else if p.kind(call).TodoWriteTool? && p.depth > 0 then Rejected
    else
      var decision := Decide(p, call, doom);
      if decision.Deny? then Rejected
      else if decision.Ask? || doom || p.external(call) then NeedsApproval
      else Free
  }

  /** The call is refused without a question: by the nesting depth, or by a layer that denies it. */
  predicate Barred(p: Policy, call: PendingCall, doom: bool) {
    var external := !doom && p.external(call);
    || (p.kind(call).TaskTool? && p.depth >= p.maxDepth)
    || (p.kind(call).TodoWriteTool? && p.depth > 0)
    || p.base(call, doom, external).Deny? || p.agent(call, doom, external).Deny?
  }

  /**
   * A call is rejected exactly when it is barred. Of the others, it passes unasked exactly when no flag
   * is raised and every layer allows it, and the user is asked about it exactly when a flag is raised or
   * a layer asks.
   */
  lemma {:induction false} GateIsTight(p: Policy, call: PendingCall, doom: bool)
    ensures GateOf(p, call, doom).Rejected? <==> Barred(p, call, doom)
    ensures GateOf(p, call, doom).Free? <==>
            && !Barred(p, call, doom) && !doom && !p.external(call)
            && p.base(call, false, false).Allow? && p.agent(call, false, false).Allow?
    ensures var external := !doom && p.external(call);
      GateOf(p, call, doom).NeedsApproval? <==>
      && !Barred(p, call, doom)
      && (doom || p.external(call) || p.base(call, doom, external).Ask? || p.agent(call, doom, external).Ask?)
  {
    var external := !doom && p.external(call);
    var layers := [p.base(call, doom, external), p.agent(call, doom, external)];
    assert layers[0] in layers && layers[1] in layers;
  }

  // ---------------------------------------------------------------- doom loop

  const RECENT_CALLS_MAXLEN := 10
  const DOOM_LOOP_REPEATS := 3

  function Last<T>(s: seq<T>, n: nat): seq<T> {
    if |s| <= n then s else s[|s| - n..]
  }

  lemma {:induction false} LastOfNone<T>(n: nat)
    ensures Last<T>([], n) == []
  {
  }

  /** The last three fingerprints of a call history are the same. */
  predicate Doomed(history: seq<string>) {
    var n := |history|;
    n >= DOOM_LOOP_REPEATS && history[n - 1] == history[n - 2] == history[n - 3]
  }

  function Fingerprints(p: Policy, calls: seq<PendingCall>): seq<string> {
    seq(|calls|, i requires 0 <= i < |calls| => p.fingerprint(calls[i]))
  }

  lemma {:induction false} LastSnoc<T>(s: seq<T>, x: T, n: nat)
    requires n > 0
    ensures Last(Last(s, n) + [x], n) == Last(s + [x], n)
  {
  }

  lemma {:induction false} DoomedWhenTrimmed(history: seq<string>)
    ensures Doomed(Last(history, RECENT_CALLS_MAXLEN)) == Doomed(history)
  {
  }

  /** The flags computed on the trimmed list are the flags of the full call history. */
  method DoomFlags(p: Policy, calls: seq<PendingCall>, recent: seq<string>, ghost history: seq<string>)
    returns (flags: seq<bool>, recent': seq<string>)
    requires recent == Last(history, RECENT_CALLS_MAXLEN)
    ensures recent' == Last(history + Fingerprints(p, calls), RECENT_CALLS_MAXLEN)
    ensures |flags| == |calls|
    ensures forall i :: 0 <= i < |calls| ==> flags[i] == Doomed(history + Fingerprints(p, calls)[..i + 1])
  {
    hide Last, Doomed;
    flags := [];
    recent' := recent;
    ghost var all := Fingerprints(p, calls);
    assert history + all[..0] == history;
    for i := 0 to |calls|
      invariant |flags| == i
      invariant recent' == Last(history + all[..i], RECENT_CALLS_MAXLEN)
      invariant forall k :: 0 <= k < i ==> flags[k] == Doomed(history + all[..k + 1])
    {
      LastSnoc(history + all[..i], all[i], RECENT_CALLS_MAXLEN);
      recent' := recent' + [p.fingerprint(calls[i])];
      recent' := Last(recent', RECENT_CALLS_MAXLEN);
      assert history + all[..i + 1] == history + all[..i] + [all[i]];
      DoomedWhenTrimmed(history + all[..i + 1]);
      flags := flags + [Doomed(recent')];
    }
    assert all[..|calls|] == all;
  }

  // ---------------------------------------------------------------- the calls of one step

  /** What a permission callback ends with: `once`, `allow`, `approved` and `yes` count as `Once`. */
  datatype Response = Once | Always | Refused | TimedOut | CallbackRaised

  datatype Execution =
    | Completed(output: string, image: Option<string>)
    | UnknownTool(error: string)
    | Failed(error: string)

  type Key = (string, string)

  /**
   * One call of the step together with how the user and the tool would behave if asked; `atOnce` says
   * that the permission callback answers without suspending its task.
   */
  datatype Job = Job(
    call: PendingCall, gate: Gate, key: Key, response: Response, atOnce: bool, execution: Execution, errors: ErrorTexts)

  /** What the model is told about a call that was turned down, failed, or whose task raised. */
  datatype ErrorTexts = ErrorTexts(turned: string, failed: string, crashed: string)

  datatype Scenario = Scenario(jobs: seq<Job>, autoApprove: bool, hasCallback: bool)

  datatype Verdict = Turned | Ran(execution: Execution) | DispatchFailed

  datatype Phase = Ready | Waiting | Approved | Executing | Finished(verdict: Verdict) | Crashed

  datatype ToolEvent =
    | ToolStarted(callId: string, tool: string, arguments: string)
    | ToolCompleted(callId: string, tool: string, output: string)
    | ToolError(callId: string, tool: string, error: string)

  /** A permission callback was called for a call, or came back with an answer. */
  datatype Ask = Asked(job: nat) | Told(job: nat, response: Response)

  /**
   * `approved` is the run's cache of once-approved keys; `executed` logs the tools run and `asks` the
   * callbacks made and answered.
   */
  datatype State = State(
    phases: seq<Phase>, approved: set<Key>, events: seq<ToolEvent>, executed: seq<nat>, asks: seq<Ask>)

  predicate Done(phase: Phase) {
    phase.Finished? || phase.Crashed?
  }

  predicate Enabled(sc: Scenario, s: State, i: nat) {
    i < |s.phases| == |sc.jobs| && !Done(s.phases[i])
  }

  predicate AllDone(s: State) {
    forall i :: 0 <= i < |s.phases| ==> Done(s.phases[i])
  }

  /** The new phase of a task, the key it caches as approved, and the events it emits. */
  datatype Effect = Effect(phase: Phase, granted: set<Key>, events: seq<ToolEvent>)

  function EffectOf(sc: Scenario, approved: set<Key>, job: Job, phase: Phase): Effect
    requires !Done(phase)
  {
    var id := job.call.callId;
    var tool := job.call.name;
    var refusal := Effect(Finished(Turned), {}, [ToolError(id, tool, job.errors.turned)]);
    match phase
    case Ready =>
      (match job.gate
       case Rejected => refusal
       case NeedsApproval =>
         if job.key in approved || sc.autoApprove then Effect(Approved, {}, [])
         else if !sc.hasCallback then refusal
         else Effect(Waiting, {}, [])
       case Free => Effect(Approved, {}, []))
    case Waiting =>
      (match job.response
       case Once => Effect(Approved, {job.key}, [])
       case Always => Effect(Approved, {}, [])
       case Refused => refusal
       case TimedOut => refusal
       case CallbackRaised => Effect(Crashed, {}, []))
    case Approved => Effect(Executing, {}, [ToolStarted(id, tool, job.call.rawArguments)])
    case Executing =>
      Effect(Finished(Ran(job.execution)), {},
             [if job.execution.Completed? then ToolCompleted(id, tool, job.execution.output)
              else ToolError(id, tool, job.errors.failed)])
  }

  /** What the task of call `i` does between two points where it may be suspended. */
  function StepTask(sc: Scenario, s: State, i: nat): State
    requires Enabled(sc, s, i)
  {
    var e := EffectOf(sc, s.approved, sc.jobs[i], s.phases[i]);
    State(
      s.phases[i := e.phase],
      s.approved + e.granted,
      s.events + e.events,
      if e.phase.Executing? then s.executed + [i] else s.executed,
      s.asks + AsksOf(s.phases[i], e.phase, i, sc.jobs[i].response))
  }

  /** A task that begins to wait has called back; one that stops waiting has its answer. */
  function AsksOf(before: Phase, after: Phase, i: nat, response: Response): seq<Ask> {
    if after.Waiting? then [Asked(i)] else if before.Waiting? then [Told(i, response)] else []
  }

  function Start(sc: Scenario, approved: set<Key>): State {
    State(seq(|sc.jobs|, _ => Ready), approved, [], [], [])
  }

  // ---------------------------------------------------------------- schedules

  /** `schedule` resumes, one after the other, tasks that are not done. */
  predicate Legal(sc: Scenario, s: State, schedule: seq<nat>)
    decreases |schedule|
  {
    schedule == [] ||
    (Enabled(sc, s, schedule[0]) && Legal(sc, StepTask(sc, s, schedule[0]), schedule[1..]))
  }

  function Exec(sc: Scenario, s: State, schedule: seq<nat>): State
    requires Legal(sc, s, schedule)
    decreases |schedule|
  {
    if schedule == [] then s else Exec(sc, StepTask(sc, s, schedule[0]), schedule[1..])
  }

  ghost predicate Complete(sc: Scenario, s: State, schedule: seq<nat>) {
    Legal(sc, s, schedule) && AllDone(Exec(sc, s, schedule))
  }

  lemma {:induction false} ExecAppend(sc: Scenario, s: State, a: seq<nat>, b: seq<nat>)
    requires Legal(sc, s, a) && Legal(sc, Exec(sc, s, a), b)
    ensures Legal(sc, s, a + b) && Exec(sc, s, a + b) == Exec(sc, Exec(sc, s, a), b)
    decreases |a|
  {
    if a == [] {
      assert a + b == b;
    } else {
      assert (a + b)[1..] == a[1..] + b;
      ExecAppend(sc, StepTask(sc, s, a[0]), a[1..], b);
    }
  }

  function Rank(phase: Phase): nat {
    match phase
    case Ready => 4
    case Waiting => 3
    case Approved => 2
    case Executing => 1
    case _ => 0
  }

  function Remaining(phases: seq<Phase>): nat {
    if phases == [] then 0 else Rank(phases[0]) + Remaining(phases[1..])
  }

  lemma {:induction false} RemainingUpdate(phases: seq<Phase>, i: nat, phase: Phase)
    requires i < |phases|
    ensures Remaining(phases[i := phase]) == Remaining(phases) - Rank(phases[i]) + Rank(phase)
  {
    var updated := phases[i := phase];
    if i == 0 {
      assert updated[1..] == phases[1..];
    } else {
      assert updated[1..] == phases[1..][i - 1 := phase];
      RemainingUpdate(phases[1..], i - 1, phase);
    }
  }

  lemma {:induction false} StepDecreases(sc: Scenario, s: State, i: nat)
    requires Enabled(sc, s, i)
    ensures Remaining(StepTask(sc, s, i).phases) < Remaining(s.phases)
  {
    var phase := EffectOf(sc, s.approved, sc.jobs[i], s.phases[i]).phase;
    RemainingUpdate(s.phases, i, phase);
  }

  /** From any state some schedule finishes every task. */
  lemma {:induction false} CanComplete(sc: Scenario, s: State) returns (schedule: seq<nat>)
    requires |s.phases| == |sc.jobs|
    ensures Complete(sc, s, schedule)
    decreases Remaining(s.phases)
  {
    if AllDone(s) {
      return [];
    }
    var i :| 0 <= i < |s.phases| && !Done(s.phases[i]);
    StepDecreases(sc, s, i);
    var rest := CanComplete(sc, StepTask(sc, s, i));
    schedule := [i] + rest;
    assert schedule[1..] == rest;
  }

  // ---------------------------------------------------------------- what every schedule keeps

  function Terminals(events: seq<ToolEvent>, id: string): nat {
    if events == [] then 0
    else
      var last := events[|events| - 1];
      Terminals(events[..|events| - 1], id) + if !last.ToolStarted? && last.callId == id then 1 else 0
  }

  lemma {:induction false} TerminalsConcat(a: seq<ToolEvent>, b: seq<ToolEvent>, id: string)
    ensures Terminals(a + b, id) == Terminals(a, id) + Terminals(b, id)
  {
    if b == [] {
      assert a + b == a;
    } else {
      assert (a + b)[..|a + b| - 1] == a + b[..|b| - 1];
      TerminalsConcat(a, b[..|b| - 1], id);
    }
  }

  /** The number of calls with this id. */
  function CallsWithId(jobs: seq<Job>, id: string): nat {
    if jobs == [] then 0 else (if jobs[0].call.callId == id then 1 else 0) + CallsWithId(jobs[1..], id)
  }

  /** The number of calls with this id in a phase satisfying `p`. */
  function InPhase(jobs: seq<Job>, phases: seq<Phase>, p: Phase -> bool, id: string): nat
    requires |jobs| == |phases|
  {
    if jobs == [] then 0
    else
      (if jobs[0].call.callId == id && p(phases[0]) then 1 else 0) + InPhase(jobs[1..], phases[1..], p, id)
  }

  lemma {:induction false} InPhaseUpdate(
      jobs: seq<Job>, phases: seq<Phase>, p: Phase -> bool, id: string, i: nat, phase: Phase)
    requires |jobs| == |phases| && i < |phases|
    ensures InPhase(jobs, phases[i := phase], p, id) == InPhase(jobs, phases, p, id)
              - (if jobs[i].call.callId == id && p(phases[i]) then 1 else 0)
              + (if jobs[i].call.callId == id && p(phase) then 1 else 0)
  {
    var updated := phases[i := phase];
    if i == 0 {
      assert updated[1..] == phases[1..];
    } else {
      assert updated[1..] == phases[1..][i - 1 := phase];
      InPhaseUpdate(jobs[1..], phases[1..], p, id, i - 1, phase);
    }
  }

  const IsFinished := (phase: Phase) => phase.Finished?

  /** The start events among these. */
  function StartsIn(events: seq<ToolEvent>): seq<ToolEvent> {
    if events == [] then []
    else
      var last := events[|events| - 1];
      StartsIn(events[..|events| - 1]) + if last.ToolStarted? then [last] else []
  }

  lemma {:induction false} StartsInConcat(a: seq<ToolEvent>, b: seq<ToolEvent>)
    ensures StartsIn(a + b) == StartsIn(a) + StartsIn(b)
  {
    if b == [] {
      assert a + b == a;
    } else {
      assert (a + b)[..|a + b| - 1] == a + b[..|b| - 1];
      StartsInConcat(a, b[..|b| - 1]);
    }
  }

  function StartEvent(call: PendingCall): ToolEvent {
    ToolStarted(call.callId, call.name, call.rawArguments)
  }

  predicate AreCalls(jobs: seq<Job>, executed: seq<nat>) {
    forall k :: 0 <= k < |executed| ==> executed[k] < |jobs|
  }

  /** The start events of the calls at these positions. */
  function StartsOf(jobs: seq<Job>, executed: seq<nat>): seq<ToolEvent>
    requires AreCalls(jobs, executed)
  {
    seq(|executed|, k requires 0 <= k < |executed| => StartEvent(jobs[executed[k]].call))
  }

  /** One start event per started call, in the order of the starts. */
  lemma {:induction false} StepKeepsStarts(sc: Scenario, s: State, i: nat)
    requires Enabled(sc, s, i) && AreCalls(sc.jobs, s.executed)
    requires StartsIn(s.events) == StartsOf(sc.jobs, s.executed)
    ensures var t := StepTask(sc, s, i);
      AreCalls(sc.jobs, t.executed) && StartsIn(t.events) == StartsOf(sc.jobs, t.executed)
  {
    hide EffectOf;
    var e := EffectOf(sc, s.approved, sc.jobs[i], s.phases[i]);
    StartsInConcat(s.events, e.events);
    EffectStarts(sc, s.approved, sc.jobs[i], s.phases[i]);
    if e.phase.Executing? {
      assert StartsOf(sc.jobs, s.executed + [i]) == StartsOf(sc.jobs, s.executed) + [StartEvent(sc.jobs[i].call)];
    }
  }

  lemma {:induction false} EffectStarts(sc: Scenario, approved: set<Key>, job: Job, phase: Phase)
    requires !Done(phase)
    ensures var e := EffectOf(sc, approved, job, phase);
      StartsIn(e.events) == if e.phase.Executing? then [StartEvent(job.call)] else []
  {
    var e := EffectOf(sc, approved, job, phase);
    if e.events != [] {
      assert e.events[..0] == [];
    }
  }

  /** One terminal event per finished call. */
  lemma {:induction false} StepKeepsTerminals(sc: Scenario, s: State, i: nat, id: string)
    requires Enabled(sc, s, i)
    requires Terminals(s.events, id) == InPhase(sc.jobs, s.phases, IsFinished, id)
    ensures var t := StepTask(sc, s, i); Terminals(t.events, id) == InPhase(sc.jobs, t.phases, IsFinished, id)
  {
    var e := EffectOf(sc, s.approved, sc.jobs[i], s.phases[i]);
    InPhaseUpdate(sc.jobs, s.phases, IsFinished, id, i, e.phase);
    TerminalsConcat(s.events, e.events, id);
    EffectTerminals(sc, s.approved, sc.jobs[i], s.phases[i], id);
  }

  lemma {:induction false} EffectTerminals(sc: Scenario, approved: set<Key>, job: Job, phase: Phase, id: string)
    requires !Done(phase)
    ensures var e := EffectOf(sc, approved, job, phase);
      Terminals(e.events, id) == if e.phase.Finished? && job.call.callId == id then 1 else 0
  {
    var e := EffectOf(sc, approved, job, phase);
    if e.events != [] {
      assert e.events[..0] == [];
    }
  }

  /** The call may run: no question was needed, or an approval for it has been given in this run. */
  predicate Permitted(sc: Scenario, s: State, i: nat)
    requires i < |sc.jobs|
  {
    var job := sc.jobs[i];
    || job.gate.Free?
    || (job.gate.NeedsApproval? && (sc.autoApprove || job.key in s.approved || Told(i, Always) in s.asks))
  }

  /** A callback of this step was asked about this key and answered that it is approved once. */
  ghost predicate Granted(sc: Scenario, s: State, key: Key) {
    exists j :: 0 <= j < |sc.jobs| && GrantedBy(sc, s, j, key)
  }

  predicate GrantedBy(sc: Scenario, s: State, j: nat, key: Key)
    requires j < |sc.jobs|
  {
    sc.jobs[j].gate.NeedsApproval? && sc.jobs[j].key == key && Told(j, Once) in s.asks
  }

  /** An answer in the log is the callback's own, to a question the log holds. */
  predicate AskOk(sc: Scenario, s: State, ask: Ask) {
    && ask.job < |sc.jobs| && sc.hasCallback && !sc.autoApprove && sc.jobs[ask.job].gate.NeedsApproval?
    && (ask.Told? ==> ask.response == sc.jobs[ask.job].response && Asked(ask.job) in s.asks)
  }

  predicate HasStarted(phase: Phase) {
    phase.Executing? || (phase.Finished? && phase.verdict.Ran?)
  }

  ghost predicate PhaseOk(sc: Scenario, s: State, i: nat)
    requires i < |s.phases| == |sc.jobs|
  {
    && (s.phases[i].Approved? || HasStarted(s.phases[i]) ==> Permitted(sc, s, i))
    && (s.phases[i].Waiting? ==> sc.jobs[i].gate.NeedsApproval? && Asked(i) in s.asks)
    && (s.phases[i].Finished? ==> s.phases[i].verdict in {Turned, Ran(sc.jobs[i].execution)})
    && multiset(s.executed)[i] == (if HasStarted(s.phases[i]) then 1 else 0)
  }

  ghost predicate Inv(sc: Scenario, initial: set<Key>, s: State) {
    && |s.phases| == |sc.jobs|
    && (forall i :: 0 <= i < |s.phases| ==> PhaseOk(sc, s, i))
    && initial <= s.approved
    && (forall key :: key in s.approved ==> key in initial || Granted(sc, s, key))
    && (forall ask :: ask in s.asks ==> AskOk(sc, s, ask))
    && (forall id :: Terminals(s.events, id) == InPhase(sc.jobs, s.phases, IsFinished, id))
    && AreCalls(sc.jobs, s.executed)
    && StartsIn(s.events) == StartsOf(sc.jobs, s.executed)
  }

  lemma {:induction false} StepKeepsOthers(sc: Scenario, s: State, i: nat, k: nat)
    requires Enabled(sc, s, i) && k < |s.phases| && k != i && PhaseOk(sc, s, k)
    ensures PhaseOk(sc, StepTask(sc, s, i), k)
  {
    hide EffectOf;
    var t := StepTask(sc, s, i);
    assert s.approved <= t.approved && s.asks <= t.asks;
    assert forall ask :: ask in s.asks ==> ask in t.asks;
  }

  lemma {:induction false} StepKeepsOwn(sc: Scenario, s: State, i: nat)
    requires Enabled(sc, s, i) && PhaseOk(sc, s, i)
    ensures PhaseOk(sc, StepTask(sc, s, i), i)
  {
    var t, e := StepTask(sc, s, i), EffectOf(sc, s.approved, sc.jobs[i], s.phases[i]);
    assert s.approved <= t.approved && s.asks <= t.asks;
    assert t.phases[i] == e.phase;
    assert multiset(t.executed)[i] == multiset(s.executed)[i] + if e.phase.Executing? then 1 else 0;
    if AsksOf(s.phases[i], e.phase, i, sc.jobs[i].response) != [] {
      assert t.asks[|s.asks|] in t.asks;
    }
  }

  lemma {:induction false} StepKeepsPhases(sc: Scenario, s: State, i: nat, k: nat)
    requires Enabled(sc, s, i) && k < |s.phases|
    requires PhaseOk(sc, s, k) && PhaseOk(sc, s, i)
    ensures PhaseOk(sc, StepTask(sc, s, i), k)
  {
    if k == i {
      StepKeepsOwn(sc, s, i);
    } else {
      StepKeepsOthers(sc, s, i, k);
    }
  }

  lemma {:induction false} StepKeepsAsks(sc: Scenario, initial: set<Key>, s: State, i: nat, ask: Ask)
    requires Inv(sc, initial, s) && Enabled(sc, s, i)
    requires ask in StepTask(sc, s, i).asks
    ensures AskOk(sc, StepTask(sc, s, i), ask)
  {
    var t := StepTask(sc, s, i);
    assert PhaseOk(sc, s, i);
    assert forall a :: a in s.asks ==> a in t.asks;
    if ask in s.asks {
      assert AskOk(sc, s, ask);
    } else if ask.Told? {
      assert AskOk(sc, s, Asked(i));
    }
  }

  lemma {:induction false} StepKeepsGrants(sc: Scenario, initial: set<Key>, s: State, i: nat, key: Key)
    requires Inv(sc, initial, s) && Enabled(sc, s, i)
    requires key in StepTask(sc, s, i).approved && key !in initial
    ensures Granted(sc, StepTask(sc, s, i), key)
  {
    var t := StepTask(sc, s, i);
    if key in s.approved {
      var j :| 0 <= j < |sc.jobs| && GrantedBy(sc, s, j, key);
      assert GrantedBy(sc, t, j, key);
    } else {
      assert PhaseOk(sc, s, i);
      assert AskOk(sc, s, Asked(i));
      assert t.asks[|s.asks|] == Told(i, Once);
      assert GrantedBy(sc, t, i, key);
    }
  }

  lemma {:induction false} StepKeepsInv(sc: Scenario, initial: set<Key>, s: State, i: nat)
    requires Inv(sc, initial, s) && Enabled(sc, s, i)
    ensures Inv(sc, initial, StepTask(sc, s, i))
  {
    var t := StepTask(sc, s, i);
    forall k | 0 <= k < |t.phases|
      ensures PhaseOk(sc, t, k)
    {
      assert PhaseOk(sc, s, k) && PhaseOk(sc, s, i);
      StepKeepsPhases(sc, s, i, k);
    }
    forall id
      ensures Terminals(t.events, id) == InPhase(sc.jobs, t.phases, IsFinished, id)
    {
      StepKeepsTerminals(sc, s, i, id);
    }
    StepKeepsStarts(sc, s, i);
    forall key | key in t.approved && key !in initial
      ensures Granted(sc, t, key)
    {
      StepKeepsGrants(sc, initial, s, i, key);
    }
    forall ask | ask in t.asks
      ensures AskOk(sc, t, ask)
    {
      StepKeepsAsks(sc, initial, s, i, ask);
    }
  }

  lemma {:induction false} NothingInPhase(jobs: seq<Job>, phases: seq<Phase>, p: Phase -> bool, id: string)
    requires |jobs| == |phases|
    requires forall k :: 0 <= k < |phases| ==> !p(phases[k])
    ensures InPhase(jobs, phases, p, id) == 0
  {
    if jobs != [] {
      NothingInPhase(jobs[1..], phases[1..], p, id);
    }
  }

  lemma {:induction false} ExecKeepsInv(sc: Scenario, initial: set<Key>, s: State, schedule: seq<nat>)
    requires Inv(sc, initial, s) && Legal(sc, s, schedule)
    ensures Inv(sc, initial, Exec(sc, s, schedule))
    decreases |schedule|
  {
    if schedule != [] {
      StepKeepsInv(sc, initial, s, schedule[0]);
      ExecKeepsInv(sc, initial, StepTask(sc, s, schedule[0]), schedule[1..]);
    }
  }

  lemma {:induction false} StartInv(sc: Scenario, initial: set<Key>)
    ensures Inv(sc, initial, Start(sc, initial))
  {
    var s := Start(sc, initial);
    forall id
      ensures Terminals(s.events, id) == InPhase(sc.jobs, s.phases, IsFinished, id)
    {
      NothingInPhase(sc.jobs, s.phases, IsFinished, id);
    }
  }

  // ---------------------------------------------------------------- after the tasks are gathered

  function CrashEvent(job: Job): ToolEvent {
    ToolError(job.call.callId, job.call.name, job.errors.crashed)
  }

  /** A task that raised gets its terminal event once all tasks are done. */
  function CrashEvents(jobs: seq<Job>, phases: seq<Phase>): seq<ToolEvent>
    requires |jobs| == |phases|
  {
    if jobs == [] then []
    else
      (if phases[0].Crashed? then [CrashEvent(jobs[0])] else [])
        + CrashEvents(jobs[1..], phases[1..])
  }

  function VerdictOf(phase: Phase): Verdict {
    if phase.Finished? then phase.verdict else DispatchFailed
  }

  /** The outcomes in the order of the calls. */
  function Verdicts(s: State): seq<Verdict> {
    seq(|s.phases|, i requires 0 <= i < |s.phases| => VerdictOf(s.phases[i]))
  }

  lemma {:induction false} CrashTerminals(jobs: seq<Job>, phases: seq<Phase>, id: string)
    requires |jobs| == |phases|
    requires forall k :: 0 <= k < |phases| ==> Done(phases[k])
    ensures InPhase(jobs, phases, IsFinished, id) + Terminals(CrashEvents(jobs, phases), id) == CallsWithId(jobs, id)
  {
    if jobs != [] {
      CrashTerminals(jobs[1..], phases[1..], id);
      var first := if phases[0].Crashed? then [CrashEvent(jobs[0])] else [];
      TerminalsConcat(first, CrashEvents(jobs[1..], phases[1..]), id);
      if first != [] {
        assert first[..0] == [];
      }
    }
  }

  /** Under every schedule each call id gets exactly one terminal event per call carrying it. */
  lemma {:induction false} ExactlyOneTerminalEvent(sc: Scenario, initial: set<Key>, schedule: seq<nat>, id: string)
    requires Complete(sc, Start(sc, initial), schedule)
    ensures var s := Exec(sc, Start(sc, initial), schedule);
      && |s.phases| == |sc.jobs|
      && Terminals(s.events + CrashEvents(sc.jobs, s.phases), id) == CallsWithId(sc.jobs, id)
  {
    var s := Exec(sc, Start(sc, initial), schedule);
    StartInv(sc, initial);
    ExecKeepsInv(sc, initial, Start(sc, initial), schedule);
    TerminalsConcat(s.events, CrashEvents(sc.jobs, s.phases), id);
    CrashTerminals(sc.jobs, s.phases, id);
  }

  lemma {:induction false} CrashesStartNothing(jobs: seq<Job>, phases: seq<Phase>)
    requires |jobs| == |phases|
    ensures StartsIn(CrashEvents(jobs, phases)) == []
  {
    if jobs != [] {
      var first := if phases[0].Crashed? then [CrashEvent(jobs[0])] else [];
      CrashesStartNothing(jobs[1..], phases[1..]);
      StartsInConcat(first, CrashEvents(jobs[1..], phases[1..]));
      if first != [] {
        assert first[..0] == [];
      }
    }
  }

  /** Under every schedule, finished or not, the tools that run are those whose start is announced. */
  lemma {:induction false} StartsAreAnnounced(sc: Scenario, initial: set<Key>, schedule: seq<nat>)
    requires Legal(sc, Start(sc, initial), schedule)
    ensures var s := Exec(sc, Start(sc, initial), schedule);
      && |s.phases| == |sc.jobs| && AreCalls(sc.jobs, s.executed)
      && StartsIn(s.events) == StartsOf(sc.jobs, s.executed)
      && StartsIn(s.events + CrashEvents(sc.jobs, s.phases)) == StartsOf(sc.jobs, s.executed)
  {
    var s := Exec(sc, Start(sc, initial), schedule);
    StartInv(sc, initial);
    ExecKeepsInv(sc, initial, Start(sc, initial), schedule);
    CrashesStartNothing(sc.jobs, s.phases);
    StartsInConcat(s.events, CrashEvents(sc.jobs, s.phases));
  }

  /**
   * Under every schedule, finished or not, and so also at the moment a tool starts: a tool runs at
   * most once, only when permitted, every approval beyond the initial ones was answered by a callback
   * of this step, and every answer is that of a callback that was asked.
   */
  lemma {:induction false} OnlyPermittedToolsRun(sc: Scenario, initial: set<Key>, schedule: seq<nat>, i: nat)
    requires Legal(sc, Start(sc, initial), schedule)
    requires i in Exec(sc, Start(sc, initial), schedule).executed
    ensures var s := Exec(sc, Start(sc, initial), schedule);
      && i < |sc.jobs|
      && !sc.jobs[i].gate.Rejected?
      && Permitted(sc, s, i)
      && multiset(s.executed)[i] == 1
      && (forall key :: key in s.approved ==> key in initial || Granted(sc, s, key))
      && (forall ask :: ask in s.asks ==> AskOk(sc, s, ask))
  {
    var s := Exec(sc, Start(sc, initial), schedule);
    StartInv(sc, initial);
    ExecKeepsInv(sc, initial, Start(sc, initial), schedule);
    assert PhaseOk(sc, s, i);
    assert multiset(s.executed)[i] > 0;
  }

  /** Under every schedule, a key approved in this step was answered `once` by a callback that was asked. */
  lemma {:induction false} ApprovalsAreGranted(sc: Scenario, initial: set<Key>, schedule: seq<nat>, key: Key)
    requires Legal(sc, Start(sc, initial), schedule)
    requires key in Exec(sc, Start(sc, initial), schedule).approved && key !in initial
    ensures var s := Exec(sc, Start(sc, initial), schedule);
      && Granted(sc, s, key)
      && (forall ask :: ask in s.asks ==> AskOk(sc, s, ask))
  {
    StartInv(sc, initial);
    ExecKeepsInv(sc, initial, Start(sc, initial), schedule);
  }

  // ---------------------------------------------------------------- each call ends with its own event

  /** The events that end a call. */
  function EndsIn(events: seq<ToolEvent>): seq<ToolEvent> {
    if events == [] then []
    else
      var last := events[|events| - 1];
      EndsIn(events[..|events| - 1]) + if last.ToolStarted? then [] else [last]
  }

  lemma {:induction false} EndsInConcat(a: seq<ToolEvent>, b: seq<ToolEvent>)
    ensures EndsIn(a + b) == EndsIn(a) + EndsIn(b)
  {
    if b == [] {
      assert a + b == a;
    } else {
      assert (a + b)[..|a + b| - 1] == a + b[..|b| - 1];
      EndsInConcat(a, b[..|b| - 1]);
    }
  }

  /** What the end of a call reports: the tool's own output, or the text for what became of the call. */
  function Report(job: Job, verdict: Verdict): ToolEvent {
    match verdict
    case Ran(Completed(output, _)) => ToolCompleted(job.call.callId, job.call.name, output)
    case Ran(_) => ToolError(job.call.callId, job.call.name, job.errors.failed)
    case Turned => ToolError(job.call.callId, job.call.name, job.errors.turned)
    case DispatchFailed => ToolError(job.call.callId, job.call.name, job.errors.crashed)
  }

  const IsAny := (phase: Phase) => true

  /** The reports of the calls in a phase satisfying `p`. */
  function Reports(jobs: seq<Job>, phases: seq<Phase>, p: Phase -> bool): multiset<ToolEvent>
    requires |jobs| == |phases|
  {
    if jobs == [] then multiset{}
    else
      (if p(phases[0]) then multiset{Report(jobs[0], VerdictOf(phases[0]))} else multiset{}) +
      Reports(jobs[1..], phases[1..], p)
  }

  lemma {:induction false} ReportsUpdate(jobs: seq<Job>, phases: seq<Phase>, p: Phase -> bool, i: nat, phase: Phase)
    requires |jobs| == |phases| && i < |phases| && !p(phases[i])
    ensures Reports(jobs, phases[i := phase], p) ==
            Reports(jobs, phases, p) + if p(phase) then multiset{Report(jobs[i], VerdictOf(phase))} else multiset{}
  {
    hide Report, VerdictOf;
    var updated := phases[i := phase];
    if i == 0 {
      assert updated[1..] == phases[1..];
    } else {
      assert updated[1..] == phases[1..][i - 1 := phase];
      ReportsUpdate(jobs[1..], phases[1..], p, i - 1, phase);
    }
  }

  lemma {:induction false} EffectReports(sc: Scenario, approved: set<Key>, job: Job, phase: Phase)
    requires !Done(phase)
    ensures var e := EffectOf(sc, approved, job, phase);
      multiset(EndsIn(e.events)) ==
      if e.phase.Finished? then multiset{Report(job, VerdictOf(e.phase))} else multiset{}
  {
    hide EffectOf, Report;
    var e := EffectOf(sc, approved, job, phase);
    EffectEvents(sc, approved, job, phase);
    if e.events != [] {
      assert e.events == [e.events[0]];
      EndsInOne(e.events[0]);
    }
  }

  lemma {:induction false} EndsInOne(event: ToolEvent)
    ensures EndsIn([event]) == if event.ToolStarted? then [] else [event]
  {
    assert [event][..0] == [];
  }

  lemma {:induction false} EffectEvents(sc: Scenario, approved: set<Key>, job: Job, phase: Phase)
    requires !Done(phase)
    ensures var e := EffectOf(sc, approved, job, phase);
      if e.phase.Finished? then e.events == [Report(job, VerdictOf(e.phase))] && !e.events[0].ToolStarted?
      else e.events == [] || (|e.events| == 1 && e.events[0].ToolStarted?)
  {
  }

  lemma {:induction false} StepReports(sc: Scenario, s: State, i: nat)
    requires Enabled(sc, s, i) && multiset(EndsIn(s.events)) == Reports(sc.jobs, s.phases, IsFinished)
    ensures var t := StepTask(sc, s, i); multiset(EndsIn(t.events)) == Reports(sc.jobs, t.phases, IsFinished)
  {
    hide EffectOf, Report, Reports, VerdictOf;
    var e := EffectOf(sc, s.approved, sc.jobs[i], s.phases[i]);
    EndsInConcat(s.events, e.events);
    EffectReports(sc, s.approved, sc.jobs[i], s.phases[i]);
    ReportsUpdate(sc.jobs, s.phases, IsFinished, i, e.phase);
  }

  lemma {:induction false} ExecReports(sc: Scenario, s: State, schedule: seq<nat>)
    requires Legal(sc, s, schedule) && |s.phases| == |sc.jobs|
    requires multiset(EndsIn(s.events)) == Reports(sc.jobs, s.phases, IsFinished)
    ensures var t := Exec(sc, s, schedule);
      |t.phases| == |sc.jobs| && multiset(EndsIn(t.events)) == Reports(sc.jobs, t.phases, IsFinished)
    decreases |schedule|
  {
    hide StepTask, Reports, EndsIn;
    if schedule != [] {
      StepReports(sc, s, schedule[0]);
      KeepsLength(sc, s, schedule[0]);
      ExecReports(sc, StepTask(sc, s, schedule[0]), schedule[1..]);
    }
  }

  lemma {:induction false} KeepsLength(sc: Scenario, s: State, i: nat)
    requires Enabled(sc, s, i)
    ensures |StepTask(sc, s, i).phases| == |s.phases|
  {
  }

  lemma {:induction false} NothingReported(jobs: seq<Job>, phases: seq<Phase>, p: Phase -> bool)
    requires |jobs| == |phases| && forall k :: 0 <= k < |phases| ==> !p(phases[k])
    ensures Reports(jobs, phases, p) == multiset{}
  {
    if jobs != [] {
      NothingReported(jobs[1..], phases[1..], p);
    }
  }

  lemma {:induction false} CrashReports(jobs: seq<Job>, phases: seq<Phase>)
    requires |jobs| == |phases| && forall k :: 0 <= k < |phases| ==> Done(phases[k])
    ensures Reports(jobs, phases, IsFinished) + multiset(EndsIn(CrashEvents(jobs, phases))) ==
            Reports(jobs, phases, IsAny)
  {
    hide Report, EndsIn, CrashEvent;
    if jobs == [] {
      NoEnds();
    } else {
      var rest := CrashEvents(jobs[1..], phases[1..]);
      var first := if phases[0].Crashed? then [CrashEvent(jobs[0])] else [];
      CrashReports(jobs[1..], phases[1..]);
      CrashIsReport(jobs[0]);
      EndsInConcat(first, rest);
      EndsInOne(CrashEvent(jobs[0]));
      NoEnds();
      assert multiset(EndsIn(first) + EndsIn(rest)) == multiset(EndsIn(first)) + multiset(EndsIn(rest));
      assert EndsIn(first) == first;
      assert Done(phases[0]);
    }
  }

  lemma {:induction false} CrashIsReport(job: Job)
    ensures CrashEvent(job) == Report(job, DispatchFailed) && !CrashEvent(job).ToolStarted?
  {
  }

  /**
   * Under every complete schedule the events that end calls are exactly the reports of the calls, one for
   * each: a completed call's carries the output of its own tool, and any other the text for its own end.
   */
  lemma {:induction false} EachCallReportsItsOwnEnd(sc: Scenario, initial: set<Key>, schedule: seq<nat>)
    requires Complete(sc, Start(sc, initial), schedule)
    ensures var s := Exec(sc, Start(sc, initial), schedule);
      && |s.phases| == |sc.jobs|
      && multiset(EndsIn(s.events + CrashEvents(sc.jobs, s.phases))) ==
         Reports(sc.jobs, s.phases, IsAny)
  {
    hide Report, Reports, EndsIn, CrashEvents;
    var start, s := Start(sc, initial), Exec(sc, Start(sc, initial), schedule);
    NothingReported(sc.jobs, start.phases, IsFinished);
    NoEnds();
    ExecReports(sc, start, schedule);
    CrashReports(sc.jobs, s.phases);
    EndsInConcat(s.events, CrashEvents(sc.jobs, s.phases));
  }

  lemma {:induction false} NoEnds()
    ensures EndsIn([]) == []
  {
  }
}
