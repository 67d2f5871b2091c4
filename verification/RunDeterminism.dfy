/**
 * A run is a function of what the provider, the users and the tools answer: the interleavings of its
 * tasks, and those of its children, change nothing.
 */
module RunDeterminism {
  import opened Wrappers
  import opened Messages
  import opened Providers
  import opened StreamAssembly
  import opened ProviderRetry
  import opened Compaction
  import opened CompactionTheorems
  import opened ToolDispatch
  import opened RunLog
  import opened RunTools
  import opened RunTrace

  // ---------------------------------------------------------------- what two runs have in common

  /** Neither was tried, or both were answered alike. */
  predicate SameAttempt(a: Attempt, b: Attempt) {
    && a.Summarised? == b.Summarised?
    && (a.Summarised? ==>
          && a.child.prompt == b.child.prompt && a.child.at == b.child.at
          && a.child.result == b.child.result && a.child.sent == b.child.sent)
  }

  predicate SameSendings(a: Sendings, b: Sendings) {
    && a.first == b.first && SameAttempt(a.onOverflow, b.onOverflow) && a.second == b.second
    && SameAttempt(a.onLength, b.onLength) && a.third == b.third
  }

  lemma {:induction false} SameAttemptMeans(
      a: Attempt, b: Attempt, ms: seq<Message>, limits: ModelLimits, overflow: bool)
    requires SameAttempt(a, b)
    ensures Summary(a) == Summary(b) && Interrupted(a) == Interrupted(b) && SentIn(a) == SentIn(b)
    ensures After(ms, a, limits, overflow) == After(ms, b, limits, overflow)
  {
    hide Compacted;
  }

  // ---------------------------------------------------------------- one request

  /** The replies tell how often a request is sent. */
  lemma {:induction false} SameRetries(
    a: seq<Exchange>, b: seq<Exchange>, agent: Agent, request: seq<Message>, replies: nat -> Reply, n: nat)
    requires Retried(a, agent, request) && Retried(b, agent, request)
    requires FromStream(a, replies, n) && FromStream(b, replies, n)
    ensures a == b
  {
    hide IsRetryable;
    if |a| < |b| {
      RetriesNoFewer(a, b, agent, request, replies, n);
    } else if |b| < |a| {
      RetriesNoFewer(b, a, agent, request, replies, n);
    }
    forall i | 0 <= i < |a|
      ensures a[i] == b[i]
    {
      assert a[i] in a && b[i] in b;
    }
  }

  lemma {:induction false} RetriesNoFewer(
    a: seq<Exchange>, b: seq<Exchange>, agent: Agent, request: seq<Message>, replies: nat -> Reply, n: nat)
    requires Retried(a, agent, request) && Retried(b, agent, request)
    requires FromStream(a, replies, n) && FromStream(b, replies, n)
    ensures |a| >= |b|
  {
    hide IsRetryable, IsTransient;
    if |a| < |b| {
      AllButTheLastFail(b, agent, request, |a| - 1);
      SameIsTransient(a[|a| - 1], b[|a| - 1]);
    }
  }

  lemma {:induction false} AllButTheLastFail(sent: seq<Exchange>, agent: Agent, request: seq<Message>, k: nat)
    requires Retried(sent, agent, request) && k < |sent| - 1
    ensures IsTransient(sent[k])
  {
    hide IsRetryable;
    assert sent[..|sent| - 1][k] in sent[..|sent| - 1];
  }

  lemma {:induction false} SameIsTransient(x: Exchange, y: Exchange)
    requires x.reply == y.reply
    ensures IsTransient(x) == IsTransient(y)
  {
    hide IsRetryable;
  }

  lemma {:induction false} SameSent(
    a: seq<Exchange>, b: seq<Exchange>, reached: bool, agent: Agent, request: seq<Message>,
    replies: nat -> Reply, n: nat)
    requires SentWhen(a, reached, agent, request) && SentWhen(b, reached, agent, request)
    requires FromStream(a, replies, n) && FromStream(b, replies, n)
    ensures a == b
  {
    hide Retried;
    if reached {
      SameRetries(a, b, agent, request, replies, n);
    }
  }

  // ---------------------------------------------------------------- attempts, sendings and turns

  /** A compaction agent asks no other. */
  lemma {:induction false} ChildrenHaveNone(su: Setup, initial: seq<Message>, turns: seq<Turn>)
    requires su.agent.CompactionAgent? && IsTrace(su, initial, turns)
    ensures AllTraced(su.env, turns)
  {
    hide Retried, SentWhen, ToolsOk, MessagesAfter, CallHistory, ApprovedAfter, AllSent, Overfull, LateDue, Extended;
    hide Begun, Between, ChildOk, EndOfTurn;
    forall t | t in turns
      ensures TurnTraced(su.env, t)
    {
      var k :| 0 <= k < |turns| && turns[k] == t;
      assert TurnAt(su, initial, turns, k);
    }
  }

  function Level(agent: Agent): nat {
    if agent.CompactionAgent? then 0 else 1
  }

  lemma {:induction false} AttemptsAgree(
    env: Environment, agent: Agent, opts: RunOptions, ms: seq<Message>, due: bool, n: nat, a: Attempt, b: Attempt,
    replies: nat -> Reply)
    requires AttemptOk(env, agent, opts, ms, due, n, a) && AttemptOk(env, agent, opts, ms, due, n, b)
    requires AttemptTraced(env, a) && AttemptTraced(env, b)
    requires FromStream(SentIn(a), replies, n) && FromStream(SentIn(b), replies, n)
    ensures SameAttempt(a, b)
    decreases Level(agent), 0
  {
    hide Traced, AllSent, AllTraced, SelectSpec, SummaryPrompt;
    if a.Summarised? {
      var su, initial := ChildSetup(env, n), ChildMessages(env, a.child.prompt);
      ChildIsTrace(env, a.child);
      ChildIsTrace(env, b.child);
      ChildrenHaveNone(su, initial, a.child.turns);
      ChildrenHaveNone(su, initial, b.child.turns);
      RunsAreDetermined(su, initial, a.child.turns, b.child.turns, a.child.result, b.child.result, replies);
    }
  }

  lemma {:induction false} ChildIsTrace(env: Environment, child: Child)
    requires ChildOk(env, child)
    ensures IsTrace(ChildSetup(env, child.at), ChildMessages(env, child.prompt), child.turns)
    ensures ChildSetup(env, child.at).agent.CompactionAgent? && child.result != Failure(InvalidRun)
  {
    hide IsTrace, EndOfTurn, AllSent, ChildMessages;
  }

  lemma {:induction false} StreamOfSendings(s: Sendings, replies: nat -> Reply, n: nat)
    requires FromStream(SentFor(s), replies, n)
    ensures var m := n + |s.first|; var l := m + |SentIn(s.onOverflow) + s.second|;
      && FromStream(s.first, replies, n)
      && FromStream(SentIn(s.onOverflow), replies, m) && FromStream(s.second, replies, m + |SentIn(s.onOverflow)|)
      && FromStream(SentIn(s.onLength), replies, l) && FromStream(s.third, replies, l + |SentIn(s.onLength)|)
  {
    hide FromStream, SentIn;
    var x, y := SentIn(s.onOverflow) + s.second, SentIn(s.onLength) + s.third;
    FromStreamConcat(s.first + x, y, replies, n);
    FromStreamConcat(s.first, x, replies, n);
    FromStreamConcat(SentIn(s.onOverflow), s.second, replies, n + |s.first|);
    assert n + |s.first + x| == n + |s.first| + |x|;
    FromStreamConcat(SentIn(s.onLength), s.third, replies, n + |s.first| + |x|);
  }

  /** What follows the first sendings, when an overflow is to be dealt with. */
  lemma {:induction false} OverflowsAgree(
    env: Environment, agent: Agent, opts: RunOptions, ms: seq<Message>, step: int, isLast: bool, n: nat,
    first: seq<Exchange>, a: Attempt, second: seq<Exchange>, b: Attempt, second': seq<Exchange>, replies: nat -> Reply)
    requires OverflowOk(env, agent, opts, ms, step, isLast, n, first, a, second)
    requires OverflowOk(env, agent, opts, ms, step, isLast, n, first, b, second')
    requires AttemptTraced(env, a) && AttemptTraced(env, b)
    requires FromStream(SentIn(a), replies, n) && FromStream(second, replies, n + |SentIn(a)|)
    requires FromStream(SentIn(b), replies, n) && FromStream(second', replies, n + |SentIn(b)|)
    ensures SameAttempt(a, b) && second == second'
    decreases Level(agent), 1
  {
    hide AttemptOk, AttemptTraced, FromStream, SentWhen, Overflowed, After, SameAttempt, SentIn, LastStepRequest;
    hide Interrupted;
    AttemptsAgree(env, agent, opts, ms, Overflowed(first, step), n, a, b, replies);
    SameAttemptMeans(a, b, ms, opts.limits, true);
    SameSent(second, second', Overflowed(first, step) && !Interrupted(a), agent,
             LastStepRequest(After(ms, a, opts.limits, true), isLast), replies, n + |SentIn(a)|);
  }

  /** And what follows those, when a length stop is. */
  lemma {:induction false} LengthsAgree(
    env: Environment, agent: Agent, opts: RunOptions, ms: seq<Message>, isLast: bool, n: nat,
    r: Result<StepOutput, RunError>, a: Attempt, third: seq<Exchange>, b: Attempt, third': seq<Exchange>,
    replies: nat -> Reply)
    requires LengthOk(env, agent, opts, ms, isLast, n, r, a, third)
    requires LengthOk(env, agent, opts, ms, isLast, n, r, b, third')
    requires AttemptTraced(env, a) && AttemptTraced(env, b)
    requires FromStream(SentIn(a), replies, n) && FromStream(third, replies, n + |SentIn(a)|)
    requires FromStream(SentIn(b), replies, n) && FromStream(third', replies, n + |SentIn(b)|)
    ensures SameAttempt(a, b) && third == third'
    decreases Level(agent), 1
  {
    hide AttemptOk, AttemptTraced, FromStream, SentWhen, LengthStopped, After, SameAttempt, SentIn, LastStepRequest;
    hide Summary;
    AttemptsAgree(env, agent, opts, ms, LengthStopped(r), n, a, b, replies);
    SameAttemptMeans(a, b, ms, opts.limits, false);
    SameSent(third, third', Summary(a) != "", agent,
             LastStepRequest(After(ms, a, opts.limits, false), isLast), replies, n + |SentIn(a)|);
  }

  lemma {:induction false} SendingsAgree(
    env: Environment, agent: Agent, opts: RunOptions, ms: seq<Message>, step: int, isLast: bool, n: nat,
    a: Sendings, b: Sendings, replies: nat -> Reply)
    requires SendingsOk(env, agent, opts, ms, step, isLast, n, a)
              && SendingsOk(env, agent, opts, ms, step, isLast, n, b)
    requires SendingsTraced(env, a) && SendingsTraced(env, b)
    requires FromStream(SentFor(a), replies, n) && FromStream(SentFor(b), replies, n)
    ensures SameSendings(a, b)
    decreases Level(agent), 2
  {
    hide AttemptTraced, FromStream, Retried, OverflowOk, LengthOk, OverflowOutcome, After;
    hide SameAttempt, SentFor, SentIn, LastStepRequest, Summary, Interrupted;
    StreamOfSendings(a, replies, n);
    StreamOfSendings(b, replies, n);
    SameRetries(a.first, b.first, agent, LastStepRequest(ms, isLast), replies, n);
    OverflowsAgree(env, agent, opts, ms, step, isLast, n + |a.first|, a.first, a.onOverflow, a.second, b.onOverflow,
                   b.second, replies);
    SameAttemptMeans(a.onOverflow, b.onOverflow, ms, opts.limits, true);
    SameOverflowOutcome(a, b, step);
    LengthsAgree(env, agent, opts, Between(ms, a, opts.limits), isLast,
                 n + |a.first| + |SentIn(a.onOverflow) + a.second|, OverflowOutcome(a.first, a.onOverflow, a.second,
                     step), a.onLength, a.third, b.onLength, b.third, replies);
  }

  lemma {:induction false} SameOverflowOutcome(a: Sendings, b: Sendings, step: int)
    requires a.first == b.first && SameAttempt(a.onOverflow, b.onOverflow) && a.second == b.second
    ensures OverflowOutcome(a.first, a.onOverflow, a.second, step) ==
              OverflowOutcome(b.first, b.onOverflow, b.second, step)
  {
    hide LastResult, Overflowed;
  }

  lemma {:induction false} SameSendingsMean(
    a: Sendings, b: Sendings, ms: seq<Message>, step: int, limits: ModelLimits)
    requires SameSendings(a, b)
    ensures SentFor(a) == SentFor(b) && AnswerTo(a, step) == AnswerTo(b, step)
    ensures ShownBy(ms, a, limits) == ShownBy(ms, b, limits)
  {
    hide SameAttempt, LastResult, OverflowOutcome, After, Interrupted, Summary, SentIn;
    SameOverflowOutcome(a, b, step);
    SameAttemptMeans(a.onOverflow, b.onOverflow, ms, limits, true);
    SameAttemptMeans(a.onLength, b.onLength, Between(ms, a, limits), limits, false);
  }

  /** The same early attempt and the same sendings. */
  predicate SameProviderPart(t: Turn, t': Turn) {
    SameAttempt(t.early, t'.early) && SameSendings(t.sendings, t'.sendings)
  }

  lemma {:induction false} StreamOfTurn(t: Turn, replies: nat -> Reply, n: nat)
    requires FromStream(SentOfTurn(t), replies, n)
    ensures FromStream(SentIn(t.early), replies, n)
    ensures FromStream(SentFor(t.sendings), replies, n + |SentIn(t.early)|)
    ensures FromStream(SentIn(t.late), replies, n + |BeforeTools(t)|)
  {
    hide FromStream, SentIn, SentFor;
    FromStreamConcat(BeforeTools(t), SentIn(t.late), replies, n);
    FromStreamConcat(SentIn(t.early), SentFor(t.sendings), replies, n);
  }

  lemma {:induction false} ProviderPartsAgree(
    su: Setup, start: seq<Message>, step: int, n: nat, t: Turn, t': Turn, replies: nat -> Reply)
    requires ProviderOk(su.env, su.agent, su.opts, start, step, IsLastStep(step, su.maxSteps), n, t)
    requires ProviderOk(su.env, su.agent, su.opts, start, step, IsLastStep(step, su.maxSteps), n, t')
    requires TurnTraced(su.env, t) && TurnTraced(su.env, t')
    requires FromStream(SentOfTurn(t), replies, n) && FromStream(SentOfTurn(t'), replies, n)
    ensures SameProviderPart(t, t')
    decreases Level(su.agent), 3
  {
    hide AttemptOk, SendingsOk, AttemptTraced, SendingsTraced, FromStream, SentIn, SentFor, SentOfTurn, BeforeTools;
    hide After;
    hide SameAttempt, SameSendings, Overfull, Interrupted, Summary;
    StreamOfTurn(t, replies, n);
    StreamOfTurn(t', replies, n);
    AttemptsAgree(su.env, su.agent, su.opts, start, step == 1 && Overfull(su.opts.lastStep, su.opts), n,
                  t.early, t'.early, replies);
    SameAttemptMeans(t.early, t'.early, start, su.opts.limits, false);
    if Interrupted(t.early) {
      NothingIsSame();
    } else {
      SendingsAgree(su.env, su.agent, su.opts, Begun(start, t, su.opts.limits), step, IsLastStep(step, su.maxSteps),
                    n + |SentIn(t.early)|, t.sendings, t'.sendings, replies);
    }
  }

  lemma {:induction false} NothingIsSame()
    ensures SameSendings(NOTHING_SENT, NOTHING_SENT)
  {
  }

  /** What the two turns then show, answer and have sent. */
  lemma {:induction false} SameProviderPartMeans(t: Turn, t': Turn, start: seq<Message>, step: int, limits: ModelLimits)
    requires SameProviderPart(t, t')
    ensures BeforeTools(t) == BeforeTools(t') && AnswerOf(t, step) == AnswerOf(t', step)
    ensures Begun(start, t, limits) == Begun(start, t', limits) && Shown(start, t, limits) == Shown(start, t', limits)
    ensures RecordOf(start, t.early, limits, false) == RecordOf(start, t'.early, limits, false)
    ensures RecordsFor(Begun(start, t, limits), t.sendings, limits) ==
            RecordsFor(Begun(start, t', limits), t'.sendings, limits)
  {
    hide SameAttempt, SentIn, SentFor, AnswerTo, ShownBy, After, Summary, ApplyCompaction;
    SameAttemptMeans(t.early, t'.early, start, limits, false);
    var begun := Begun(start, t, limits);
    SameSendingsMean(t.sendings, t'.sendings, begun, step, limits);
    SameAttemptMeans(t.sendings.onOverflow, t'.sendings.onOverflow, begun, limits, true);
    SameAttemptMeans(t.sendings.onLength, t'.sendings.onLength, begun, limits, false);
  }

  /** The calls of both turns have the same results, and leave the same approvals. */
  lemma {:induction false} ToolPartsAgree(
    su: Setup, history: seq<string>, approved: set<Key>, step: int, n: nat, t: Turn, t': Turn)
    requires ToolsOk(su.env, su.agent, su.opts, history, approved, step, IsLastStep(step, su.maxSteps), n, t)
    requires ToolsOk(su.env, su.agent, su.opts, history, approved, step, IsLastStep(step, su.maxSteps), n, t')
    requires AnswerOf(t, step) == AnswerOf(t', step) && BeforeTools(t) == BeforeTools(t')
    ensures t.results == t'.results && t.tools.moment == t'.tools.moment
    ensures RunsTools(t, step, IsLastStep(step, su.maxSteps))
              && !CutShort(su.env, t, step, IsLastStep(step, su.maxSteps)) ==>
      var calls := OutputAt(t, step).calls;
      && IsRun(su.env, su.agent, su.opts, calls, approved, t.tools)
      && IsRun(su.env, su.agent, su.opts, calls, approved, t'.tools)
      && EndOfRun(su.env, su.agent, su.opts, calls, approved, t.tools).approved ==
         EndOfRun(su.env, su.agent, su.opts, calls, approved, t'.tools).approved
  {
    hide IsRun, EndOfRun, FlagsExact, AnswerOf, BeforeTools, OutcomesOf, OutcomeMessages, AllDone, Verdicts, StopsHere;
    if RunsTools(t, step, IsLastStep(step, su.maxSteps)) && !su.env.cancels(t.tools.moment) {
      ResultsAreDetermined(su.env, su.agent, su.opts, OutputAt(t, step).calls, history, approved, t.tools, t'.tools,
                           t.results, t'.results);
    }
  }

  /** From the same state, with the same replies, both turns send, answer and record the same. */
  predicate SameTurn(su: Setup, start: seq<Message>, step: int, t: Turn, t': Turn) {
    && SentOfTurn(t) == SentOfTurn(t') && AnswerOf(t, step) == AnswerOf(t', step)
    && TurnEnd(su, start, t, step) == TurnEnd(su, start, t', step)
    && Next(start, t, step, su.opts.limits) == Next(start, t', step, su.opts.limits)
    && RecordsOfTurn(start, t, step, su.opts.limits) == RecordsOfTurn(start, t', step, su.opts.limits)
  }

  lemma {:induction false} TurnsAgree(
    su: Setup, start: seq<Message>, history: seq<string>, approved: set<Key>, step: int, n: nat, t: Turn, t': Turn,
    replies: nat -> Reply)
    requires TurnOk(su, start, history, approved, step, n, t) && TurnOk(su, start, history, approved, step, n, t')
    requires TurnTraced(su.env, t) && TurnTraced(su.env, t')
    requires FromStream(SentOfTurn(t), replies, n) && FromStream(SentOfTurn(t'), replies, n)
    ensures SameTurn(su, start, step, t, t')
    ensures TurnEnd(su, start, t, step).Continue? ==>
      var calls := OutputAt(t, step).calls;
      && IsRun(su.env, su.agent, su.opts, calls, approved, t.tools)
      && IsRun(su.env, su.agent, su.opts, calls, approved, t'.tools)
      && EndOfRun(su.env, su.agent, su.opts, calls, approved, t.tools).approved ==
         EndOfRun(su.env, su.agent, su.opts, calls, approved, t'.tools).approved
    decreases Level(su.agent), 4
  {
    hide ProviderOk, ToolsOk, AttemptOk, TurnTraced, FromStream, BeforeTools, SentIn, Begun, Shown, AnswerOf, After;
    hide SameProviderPart, IsRun, EndOfRun, Overfull, StopsHere, RecordsFor, RecordOf, Interrupted, WithAnswer;
    ProviderPartsAgree(su, start, step, n, t, t', replies);
    SameProviderPartMeans(t, t', start, step, su.opts.limits);
    ToolPartsAgree(su, history, approved, step, n, t, t');
    StreamOfTurn(t, replies, n);
    StreamOfTurn(t', replies, n);
    TracedTurn(su.env, t);
    TracedTurn(su.env, t');
    var isLast, limits := IsLastStep(step, su.maxSteps), su.opts.limits;
    var extended := Extended(start, t, step, limits);
    AttemptsAgree(su.env, su.agent, su.opts, extended, LateDue(su.env, su.opts, t, step, isLast),
                  n + |BeforeTools(t)|, t.late, t'.late, replies);
    SameAttemptMeans(t.late, t'.late, extended, limits, false);
    SameRecord(t.late, t'.late, extended, limits);
  }

  lemma {:induction false} TracedTurn(env: Environment, t: Turn)
    requires TurnTraced(env, t)
    ensures AttemptTraced(env, t.late)
  {
    hide AttemptTraced;
  }

  lemma {:induction false} SameRecord(a: Attempt, b: Attempt, ms: seq<Message>, limits: ModelLimits)
    requires Summary(a) == Summary(b)
    ensures RecordOf(ms, a, limits, false) == RecordOf(ms, b, limits, false)
  {
    hide Summary, ApplyCompaction;
  }

  // ---------------------------------------------------------------- whole runs

  /** The first turns of both runs lead to the same state. */
  predicate SamePrefix(su: Setup, initial: seq<Message>, a: seq<Turn>, b: seq<Turn>) {
    && MessagesAfter(initial, a, su.opts.limits) == MessagesAfter(initial, b, su.opts.limits)
    && CallHistory(su, a) == CallHistory(su, b) && ApprovedAfter(su, a) == ApprovedAfter(su, b)
    && AllSent(a) == AllSent(b)
    && AllRecords(initial, a, su.opts.limits) == AllRecords(initial, b, su.opts.limits)
  }

  lemma {:induction false} StreamUpTo(turns: seq<Turn>, k: nat, replies: nat -> Reply, n: nat)
    requires k < |turns| && FromStream(AllSent(turns), replies, n)
    ensures FromStream(SentOfTurn(turns[k]), replies, n + |AllSent(turns[..k])|)
    decreases |turns|
  {
    hide FromStream, SentOfTurn;
    var init := turns[..|turns| - 1];
    FromStreamConcat(AllSent(init), SentOfTurn(turns[|turns| - 1]), replies, n);
    if k < |init| {
      StreamUpTo(init, k, replies, n);
      assert init[..k] == turns[..k];
    }
  }

  /** Turn `k` of both runs, behind the same state. */
  lemma {:induction false} TurnsAgreeAt(
    su: Setup, initial: seq<Message>, a: seq<Turn>, b: seq<Turn>, k: nat, replies: nat -> Reply)
    requires k < |a| && k < |b| && IsTrace(su, initial, a) && IsTrace(su, initial, b)
    requires AllTraced(su.env, a) && AllTraced(su.env, b)
    requires FromStream(AllSent(a), replies, su.at) && FromStream(AllSent(b), replies, su.at)
    requires SamePrefix(su, initial, a[..k], b[..k])
    ensures EndOfTurn(su, initial, a, k) == EndOfTurn(su, initial, b, k)
    ensures SentOfTurn(a[k]) == SentOfTurn(b[k])
    ensures RecordsOfTurn(MessagesAfter(initial, a[..k], su.opts.limits), a[k], k + 1, su.opts.limits) ==
            RecordsOfTurn(MessagesAfter(initial, a[..k], su.opts.limits), b[k], k + 1, su.opts.limits)
    ensures EndOfTurn(su, initial, a, k).Continue? ==> SamePrefix(su, initial, a[..k + 1], b[..k + 1])
    decreases Level(su.agent), 5
  {
    hide TurnOk, TurnTraced, FromStream, SentOfTurn, TurnEnd, Next, RecordsOfTurn, AnswerOf, IsRun, EndOfRun;
    hide MessagesAfter, CallHistory, ApprovedAfter, AllSent, AllRecords;
    assert TurnAt(su, initial, a, k) && TurnAt(su, initial, b, k);
    StreamUpTo(a, k, replies, su.at);
    StreamUpTo(b, k, replies, su.at);
    var start, n := MessagesAfter(initial, a[..k], su.opts.limits), su.at + |AllSent(a[..k])|;
    TurnsAgree(su, start, CallHistory(su, a[..k]), ApprovedAfter(su, a[..k]), k + 1, n, a[k], b[k], replies);
    if EndOfTurn(su, initial, a, k).Continue? {
      assert a[..k] + [a[k]] == a[..k + 1] && b[..k] + [b[k]] == b[..k + 1];
      StateAfter(su, initial, a[..k], a[k]);
      StateAfter(su, initial, b[..k], b[k]);
      ApprovedAgree(su, a[..k], b[..k], a[k], b[k]);
    }
  }

  lemma {:induction false} ApprovedAgree(su: Setup, a: seq<Turn>, b: seq<Turn>, t: Turn, t': Turn)
    requires |a| == |b| && ApprovedAfter(su, a) == ApprovedAfter(su, b)
    requires AnswerOf(t, |a| + 1) == AnswerOf(t', |a| + 1)
    requires var calls := OutputAt(t, |a| + 1).calls;
      && IsRun(su.env, su.agent, su.opts, calls, ApprovedAfter(su, a), t.tools)
      && IsRun(su.env, su.agent, su.opts, calls, ApprovedAfter(su, a), t'.tools)
      && EndOfRun(su.env, su.agent, su.opts, calls, ApprovedAfter(su, a), t.tools).approved ==
         EndOfRun(su.env, su.agent, su.opts, calls, ApprovedAfter(su, a), t'.tools).approved
    ensures ApprovedAfter(su, a + [t]) == ApprovedAfter(su, b + [t'])
  {
    hide IsRun, EndOfRun, AnswerOf;
    PrefixOf(a, t, |a|);
    PrefixOf(b, t', |b|);
  }

  lemma {:induction false} GoesOn(su: Setup, initial: seq<Message>, turns: seq<Turn>, k: nat)
    requires IsTrace(su, initial, turns) && k < |turns| - 1
    ensures EndOfTurn(su, initial, turns, k).Continue?
  {
    hide TurnAt, EndOfTurn;
  }

  /** As long as both runs go on they agree. */
  lemma {:induction false} PrefixesAgree(
    su: Setup, initial: seq<Message>, a: seq<Turn>, b: seq<Turn>, k: nat, replies: nat -> Reply)
    requires k < |a| && k < |b| && IsTrace(su, initial, a) && IsTrace(su, initial, b)
    requires AllTraced(su.env, a) && AllTraced(su.env, b)
    requires FromStream(AllSent(a), replies, su.at) && FromStream(AllSent(b), replies, su.at)
    ensures SamePrefix(su, initial, a[..k], b[..k])
    decreases Level(su.agent), 6, k
  {
    hide IsTrace, EndOfTurn, AllTraced, FromStream, SamePrefix, AllSent;
    if k == 0 {
      assert a[..0] == [] && b[..0] == [];
      SameOfNothing(su, initial);
    } else {
      PrefixesAgree(su, initial, a, b, k - 1, replies);
      GoesOn(su, initial, a, k - 1);
      TurnsAgreeAt(su, initial, a, b, k - 1, replies);
    }
  }

  lemma {:induction false} SameOfNothing(su: Setup, initial: seq<Message>)
    ensures SamePrefix(su, initial, [], [])
  {
  }

  /**
   * Two runs that are set up alike and get the same replies from the provider, request by request, send
   * the same requests, record the same compactions and come to the same result, however their tasks and
   * those of their children were interleaved.
   */
  lemma {:induction false} RunsAreDetermined(
    su: Setup, initial: seq<Message>, a: seq<Turn>, b: seq<Turn>, ra: Result<RunResult, RunError>,
    rb: Result<RunResult, RunError>, replies: nat -> Reply)
    requires Traced(ra, su, initial, a) && Traced(rb, su, initial, b)
    requires AllTraced(su.env, a) && AllTraced(su.env, b)
    requires FromStream(AllSent(a), replies, su.at) && FromStream(AllSent(b), replies, su.at)
    requires ra == Failure(InvalidRun) <==> rb == Failure(InvalidRun)
    ensures ra == rb && |a| == |b| && AllSent(a) == AllSent(b)
    ensures AllRecords(initial, a, su.opts.limits) == AllRecords(initial, b, su.opts.limits)
    decreases Level(su.agent), 7
  {
    hide TurnAt, EndOfTurn, AllTraced, FromStream, SamePrefix, AllSent, AllRecords, SentOfTurn, RecordsOfTurn, Billed;
    hide SumUsage;
    if a != [] {
      var last := if |a| <= |b| then |a| - 1 else |b| - 1;
      PrefixesAgree(su, initial, a, b, last, replies);
      TurnsAgreeAt(su, initial, a, b, last, replies);
      assert |a| == |b|;
      LastTurn(a);
      LastTurn(b);
      SamePrefixMeans(su, initial, a[..last], b[..last]);
      RecordsOfLast(initial, a, su.opts.limits);
      RecordsOfLast(initial, b, su.opts.limits);
    }
  }

  lemma {:induction false} LastTurn(turns: seq<Turn>)
    requires turns != []
    ensures AllSent(turns) == AllSent(turns[..|turns| - 1]) + SentOfTurn(turns[|turns| - 1])
  {
  }

  lemma {:induction false} RecordsOfLast(initial: seq<Message>, turns: seq<Turn>, limits: ModelLimits)
    requires turns != []
    ensures AllRecords(initial, turns, limits) ==
            AllRecords(initial, turns[..|turns| - 1], limits) +
            RecordsOfTurn(MessagesAfter(initial, turns[..|turns| - 1], limits), turns[|turns| - 1], |turns|, limits)
  {
    hide RecordsOfTurn, MessagesAfter;
  }

  lemma {:induction false} SamePrefixMeans(su: Setup, initial: seq<Message>, a: seq<Turn>, b: seq<Turn>)
    requires SamePrefix(su, initial, a, b)
    ensures AllSent(a) == AllSent(b)
    ensures MessagesAfter(initial, a, su.opts.limits) == MessagesAfter(initial, b, su.opts.limits)
    ensures AllRecords(initial, a, su.opts.limits) == AllRecords(initial, b, su.opts.limits)
  {
    hide AllSent, MessagesAfter, AllRecords;
  }
}
