/** Why a run compacts its history, what it records of that, and why it fails. */
module RunReasons {
  import opened Wrappers
  import opened Messages
  import opened Providers
  import opened ProviderRetry
  import opened StreamAssembly
  import opened Compaction
  import opened RunLog
  import opened RunTools
  import opened RunTrace
  import Text

  // ---------------------------------------------------------------- when a run compacts

  /** The provider refused a request of the agent because it overflows the context. */
  predicate Refused(x: Exchange, agent: Agent) {
    x.owner == agent && x.reply.ending.Raised? && x.reply.ending.error.overflowText
  }

  /** A request of the agent was answered until the length limit stopped it. */
  predicate StoppedByLength(x: Exchange, agent: Agent, step: int) {
    x.owner == agent && LengthStopped(StepResult(x.reply, step))
  }

  /** The last sending, if there is one, is the agent's own. */
  predicate EndsOwn(sent: seq<Exchange>, agent: Agent) {
    sent != [] ==> sent[|sent| - 1].owner == agent
  }

  lemma {:induction false} SentIsOwn(sent: seq<Exchange>, reached: bool, agent: Agent, request: seq<Message>)
    requires SentWhen(sent, reached, agent, request)
    ensures EndsOwn(sent, agent)
  {
    if sent != [] {
      assert sent[|sent| - 1] in sent;
    }
  }

  lemma {:induction false} SendingsAreOwn(
    env: Environment, agent: Agent, opts: RunOptions, ms: seq<Message>, step: int, isLast: bool, n: nat, s: Sendings)
    requires SendingsOk(env, agent, opts, ms, step, isLast, n, s)
    ensures EndsOwn(s.first, agent) && EndsOwn(s.second, agent) && EndsOwn(s.third, agent)
  {
    hide AttemptOk, SentWhen, Overflowed, LengthStopped, OverflowOutcome, Between, After, EndsOwn, LastStepRequest;
    var ms1 := After(ms, s.onOverflow, opts.limits, true);
    var ms2 := After(Between(ms, s, opts.limits), s.onLength, opts.limits, false);
    FirstIsSent(s.first, agent, LastStepRequest(ms, isLast));
    SentIsOwn(s.first, true, agent, LastStepRequest(ms, isLast));
    SentIsOwn(s.second, Overflowed(s.first, step) && !Interrupted(s.onOverflow), agent, LastStepRequest(ms1, isLast));
    SentIsOwn(s.third, Summary(s.onLength) != "", agent, LastStepRequest(ms2, isLast));
  }

  lemma {:induction false} FirstIsSent(sent: seq<Exchange>, agent: Agent, request: seq<Message>)
    requires Retried(sent, agent, request)
    ensures SentWhen(sent, true, agent, request)
  {
  }

  lemma {:induction false} TurnsAreOwn(su: Setup, initial: seq<Message>, turns: seq<Turn>, k: nat)
    requires k < |turns| && TurnAt(su, initial, turns, k)
    ensures var s := turns[k].sendings;
      EndsOwn(s.first, su.agent) && EndsOwn(s.second, su.agent) && EndsOwn(s.third, su.agent)
  {
    hide SendingsOk, AttemptOk, ToolsOk, LateOk, MessagesAfter, Begun, EndsOwn, CallHistory, ApprovedAfter, AllSent;
    var t, start := turns[k], MessagesAfter(initial, turns[..k], su.opts.limits);
    if Interrupted(t.early) {
      NothingIsOwn(su.agent);
    } else {
      var step := |turns[..k]| + 1;
      SendingsAreOwn(su.env, su.agent, su.opts, Begun(start, t, su.opts.limits), step, IsLastStep(step, su.maxSteps),
                     su.at + |AllSent(turns[..k])| + |SentIn(t.early)|, t.sendings);
    }
  }

  lemma {:induction false} NothingIsOwn(agent: Agent)
    ensures EndsOwn([], agent)
  {
  }

  lemma {:induction false} NothingIsDue(step: int)
    ensures !Overflowed([], step) && !LengthStopped(OverflowOutcome([], NotTried, [], step))
  {
  }

  /**
   * When a turn asks the compaction agent for a summary, if there is something to summarise: before the
   * first step, when the last run left too little room; after a refusal for the context's sake; after a
   * length stop; and behind a step that goes on and leaves too little room. At no other point.
   */
  lemma {:induction false} CompactionsAreDue(su: Setup, initial: seq<Message>, turns: seq<Turn>, k: nat)
    requires k < |turns| && TurnAt(su, initial, turns, k)
    ensures var t, step, start := turns[k], k + 1, MessagesAfter(initial, turns[..k], su.opts.limits);
      var s, begun := t.sendings, Begun(start, t, su.opts.limits);
      && (t.early.Summarised? <==>
            step == 1 && Overfull(su.opts.lastStep, su.opts) && AsksForSummary(su.env, su.agent, su.opts, start))
      && (s.onOverflow.Summarised? <==>
            Overflowed(s.first, step) && AsksForSummary(su.env, su.agent, su.opts, begun))
      && (s.onLength.Summarised? <==>
            && LengthStopped(OverflowOutcome(s.first, s.onOverflow, s.second, step))
            && AsksForSummary(su.env, su.agent, su.opts, Between(begun, s, su.opts.limits)))
      && (t.late.Summarised? <==>
            && LateDue(su.env, su.opts, t, step, IsLastStep(step, su.maxSteps))
            && AsksForSummary(su.env, su.agent, su.opts, Extended(start, t, step, su.opts.limits)))
  {
    hide AsksForSummary, Overfull, LateDue, OverflowOutcome, Overflowed, LengthStopped, Retried, SentWhen, ToolsOk;
    hide Extended, MessagesAfter, Begun, Between, Interrupted;
    assert |turns[..k]| + 1 == k + 1;
    NothingIsDue(k + 1);
  }

  /** Behind each of these points stands a recorded request of the run. */
  lemma {:induction false} CompactionsAreProvoked(su: Setup, initial: seq<Message>, turns: seq<Turn>, k: nat)
    requires k < |turns| && TurnAt(su, initial, turns, k)
    ensures var s, step := turns[k].sendings, k + 1;
      && (s.onOverflow.Summarised? ==> exists x :: x in s.first && Refused(x, su.agent))
      && (s.onLength.Summarised? ==> exists x :: x in s.first + s.second && StoppedByLength(x, su.agent, step))
    ensures turns[k].late.Summarised? ==> Overfull(OutputAt(turns[k], k + 1).usage, su.opts)
  {
    hide TurnAt, AsksForSummary, Overfull, OutputAt, Extended, MessagesAfter, Begun, Between, StepResult;
    var s := turns[k].sendings;
    CompactionsAreDue(su, initial, turns, k);
    TurnsAreOwn(su, initial, turns, k);
    if s.onOverflow.Summarised? {
      OverflowIsRefusal(s.first, su.agent, k + 1);
    }
    if s.onLength.Summarised? {
      LengthStopIsRecorded(s, su.agent, k + 1);
    }
  }

  lemma {:induction false} OverflowIsRefusal(sent: seq<Exchange>, agent: Agent, step: int)
    requires Overflowed(sent, step) && EndsOwn(sent, agent)
    ensures exists x :: x in sent && Refused(x, agent)
  {
    var x := sent[|sent| - 1];
    assert x in sent && Refused(x, agent);
  }

  lemma {:induction false} LengthStopIsRecorded(s: Sendings, agent: Agent, step: int)
    requires LengthStopped(OverflowOutcome(s.first, s.onOverflow, s.second, step))
    requires EndsOwn(s.first, agent) && EndsOwn(s.second, agent)
    ensures exists x :: x in s.first + s.second && StoppedByLength(x, agent, step)
  {
    hide StepResult;
    var sent := if Overflowed(s.first, step) then s.second else s.first;
    var x := sent[|sent| - 1];
    assert x in sent && x in s.first + s.second && StoppedByLength(x, agent, step);
  }

  // ---------------------------------------------------------------- why a run fails

  /** The sendings of the last request. */
  function LastSent(s: Sendings): seq<Exchange> {
    if s.third != [] then s.third else if s.second != [] then s.second else s.first
  }

  /** The last request was cancelled, or the child that was to make room for it. */
  predicate SendingCancelled(s: Sendings) {
    || Interrupted(s.onOverflow) || Interrupted(s.onLength)
    || (LastSent(s) != [] && LastSent(s)[|LastSent(s)| - 1].reply.ending.Cancelled?)
  }

  /** The last request failed for good: with an error not worth retrying, or for the sixth time. */
  predicate FailedForGood(sent: seq<Exchange>, error: ProviderError) {
    && sent != [] && sent[|sent| - 1].reply.ending == Raised(error)
    && (IsRetryable(error) ==> |sent| == 6)
  }

  predicate TwiceTooLarge(s: Sendings, step: int) {
    Overflowed(s.first, step) && Overflowed(s.second, step)
  }

  lemma {:induction false} NotTriedUnasked(
    env: Environment, agent: Agent, opts: RunOptions, ms: seq<Message>, step: int, isLast: bool, n: nat, s: Sendings)
    requires SendingsOk(env, agent, opts, ms, step, isLast, n, s)
    ensures s.first != []
    ensures !Overflowed(s.first, step) ==> s.onOverflow == NotTried && s.second == []
    ensures !LengthStopped(OverflowOutcome(s.first, s.onOverflow, s.second, step)) ==>
              s.onLength == NotTried && s.third == []
    ensures Summary(s.onLength) != "" ==> s.third != [] && !Interrupted(s.onLength)
    ensures Overflowed(s.first, step) && !Interrupted(s.onOverflow) ==> s.second != []
  {
    hide AsksForSummary, LastStepRequest, Between, After, Overflowed, LengthStopped, OverflowOutcome;
  }

  lemma {:induction false} AllForGood(
    env: Environment, agent: Agent, opts: RunOptions, ms: seq<Message>, step: int, isLast: bool, n: nat, s: Sendings)
    requires SendingsOk(env, agent, opts, ms, step, isLast, n, s)
    ensures ForGood(s.first, step) && ForGood(s.second, step) && ForGood(s.third, step)
  {
    hide AttemptOk, SentWhen, Overflowed, LengthStopped, OverflowOutcome, Between, After, ForGood, LastStepRequest;
    var ms1 := After(ms, s.onOverflow, opts.limits, true);
    var ms2 := After(Between(ms, s, opts.limits), s.onLength, opts.limits, false);
    FirstIsSent(s.first, agent, LastStepRequest(ms, isLast));
    SentForGood(s.first, true, agent, LastStepRequest(ms, isLast), step);
    SentForGood(s.second, Overflowed(s.first, step) && !Interrupted(s.onOverflow), agent,
                LastStepRequest(ms1, isLast), step);
    SentForGood(s.third, Summary(s.onLength) != "", agent, LastStepRequest(ms2, isLast), step);
  }

  /** The last sending finished, was cancelled, or failed for good. */
  predicate ForGood(sent: seq<Exchange>, step: int) {
    sent != [] && LastResult(sent, step).Failure? ==>
      match LastResult(sent, step).error
      case RunCancelled => sent[|sent| - 1].reply.ending.Cancelled?
      case ProviderFailed(error) => FailedForGood(sent, error)
      case _ => false
  }

  lemma {:induction false} SentForGood(
      sent: seq<Exchange>, reached: bool, agent: Agent, request: seq<Message>, step: int)
    requires SentWhen(sent, reached, agent, request)
    ensures ForGood(sent, step)
  {
    hide IsRetryable;
    if sent != [] {
      var last := sent[|sent| - 1];
      assert IsTransient(last) ==> |sent| == 6;
    }
  }

  /** What a request fails with: a cancellation, the provider's error, or a history that stays too large. */
  lemma {:induction false} SendingsFail(
    env: Environment, agent: Agent, opts: RunOptions, ms: seq<Message>, step: int, isLast: bool, n: nat, s: Sendings)
    requires SendingsOk(env, agent, opts, ms, step, isLast, n, s) && AnswerTo(s, step).Failure?
    ensures match AnswerTo(s, step).error
      case RunCancelled => SendingCancelled(s)
      case HistoryTooLarge => TwiceTooLarge(s, step)
      case ProviderFailed(error) => FailedForGood(LastSent(s), error) && !TwiceTooLarge(s, step)
      case InvalidRun => false
  {
    hide SendingsOk, Summary, FailedForGood, LastResult, Interrupted;
    NotTriedUnasked(env, agent, opts, ms, step, isLast, n, s);
    AllForGood(env, agent, opts, ms, step, isLast, n, s);
  }

  /**
   * A run fails for one of three reasons: it was cancelled while a request, a child or its tools were
   * running; its last request failed for good; or its history stayed too large for the provider.
   */
  lemma {:induction false} RunsFailForAReason(su: Setup, initial: seq<Message>, turns: seq<Turn>, error: RunError)
    requires Traced(Failure(error), su, initial, turns) && !error.InvalidRun?
    ensures turns != []
    ensures var t, step := turns[|turns| - 1], |turns|;
      match error
      case RunCancelled =>
        Interrupted(t.early) || SendingCancelled(t.sendings) || Interrupted(t.late) ||
        CutShort(su.env, t, step, IsLastStep(step, su.maxSteps))
      case HistoryTooLarge => TwiceTooLarge(t.sendings, step)
      case ProviderFailed(e) => FailedForGood(LastSent(t.sendings), e) && !TwiceTooLarge(t.sendings, step)
      case InvalidRun => false
  {
    hide SendingsOk, AttemptOk, AnswerTo, ToolsOk, MessagesAfter, CallHistory, ApprovedAfter, AllSent, Begun, Next;
    hide EndOf;
    hide SendingCancelled, TwiceTooLarge, FailedForGood, CutShort, StopsHere, OutputAt;
    var k := |turns| - 1;
    var t, start, step := turns[k], MessagesAfter(initial, turns[..k], su.opts.limits), |turns[..k]| + 1;
    assert TurnAt(su, initial, turns, k);
    if AnswerOf(t, step).Failure? && !Interrupted(t.early) {
      SendingsFail(su.env, su.agent, su.opts, Begun(start, t, su.opts.limits), step, IsLastStep(step, su.maxSteps),
                   su.at + |AllSent(turns[..k])| + |SentIn(t.early)|, t.sendings);
    } else if AnswerOf(t, step).Failure? {
      NothingSentFails(step);
    }
  }

  lemma {:induction false} NothingSentFails(step: int)
    ensures AnswerTo(NOTHING_SENT, step) == Failure(RunCancelled)
  {
  }

  // ---------------------------------------------------------------- what a run records of its compactions

  /** `part` stands in `whole` from this position on. */
  predicate StandsAt(part: seq<Exchange>, whole: seq<Exchange>, from: int) {
    0 <= from && from + |part| <= |whole| && forall i :: 0 <= i < |part| ==> whole[from + i] == part[i]
  }

  lemma {:induction false} StandsAlone(part: seq<Exchange>)
    ensures StandsAt(part, part, 0)
  {
  }

  lemma {:induction false} StandsLeft(part: seq<Exchange>, a: seq<Exchange>, b: seq<Exchange>, i: int)
    requires StandsAt(part, a, i)
    ensures StandsAt(part, a + b, i)
  {
  }

  lemma {:induction false} StandsRight(part: seq<Exchange>, a: seq<Exchange>, b: seq<Exchange>, i: int)
    requires StandsAt(part, b, i)
    ensures StandsAt(part, a + b, |a| + i)
  {
    forall x | 0 <= x < |part|
      ensures (a + b)[|a| + i + x] == part[x]
    {
      assert b[i + x] == part[x] && (a + b)[|a| + (i + x)] == b[i + x];
    }
  }

  lemma {:induction false} StandsDeeper(part: seq<Exchange>, mid: seq<Exchange>, whole: seq<Exchange>, i: int, j: int)
    requires StandsAt(part, mid, i) && StandsAt(mid, whole, j)
    ensures StandsAt(part, whole, j + i)
  {
    forall x | 0 <= x < |part|
      ensures whole[j + i + x] == part[x]
    {
      assert mid[i + x] == part[x] && whole[j + (i + x)] == mid[i + x];
    }
  }

  lemma {:induction false} TurnStandsAt(turns: seq<Turn>, k: nat)
    requires k < |turns|
    ensures StandsAt(SentOfTurn(turns[k]), AllSent(turns), |AllSent(turns[..k])|)
  {
    hide SentOfTurn, StandsAt;
    var n := |turns| - 1;
    var sent := SentOfTurn(turns[k]);
    if k == n {
      StandsAlone(sent);
      StandsRight(sent, AllSent(turns[..n]), sent, 0);
    } else {
      TurnStandsAt(turns[..n], k);
      assert turns[..n][..k] == turns[..k];
      StandsLeft(sent, AllSent(turns[..n]), SentOfTurn(turns[n]), |AllSent(turns[..k])|);
    }
  }

  /** The requests of each child of a turn stand where the child begins. */
  predicate ChildStands(a: Attempt, whole: seq<Exchange>, n: nat) {
    a.Summarised? ==> StandsAt(a.child.sent, whole, a.child.at - n)
  }

  lemma {:induction false} ChildrenStand(
    env: Environment, agent: Agent, opts: RunOptions, start: seq<Message>, step: int, isLast: bool, n: nat, t: Turn)
    requires ProviderOk(env, agent, opts, start, step, isLast, n, t)
    requires LateOk(env, agent, opts, start, step, isLast, n, t)
    ensures ChildStands(t.early, SentOfTurn(t), n) && ChildStands(t.late, SentOfTurn(t), n)
    ensures ChildStands(t.sendings.onOverflow, SentOfTurn(t), n) && ChildStands(t.sendings.onLength, SentOfTurn(t), n)
  {
    hide ProviderOk, LateOk, StandsAt;
    var s := t.sendings;
    PiecesStand(SentIn(t.early), s.first, SentIn(s.onOverflow), s.second, SentIn(s.onLength), s.third, SentIn(t.late));
    ChildrenBegin(env, agent, opts, start, step, isLast, n, t);
  }

  /** Where the children of a turn begin. */
  lemma {:induction false} ChildrenBegin(
    env: Environment, agent: Agent, opts: RunOptions, start: seq<Message>, step: int, isLast: bool, n: nat, t: Turn)
    requires ProviderOk(env, agent, opts, start, step, isLast, n, t)
    requires LateOk(env, agent, opts, start, step, isLast, n, t)
    ensures var s, before := t.sendings, n + |SentIn(t.early)| + |t.sendings.first|;
      && (t.early.Summarised? ==> t.early.child.at == n)
      && (s.onOverflow.Summarised? ==> s.onOverflow.child.at == before)
      && (s.onLength.Summarised? ==> s.onLength.child.at == before + |SentIn(s.onOverflow) + s.second|)
      && (t.late.Summarised? ==> t.late.child.at == n + |BeforeTools(t)|)
  {
    hide AsksForSummary, Retried, SentWhen, LateDue, Overfull, Extended, Overflowed, LengthStopped, OverflowOutcome;
    hide Begun, Between, Interrupted, LastStepRequest, After, SentIn;
  }

  lemma {:induction false} PiecesStand(
    early: seq<Exchange>, first: seq<Exchange>, a: seq<Exchange>, second: seq<Exchange>, b: seq<Exchange>,
    third: seq<Exchange>, late: seq<Exchange>)
    ensures var before := early + (first + (a + second) + (b + third));
      && StandsAt(early, before + late, 0) && StandsAt(a, before + late, |early| + |first|)
      && StandsAt(b, before + late, |early| + |first| + |a + second|) && StandsAt(late, before + late, |before|)
  {
    hide StandsAt;
    var left, right := first + (a + second), b + third;
    StandsAlone(early);
    StandsLeft(early, early, left + right, 0);
    StandsLeft(early, early + (left + right), late, 0);
    StandsAlone(a);
    StandsLeft(a, a, second, 0);
    StandsRight(a, first, a + second, 0);
    StandsLeft(a, left, right, |first|);
    StandsRight(a, early, left + right, |first|);
    StandsLeft(a, early + (left + right), late, |early| + |first|);
    StandsAlone(b);
    StandsLeft(b, b, third, 0);
    StandsRight(b, left, right, 0);
    StandsRight(b, early, left + right, |left|);
    StandsLeft(b, early + (left + right), late, |early| + |left|);
    StandsAlone(late);
    StandsRight(late, early + (left + right), late, 0);
  }

  function AttemptsOf(t: Turn): seq<Attempt> {
    [t.early, t.sendings.onOverflow, t.sendings.onLength, t.late]
  }

  /** The list at each of these points of a turn. */
  function ListsOf(start: seq<Message>, t: Turn, step: int, limits: ModelLimits): (r: seq<seq<Message>>)
    ensures |r| == 4
  {
    var begun := Begun(start, t, limits);
    [start, begun, Between(begun, t.sendings, limits), Extended(start, t, step, limits)]
  }

  /** The event records the summary this attempt gave of this list, and where its kept tail starts. */
  predicate Records(e: Event, a: Attempt, ms: seq<Message>, limits: ModelLimits, overflow: bool) {
    && a.Summarised? && Summary(a) != "" && e.CompactionDone?
    && e.summary == (if |Summary(a)| <= 32_768 then Summary(a) else Summary(a)[..32_768])
    && e.tailStartId == SelectSpec(ms, limits).tailStartId && e.overflow == overflow
  }

  lemma {:induction false} RecordMeans(e: Event, a: Attempt, ms: seq<Message>, limits: ModelLimits, overflow: bool)
    requires e in RecordOf(ms, a, limits, overflow)
    ensures Records(e, a, ms, limits, overflow)
  {
    hide SelectSpec;
    SummaryIsStripped(a);
  }

  lemma {:induction false} SummaryIsStripped(a: Attempt)
    ensures Text.Strip(Summary(a)) == Summary(a)
  {
    hide Text.Strip;
    Text.StripNothing();
    if a.Summarised? && a.child.result.Success? {
      Text.StripIdempotent(a.child.result.value.output);
    }
  }

  /** A record of a turn belongs to one of its attempts. */
  lemma {:induction false} RecordOfTurn(start: seq<Message>, t: Turn, step: int, limits: ModelLimits, e: Event)
    returns (n: nat)
    requires e in RecordsOfTurn(start, t, step, limits)
    ensures n < 4 && Records(e, AttemptsOf(t)[n], ListsOf(start, t, step, limits)[n], limits, n == 1)
  {
    hide Begun, Between, Extended, RecordOf, Records;
    var begun := Begun(start, t, limits);
    if e in RecordOf(start, t.early, limits, false) {
      n := 0;
      RecordMeans(e, t.early, start, limits, false);
    } else if e in RecordOf(begun, t.sendings.onOverflow, limits, true) {
      n := 1;
      RecordMeans(e, t.sendings.onOverflow, begun, limits, true);
    } else if e in RecordOf(Extended(start, t, step, limits), t.late, limits, false) {
      n := 3;
      RecordMeans(e, t.late, Extended(start, t, step, limits), limits, false);
    } else {
      n := 2;
      RecordMeans(e, t.sendings.onLength, Between(begun, t.sendings, limits), limits, false);
    }
  }

  /** A recorded compaction belongs to an attempt of some turn. */
  lemma {:induction false} RecordOfRun(initial: seq<Message>, turns: seq<Turn>, limits: ModelLimits, e: Event)
    returns (k: nat, n: nat)
    requires e in AllRecords(initial, turns, limits)
    ensures k < |turns| && n < 4
    ensures Records(e, AttemptsOf(turns[k])[n],
                    ListsOf(MessagesAfter(initial, turns[..k], limits), turns[k], k + 1, limits)[n], limits, n == 1)
  {
    hide RecordsOfTurn, MessagesAfter, Records, AttemptsOf, ListsOf;
    var last := |turns| - 1;
    if e in AllRecords(initial, turns[..last], limits) {
      k, n := RecordOfRun(initial, turns[..last], limits, e);
      assert turns[..last][..k] == turns[..k];
    } else {
      k := last;
      n := RecordOfTurn(MessagesAfter(initial, turns[..last], limits), turns[last], |turns|, limits, e);
    }
  }

  /** What the child of an attempt was asked. */
  lemma {:induction false} AttemptsAreAsked(su: Setup, initial: seq<Message>, turns: seq<Turn>, k: nat, n: nat)
    requires k < |turns| && TurnAt(su, initial, turns, k) && n < 4 && AttemptsOf(turns[k])[n].Summarised?
    ensures var ms := ListsOf(MessagesAfter(initial, turns[..k], su.opts.limits), turns[k], k + 1, su.opts.limits)[n];
      AttemptsOf(turns[k])[n].child.prompt == SummaryPrompt(su.env, ms, su.opts.limits)
  {
    hide AsksForSummary, Overfull, LateDue, OverflowOutcome, Overflowed, LengthStopped, Retried, SentWhen, ToolsOk;
    hide Extended, MessagesAfter, Begun, Between, Interrupted, SummaryPrompt;
    assert |turns[..k]| + 1 == k + 1;
  }

  /**
   * Every compaction a run records carries the trimmed and clipped output of a finished run of the
   * compaction agent, which was asked about the list it replaced part of, and whose requests stand in the
   * log of the run where it was asked; and it names the start of the tail that was kept.
   */
  lemma {:induction false} RecordsAreSummaries(
    su: Setup, initial: seq<Message>, turns: seq<Turn>, events: seq<Event>, e: Event)
    returns (k: nat, n: nat)
    requires IsTrace(su, initial, turns) && AllTraced(su.env, turns)
    requires Recorded(events) == AllRecords(initial, turns, su.opts.limits) && e in events && e.CompactionDone?
    ensures k < |turns| && n < 4
    ensures var a := AttemptsOf(turns[k])[n];
      var ms := ListsOf(MessagesAfter(initial, turns[..k], su.opts.limits), turns[k], k + 1, su.opts.limits)[n];
      && Records(e, a, ms, su.opts.limits, n == 1)
      && a.child.prompt == SummaryPrompt(su.env, ms, su.opts.limits)
      && ChildOk(su.env, a.child) && StandsAt(a.child.sent, AllSent(turns), a.child.at - su.at)
  {
    hide Records, ChildOk, AllRecords, AllSent, MessagesAfter, ProviderOk, LateOk, ToolsOk, CallHistory, ApprovedAfter;
    hide SentOfTurn, StandsAt, Recorded, ListsOf, SummaryPrompt;
    RecordedAreAll(events, e);
    k, n := RecordOfRun(initial, turns, su.opts.limits, e);
    var a := AttemptsOf(turns[k])[n];
    assert TurnAt(su, initial, turns, k) && TurnTraced(su.env, turns[k]);
    var t, at, step := turns[k], su.at + |AllSent(turns[..k])|, |turns[..k]| + 1;
    ChildrenStand(su.env, su.agent, su.opts, MessagesAfter(initial, turns[..k], su.opts.limits), step,
                  IsLastStep(step, su.maxSteps), at, t);
    TurnStandsAt(turns, k);
    RecordIsSummarised(
      e, a, ListsOf(MessagesAfter(initial, turns[..k], su.opts.limits), t, k + 1, su.opts.limits)[n], su.opts.limits,
      n == 1);
    AttemptsAreAsked(su, initial, turns, k, n);
    StandsDeeper(a.child.sent, SentOfTurn(t), AllSent(turns), a.child.at - at, |AllSent(turns[..k])|);
  }

  lemma {:induction false} RecordIsSummarised(
    e: Event, a: Attempt, ms: seq<Message>, limits: ModelLimits, overflow: bool)
    requires Records(e, a, ms, limits, overflow)
    ensures a.Summarised?
  {
  }

  // ---------------------------------------------------------------- what the reported usage leaves out

  /** The usages of all completed requests, whoever sent them. */
  function Completed(log: seq<Exchange>): seq<Usage> {
    if log == [] then []
    else
      var last := log[|log| - 1];
      Completed(log[..|log| - 1]) + if last.reply.ending.Finished? then [ReplyUsage(last.reply)] else []
  }

  lemma {:induction false} SumUsageOne(us: seq<Usage>, u: Usage)
    ensures SumUsage(us + [u]) == SumUsage(us).Merge(u)
  {
    assert (us + [u])[..|us|] == us;
  }

  /** The completed requests of a run are its own and those of its children. */
  lemma {:induction false} CompletedSplits(log: seq<Exchange>, agent: Agent)
    requires !agent.CompactionAgent? && forall x :: x in log ==> x.owner in {agent, CompactionAgent}
    ensures SumUsage(Completed(log)) == SumUsage(Billed(log, agent)).Merge(SumUsage(Billed(log, CompactionAgent)))
  {
    hide SumUsage, ReplyUsage;
    if log == [] {
      NothingCompleted(agent);
    } else {
      var init, last := log[..|log| - 1], log[|log| - 1];
      assert last in log && Completed(init) + [] == Completed(init);
      assert Billed(init, agent) + [] == Billed(init, agent);
      assert Billed(init, CompactionAgent) + [] == Billed(init, CompactionAgent);
      CompletedSplits(init, agent);
      var u := ReplyUsage(last.reply);
      SumUsageOne(Completed(init), u);
      SumUsageOne(Billed(init, agent), u);
      SumUsageOne(Billed(init, CompactionAgent), u);
    }
  }

  lemma {:induction false} NothingCompleted(agent: Agent)
    ensures SumUsage(Completed([])) == SumUsage(Billed([], agent)).Merge(SumUsage(Billed([], CompactionAgent)))
  {
  }

  /**
   * The usage a run reports is that of all requests it caused exactly when the completed requests of its
   * compaction children cost nothing.
   */
  lemma {:induction false} ReportedUsageLeavesOutChildren(
    page: Page, agent: Agent, prompt: Message, ids: set<string>, usages: seq<Usage>, starts: seq<Event>,
    recorded: seq<Event>)
    requires Books(page, agent, prompt, ids, usages, usages, starts, recorded) && !agent.CompactionAgent?
    ensures SumUsage(FinishUsages(page.emitted)) == SumUsage(Completed(page.sent)) <==>
              SumUsage(Billed(page.sent, CompactionAgent)) == NO_USAGE
  {
    hide SumUsage, Answered, Held, Lasting;
    AllGoodMeans(page.sent, agent, prompt);
    CompletedSplits(page.sent, agent);
  }

  function Told(usage: Usage): Reply {
    Reply([Delta("", "", [], Some(usage), "stop")], Finished)
  }

  lemma {:induction false} SumIsOne(u: Usage)
    ensures SumUsage([u]) == u
  {
    SumUsageOne([], u);
    assert [] + [u] == [u];
  }

  lemma {:induction false} UsageTold(u: Usage)
    ensures ReplyUsage(Told(u)) == u && Told(u).ending.Finished?
  {
    var deltas := Told(u).deltas;
    assert deltas[..0] == [] && Usages(deltas[..0]) == [];
    assert Usages(deltas) == [] + [u] == [u];
    SumIsOne(u);
  }

  lemma {:induction false} OwnBooks(agent: Agent, prompt: Message, u: Usage)
    requires prompt.role.User? && prompt.calls == []
    ensures Books(Page([Exchange(agent, [prompt], Told(u))], []), agent, prompt, {}, [u], [])
  {
    hide Told;
    var x := Exchange(agent, [prompt], Told(u));
    UsageTold(u);
    LogOne(x, agent);
    assert [prompt][1..] == [] && [x][..0] == [];
    assert Answered([prompt]) && LastRealUser([]) == None;
    assert Lasting(prompt) ==> LastRealUser([prompt]) == Some(prompt);
    assert GoodExchange(x, agent, prompt) && AllGood([x][..0], agent, prompt);
  }

  lemma {:induction false} PaidChildBooks(agent: Agent, prompt: Message, v: Usage)
    requires !agent.CompactionAgent?
    ensures Books(Page([Exchange(CompactionAgent, [], Told(v))], []), agent, prompt, {}, [], [])
    ensures Billed([Exchange(CompactionAgent, [], Told(v))], CompactionAgent) == [v]
  {
    hide Told;
    var x := Exchange(CompactionAgent, [], Told(v));
    UsageTold(v);
    LogOne(x, CompactionAgent);
    ChildBooks(Page([x], []), agent, prompt, {}, []);
  }

  /** A child that costs something, and a step: the books hold, and the child's usage is reported nowhere. */
  lemma {:induction false} ChildUsageIsNotReported(agent: Agent, prompt: Message, u: Usage, v: Usage)
    requires !agent.CompactionAgent? && prompt.role.User? && prompt.calls == [] && v != NO_USAGE
    ensures var child, own := Exchange(CompactionAgent, [], Told(v)), Exchange(agent, [prompt], Told(u));
      var page := Page([child, own], [StepFinish(1, u)]);
      && Books(page, agent, prompt, {}, [u], [u])
      && SumUsage(FinishUsages(page.emitted)) == u && SumUsage(Completed(page.sent)) == u.Merge(v) != u
  {
    hide Told, SumUsage, Books, Billed, Completed, FinishUsages;
    var child, own := Exchange(CompactionAgent, [], Told(v)), Exchange(agent, [prompt], Told(u));
    var p, q, r := Page([child], []), Page([own], []), Page([], [StepFinish(1, u)]);
    PaidChildBooks(agent, prompt, v);
    OwnBooks(agent, prompt, u);
    FinishBooks(agent, prompt, {}, 1, u);
    AppendBooks(p, q, agent, prompt, {}, [], [], [u], []);
    AppendBooks(Append(p, q), r, agent, prompt, {}, [u], [], [], [u]);
    assert Append(Append(p, q), r) == Page([child, own], [StepFinish(1, u)]);
    UsageTold(u);
    LogOne(own, agent);
    LogOne(own, CompactionAgent);
    LogConcat([child], [own], CompactionAgent);
    LogConcat([child], [own], agent);
    assert [child] + [own] == [child, own] && [v] + [] == [v];
    CompletedSplits([child, own], agent);
    BooksReport(Page([child, own], [StepFinish(1, u)]), agent, prompt, {}, [u], [u], [], []);
    BooksBilled(Page([child, own], [StepFinish(1, u)]), agent, prompt, [u]);
    SumIsOne(u);
    SumIsOne(v);
  }

  lemma {:induction false} BooksBilled(page: Page, agent: Agent, prompt: Message, usages: seq<Usage>)
    requires Books(page, agent, prompt, {}, usages, usages)
    ensures Billed(page.sent, agent) == usages
  {
  }
}
