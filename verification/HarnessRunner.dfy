/**
 * The agent loop: provider steps with their retries, tool steps, and nested compaction runs, against
 * a provider that may answer anything, fail, overflow, stop on length or be cancelled at any request.
 */
module HarnessRunner {
  import opened Wrappers
  import opened Messages
  import opened Providers
  import opened StreamAssembly
  import opened ToolDispatch
  import opened ToolSchedules
  import opened Compaction
  import opened CompactionTheorems
  import opened ProviderRetry
  import opened RunLog
  import opened RunTools
  import opened RunTrace
  import Text

  const MAX_STEPS_TOOL_ERROR := "Tools are disabled after the maximum agent steps"


  // ---------------------------------------------------------------- bounds

  /** Requests one compaction child may send: 100 steps, two rounds of six attempts each. */
  const CHILD_BOUND := 1_200

  function StepBound(agent: Agent): nat {
    if agent.CompactionAgent? then 12 else 18 + 3 * CHILD_BOUND
  }

  /** Requests a run of so many steps may send, its compaction children included. */
  function RunBound(agent: Agent, steps: nat): nat {
    if steps == 0 then 0
    else RunBound(agent, steps - 1) + StepBound(agent) + if steps == 1 then ChildCost(agent) else 0
  }

  /** The bound in closed form: every step, and one more child before the first. */
  lemma {:induction false} RunBoundIs(agent: Agent, steps: nat)
    ensures RunBound(agent, steps) == if steps == 0 then 0 else ChildCost(agent) + steps * StepBound(agent)
  {
    if steps > 0 {
      RunBoundIs(agent, steps - 1);
    }
  }

  // ---------------------------------------------------------------- what the loop keeps about its messages

  ghost predicate MessagesOk(ms: seq<Message>, prompt: Message, ids: set<string>) {
    && Answered(ms)
    && PromptIdsIn(ms, ids)
    && (Lasting(prompt) ==> Held(ms, prompt))
  }

  lemma {:induction false} RequestOk(ms: seq<Message>, prompt: Message, ids: set<string>, isLast: bool)
    requires MessagesOk(ms, prompt, ids)
    ensures MessagesOk(LastStepRequest(ms, isLast), prompt, ids)
  {
    if isLast {
      AppendOk(ms, [AssistantText(MAX_STEPS_PROMPT)], prompt, ids);
    }
  }

  lemma {:induction false} AppendOk(ms: seq<Message>, more: seq<Message>, prompt: Message, ids: set<string>)
    requires MessagesOk(ms, prompt, ids)
    requires Paired(more) && NoPrompt(more)
    ensures MessagesOk(ms + more, prompt, ids)
  {
    AnsweredAppend(ms, more);
    PromptIdsInMeans(more, ids);
    PromptIdsInConcat(ms, more, ids);
    if Lasting(prompt) {
      HeldAppend(ms, more, prompt);
    }
  }

  lemma {:induction false} CompactedOk(
      ms: seq<Message>, prompt: Message, ids: set<string>, summary: string, limits: ModelLimits, overflow: bool)
    requires MessagesOk(ms, prompt, ids)
    requires Conversation(ms) != [] && Text.Strip(summary) != ""
    ensures MessagesOk(Compacted(ms, summary, limits, overflow), prompt, ids)
    ensures var id := ApplyCompaction(ms, summary, limits).1; id == "" || id in ids
  {
    CompactionKeepsAnswered(ms, summary, limits, overflow);
    CompactionKeepsIds(ms, summary, limits, overflow, ids);
    if Lasting(prompt) {
      CompactionKeepsHeld(ms, summary, limits, overflow, prompt);
    }
  }

  lemma {:induction false} InitialOk(system: string, history: seq<Message>, prompt: Message, ids: set<string>)
    requires Answered(history) && PromptIdsIn(history, ids)
    requires prompt.role.User? && prompt.calls == [] && (prompt.messageId == "" || prompt.messageId in ids)
    ensures MessagesOk([SystemMessage(system)] + history + [prompt], prompt, ids)
  {
    var ms := [SystemMessage(system)] + history + [prompt];
    assert [prompt][1..] == [];
    AnsweredAppend(history, [prompt]);
    AnsweredPrepend([SystemMessage(system)], history + [prompt]);
    assert ms == [SystemMessage(system)] + (history + [prompt]);
    LastRealUserConcat([SystemMessage(system)] + history, [prompt]);
    PromptIdsInMeans([SystemMessage(system)], ids);
    PromptIdsInMeans([prompt], ids);
    PromptIdsInConcat([SystemMessage(system)], history, ids);
    PromptIdsInConcat([SystemMessage(system)] + history, [prompt], ids);
  }

  /** A tool step, calls and results together, keeps everything. */
  lemma {:induction false} ToolStepOk(
      ms: seq<Message>, text: string, calls: seq<PendingCall>, results: seq<Message>, prompt: Message, ids: set<string>)
    requires MessagesOk(ms, prompt, ids)
    requires calls != [] && |results| == |calls| && ResultsFor(AsToolCalls(calls), results)
    ensures MessagesOk(ms + [CallMessage(text, calls)] + results, prompt, ids)
  {
    var call := CallMessage(text, calls);
    StepPaired(call, results);
    assert ms + [call] + results == ms + ([call] + results);
    AppendOk(ms, [call] + results, prompt, ids);
  }

  /** The provider shared by a run and its compaction children; its replies are arbitrary. */
  class Provider {
    const replies: nat -> Reply
    var log: seq<Exchange>

    constructor (replies: nat -> Reply)
      ensures this.replies == replies && log == []
    {
      this.replies := replies;
      log := [];
    }

    method ChatStream(owner: Agent, request: seq<Message>) returns (reply: Reply)
      modifies this
      ensures reply == replies(|old(log)|)
      ensures log == old(log) + [Exchange(owner, request, reply)]
    {
      reply := replies(|log|);
      log := log + [Exchange(owner, request, reply)];
    }
  }

  class Runner {
    const provider: Provider
    const env: Environment
    /** False when nobody listens to the events. */
    const emitting: bool
    var events: seq<Event>
    var sleptMs: int

    constructor (provider: Provider, env: Environment, emitting: bool)
      ensures this.provider == provider && this.env == env && this.emitting == emitting
      ensures events == [] && sleptMs == 0
    {
      this.provider := provider;
      this.env := env;
      this.emitting := emitting;
      events := [];
      sleptMs := 0;
    }

    method Send(more: seq<Event>)
      modifies this`events
      ensures events == if emitting then old(events) + more else old(events)
    {
      if emitting {
        events := events + more;
      }
    }

    /** Streams one provider step. */
    method ProviderStep(agent: Agent, messages: seq<Message>, step: int) returns (r: Result<StepOutput, RunError>)
      modifies provider, this`events
      ensures var reply := provider.replies(|old(provider.log)|);
        && provider.log == old(provider.log) + [Exchange(agent, messages, reply)]
        && r == StepResult(reply, step)
        && events == (if emitting then old(events) + StepParts(step, Updates(reply.deltas)) else old(events))
        && forall i :: |old(events)| <= i < |events| ==>
             events[i] == PartUpdated(step, Updates(reply.deltas)[i - |old(events)|])
    {
      var reply := provider.ChatStream(agent, messages);
      var output, updates := Consume(reply.deltas, step);
      Send(StepParts(step, updates));
      match reply.ending
      case Finished => return Success(output);
      case Raised(error) => return Failure(ProviderFailed(error));
      case Cancelled => return Failure(RunCancelled);
    }

    /** Announces a retry and sleeps before it. */
    method WaitBeforeRetry(step: int, attempt: nat) returns (ghost page: Page)
      requires 1 <= attempt <= RETRY_MAX_RETRIES
      modifies this
      ensures Grown(emitting, provider.replies, provider.log, provider.log, old(events), events, page)
      ensures var delay := RetryDelayMs(attempt, env.jitter(|provider.log|));
        && sleptMs == old(sleptMs) + delay
        && page == Page([], [RetryScheduled(step, attempt, delay), RetryAttempt(step, attempt)])
      ensures AllQuiet(page.emitted)
      ensures SleepFloor(attempt) - SleepFloor(attempt - 1)
           <= sleptMs - old(sleptMs)
           <= SleepBudget(attempt) - SleepBudget(attempt - 1)
    {
      var jitter := env.jitter(|provider.log|);
      var delay := RetryDelayMs(attempt, jitter);
      DelayWithinBudget(attempt, jitter);
      page := Page([], [RetryScheduled(step, attempt, delay), RetryAttempt(step, attempt)]);
      Send([RetryScheduled(step, attempt, delay)]);
      sleptMs := sleptMs + delay;
      Send([RetryAttempt(step, attempt)]);
    }

    /** One sending of a request. */
    method SendOnce(agent: Agent, messages: seq<Message>, step: int)
      returns (r: Result<StepOutput, RunError>, ghost x: Exchange, ghost page: Page)
      modifies provider, this`events
      ensures x == Exchange(agent, messages, provider.replies(|old(provider.log)|))
      ensures r == StepResult(x.reply, step)
      ensures Grown(emitting, provider.replies, old(provider.log), provider.log, old(events), events, page)
      ensures page == Page([x], StepParts(step, Updates(x.reply.deltas))) && AllQuiet(page.emitted)
      ensures SentBy(x, agent, messages)
    {
      x := Exchange(agent, messages, provider.replies(|provider.log|));
      r := ProviderStep(agent, messages, step);
      page := Page([x], StepParts(step, Updates(x.reply.deltas)));
    }

    /** One provider step, retried while its failures are transient. */
    method ProviderStepWithTransientRetry(agent: Agent, messages: seq<Message>, step: int)
      returns (r: Result<StepOutput, RunError>, ghost page: Page)
      modifies provider, this
      ensures Grown(emitting, provider.replies, old(provider.log), provider.log, old(events), events, page)
      ensures Retried(page.sent, agent, messages) && AllQuiet(page.emitted)
      ensures r == StepResult(page.sent[|page.sent| - 1].reply, step)
      ensures SleepFloor(|page.sent| - 1) <= sleptMs - old(sleptMs) <= SleepBudget(|page.sent| - 1)
    {
      hide AllQuiet, AllTransient, Retried, Grown, RetryDelayMs, Updates, StepResult, IsTransient, IsRetryable, SentBy;
      var attempt: nat := 0;
      page := BLANK;
      NothingYet(emitting, provider.replies, provider.log, events);
      NoneTransient(agent, messages);
      while true
        invariant attempt <= RETRY_MAX_RETRIES
        invariant Grown(emitting, provider.replies, old(provider.log), provider.log, old(events), events, page)
        invariant AllTransient(page.sent, agent, messages) && |page.sent| == attempt
        invariant AllQuiet(page.emitted)
        invariant SleepFloor(attempt) <= sleptMs - old(sleptMs) <= SleepBudget(attempt)
        decreases RETRY_MAX_RETRIES - attempt
      {
        ghost var l1, e1 := provider.log, events;
        ghost var x, more;
        r, x, more := SendOnce(agent, messages, step);
        RetriesTheTransient(x, step);
        QuietConcat(page.emitted, more.emitted);
        AppendGrown(emitting, provider.replies, old(provider.log), l1, provider.log, old(events), e1, events,
                    page, more);
        if r.Success? || !r.error.ProviderFailed? || !IsRetryable(r.error.error) || attempt >= RETRY_MAX_RETRIES {
          RetriedSnoc(page.sent, x, agent, messages);
          page := Append(page, more);
          return;
        }
        TransientSnoc(page.sent, x, agent, messages);
        page := Append(page, more);
        attempt := attempt + 1;
        l1, e1 := provider.log, events;
        more := WaitBeforeRetry(step, attempt);
        QuietConcat(page.emitted, more.emitted);
        AppendGrown(emitting, provider.replies, old(provider.log), l1, provider.log, old(events), e1, events,
                    page, more);
        page := Append(page, more);
      }
    }

    // -------------------------------------------------------------- tool steps

    /**
     * Runs the calls of one step concurrently. The outcomes come back in the order of the calls, and
     * each call id gets one terminal event per call carrying it.
     */
    method RunStepTools(
      agent: Agent, opts: RunOptions, calls: seq<PendingCall>, step: int, recent: seq<string>,
      ghost history: seq<string>, approved: set<Key>)
      returns (r: Result<seq<Outcome>, RunError>, recent': seq<string>, approved': set<Key>,
               ghost run: ToolRun, ghost emitted: seq<Event>)
      requires recent == Last(history, RECENT_CALLS_MAXLEN)
      modifies this`events
      ensures recent' == Last(history + Fingerprints(PolicyOf(env, agent, opts), calls), RECENT_CALLS_MAXLEN)
      ensures ToolsBegun(env, agent, opts, calls, history, approved, run) && run.moment == |provider.log|
      ensures var sc, s := ScenarioOf(env, agent, opts, calls, run.flags, run.moment),
                           EndOfRun(env, agent, opts, calls, approved, run);
        && approved' == s.approved
        && (r.Success? ==> AllDone(s) && r.value == OutcomesOf(env, calls, Verdicts(s)))
        && (r.Success? ==> OwnOutcomes(env, calls, run.moment, s, r.value))
        && emitted == StepTools(step, if r.Success? then EventsOf(sc, s) else s.events)
      ensures r.Failure? <==> env.cancels(|provider.log|) && calls != []
      ensures r.Failure? ==> r.error.RunCancelled?
      ensures events == if emitting then old(events) + emitted else old(events)
    {
      var p := PolicyOf(env, agent, opts);
      var flags;
      flags, recent' := DoomFlags(p, calls, recent, history);
      var sc := ScenarioOf(env, agent, opts, calls, flags, |provider.log|);
      var s, cancelled;
      ghost var schedule;
      s, cancelled, schedule := RunTasks(sc, approved, env.cancels(|provider.log|));
      run, approved' := ToolRun(|provider.log|, flags, schedule), s.approved;
      if cancelled {
        emitted := StepTools(step, s.events);
        Send(StepTools(step, s.events));
        return Failure(RunCancelled), recent', approved', run, emitted;
      }
      var all := EventsOf(sc, s);
      emitted := StepTools(step, all);
      Send(StepTools(step, all));
      var outcomes := OutcomesOf(env, calls, Verdicts(s));
      OutcomesAreOwn(env, agent, opts, calls, approved, run);
      return Success(outcomes), recent', approved', run, emitted;
    }

    /** Calls leaked on the last step are refused without being run. */
    method RejectLastStepTools(calls: seq<PendingCall>, step: int)
      modifies this`events
      ensures events == if emitting then old(events) + StepTools(step, Refusals(calls)) else old(events)
    {
      Send(StepTools(step, Refusals(calls)));
    }

    // -------------------------------------------------------------- compaction

    /**
     * Asks a nested run of the compaction agent for a summary. A child that fails gives none, like one
     * that has nothing to say; only its cancellation is passed on.
     */
    method Summarise(childPrompt: string) returns (r: Result<string, RunError>, ghost child: Child)
      requires Text.Strip(childPrompt) != ""
      modifies provider
      ensures provider.log == old(provider.log) + child.sent
      ensures FromStream(child.sent, provider.replies, |old(provider.log)|)
      ensures FromChild(child.sent) && |child.sent| <= CHILD_BOUND
      ensures ChildOk(env, child) && child.prompt == childPrompt && child.at == |old(provider.log)|
      ensures r == if Interrupted(Summarised(child)) then Failure(RunCancelled) else Success(Summary(Summarised(child)))
      decreases 1, 0
    {
      hide Traced, Text.Strip, AllSent, AllStarts, AllRecords, AllTraced, ChildOk;
      var runner := new Runner(provider, env, false);
      var result;
      ghost var turns, page, usages;
      result, turns, page, usages := runner.Run(childPrompt, CompactionAgent, ChildOptions(), {});
      child := Child(childPrompt, |old(provider.log)|, result, turns, page.sent);
      ChildHasRun(env, child, page, usages);
      AllGoodMeans(page.sent, CompactionAgent, PromptMessage(env, childPrompt, ChildOptions()));
      RunBoundIs(CompactionAgent, DEFAULT_MAX_STEPS);
      if result.Success? {
        return Success(Text.Strip(result.value.output)), child;
      }
      if result.error.RunCancelled? {
        return Failure(RunCancelled), child;
      }
      return Success(""), child;
    }

    /** Replaces the head by the summary and puts the current prompt back. */
    method Rewrite(messages: seq<Message>, summary: string, opts: RunOptions, overflow: bool)
      returns (compacted: seq<Message>, tailStartId: string)
      ensures compacted == Compacted(messages, summary, opts.limits, overflow)
      ensures tailStartId == ApplyCompaction(messages, summary, opts.limits).1
    {
      var applied := ApplyCompaction(messages, summary, opts.limits);
      tailStartId := applied.1;
      if overflow {
        compacted := ApplyOverflowReplay(messages, applied.0);
      } else {
        compacted := EnsureCurrentUser(messages, applied.0);
      }
    }

    /**
     * Summarises the history with a nested run of the hidden compaction agent. That agent itself
     * never compacts, so nesting ends at one. Failures of the nested run leave the history alone.
     */
    method MaybeCompactHistory(agent: Agent, messages: seq<Message>, opts: RunOptions, overflow: bool)
      returns (r: Result<seq<Message>, RunError>, changed: bool, ghost attempt: Attempt, ghost page: Page)
      modifies provider, this
      ensures Grown(emitting, provider.replies, old(provider.log), provider.log, old(events), events, page)
      ensures FromChild(page.sent) && |page.sent| <= ChildCost(agent)
      ensures AttemptOk(env, agent, opts, messages, true, |old(provider.log)|, attempt) && AttemptTraced(env, attempt)
      ensures page == Page(SentIn(attempt), RecordOf(messages, attempt, opts.limits, overflow))
      ensures r == if Interrupted(attempt) then Failure(RunCancelled)
                   else Success(After(messages, attempt, opts.limits, overflow))
      ensures changed <==> Summary(attempt) != ""
      decreases if agent.CompactionAgent? then 0 else 1, 1
    {
      hide ChildOk, SelectSpec, FindPreviousSummary, Text.Strip, Compacted, ApplyCompaction;
      attempt, page, changed, r := NotTried, BLANK, false, Success(messages);
      NothingYet(emitting, provider.replies, provider.log, events);
      if agent.CompactionAgent? {
        return;
      }
      var selection := Select(messages, opts.limits);
      if selection.head == [] {
        return;
      }
      var childPrompt := env.compactionPrompt(selection.head, FindPreviousSummary(messages));
      if Text.Strip(childPrompt) == "" {
        return;
      }
      var result;
      ghost var child;
      result, child := Summarise(childPrompt);
      attempt, page := Summarised(child), Page(child.sent, []);
      if result.Failure? {
        r := Failure(RunCancelled);
        return;
      }
      if result.value == "" {
        return;
      }
      var compacted, tailStartId := Rewrite(messages, result.value, opts, overflow);
      var done := CompactionDone(Clip(result.value), overflow, tailStartId);
      Send([done]);
      page, changed, r := Page(child.sent, [done]), true, Success(compacted);
    }

    /** A compaction attempt with its books. */
    method CompactHistory(
      agent: Agent, messages: seq<Message>, opts: RunOptions, overflow: bool, ghost prompt: Message,
      ghost ids: set<string>)
      returns (r: Result<seq<Message>, RunError>, changed: bool, ghost attempt: Attempt, ghost page: Page)
      requires MessagesOk(messages, prompt, ids)
      modifies provider, this
      ensures Grown(emitting, provider.replies, old(provider.log), provider.log, old(events), events, page)
      ensures Books(page, agent, prompt, ids, [], [], [], RecordOf(messages, attempt, opts.limits, overflow))
      ensures Attempts(page.sent, agent) == 0 && |page.sent| <= ChildCost(agent) && page.sent == SentIn(attempt)
      ensures MessagesOk(After(messages, attempt, opts.limits, overflow), prompt, ids)
      ensures AttemptOk(env, agent, opts, messages, true, |old(provider.log)|, attempt) && AttemptTraced(env, attempt)
      ensures r == if Interrupted(attempt) then Failure(RunCancelled)
                   else Success(After(messages, attempt, opts.limits, overflow))
      ensures changed <==> Summary(attempt) != ""
      decreases if agent.CompactionAgent? then 0 else 1, 2
    {
      hide MessagesOk, AttemptTraced, After, Grown, FromChild;
      r, changed, attempt, page := MaybeCompactHistory(agent, messages, opts, overflow);
      AttemptKeeps(env, agent, opts, messages, true, |old(provider.log)|, attempt, overflow, prompt, ids);
      AttemptBooks(page, agent, messages, attempt, opts.limits, overflow, prompt, ids);
    }

    /** Compacts when the last step left too little room; otherwise leaves the messages alone. */
    method CompactOnOverflow(
      agent: Agent, messages: seq<Message>, opts: RunOptions, last: Usage, ghost prompt: Message,
      ghost ids: set<string>)
      returns (r: Result<seq<Message>, RunError>, ghost attempt: Attempt, ghost page: Page)
      requires MessagesOk(messages, prompt, ids)
      modifies provider, this
      ensures Grown(emitting, provider.replies, old(provider.log), provider.log, old(events), events, page)
      ensures Books(page, agent, prompt, ids, [], [], [], RecordOf(messages, attempt, opts.limits, false))
      ensures Attempts(page.sent, agent) == 0 && |page.sent| <= ChildCost(agent) && page.sent == SentIn(attempt)
      ensures MessagesOk(After(messages, attempt, opts.limits, false), prompt, ids)
      ensures AttemptOk(env, agent, opts, messages, Overfull(last, opts), |old(provider.log)|, attempt)
      ensures AttemptTraced(env, attempt)
      ensures r == if Interrupted(attempt) then Failure(RunCancelled)
                   else Success(After(messages, attempt, opts.limits, false))
      decreases if agent.CompactionAgent? then 0 else 1, 3
    {
      hide MessagesOk, ChildOk, Books, Grown, AsksForSummary;
      if IsOverflow(last.prompt, last.completion, last.total, opts.limits, opts.autoCompact) {
        var changed;
        r, changed, attempt, page := CompactHistory(agent, messages, opts, false, prompt, ids);
      } else {
        r, attempt, page := Success(messages), NotTried, BLANK;
        BlankBooks(agent, prompt, ids);
      }
    }

    // -------------------------------------------------------------- provider steps with their retries

    /** Sends the messages, with the last-step notice when due, retrying transient failures. */
    method SendStep(
      agent: Agent, messages: seq<Message>, step: int, isLast: bool, ghost prompt: Message, ghost ids: set<string>)
      returns (r: Result<StepOutput, RunError>, ghost page: Page, ghost billed: seq<Usage>)
      requires MessagesOk(messages, prompt, ids)
      modifies provider, this
      ensures Grown(emitting, provider.replies, old(provider.log), provider.log, old(events), events, page)
      ensures Retried(page.sent, agent, LastStepRequest(messages, isLast)) && r == LastResult(page.sent, step)
      ensures billed == if r.Success? then [r.value.usage] else []
      ensures Books(page, agent, prompt, ids, billed, [])
      ensures Attempts(page.sent, agent) <= 6 && |page.sent| <= 6
    {
      hide MessagesOk, Books, Grown, Retried, LastStepRequest, StepResult, AllQuiet, Attempts;
      r, page := ProviderStepWithTransientRetry(agent, LastStepRequest(messages, isLast), step);
      RetriedIsSent(page.sent, agent, LastStepRequest(messages, isLast));
      billed := if r.Success? then [r.value.usage] else [];
      RetriedBooks(page, agent, messages, isLast, step, prompt, ids);
    }

    /** Compacts after a context overflow and sends the step once more. */
    method RetryAfterOverflow(
      agent: Agent, messages: seq<Message>, step: int, isLast: bool, opts: RunOptions,
      ghost prompt: Message, ghost ids: set<string>)
      returns (r: Result<(StepOutput, seq<Message>), RunError>, ghost attempt: Attempt, ghost second: seq<Exchange>,
               ghost page: Page, ghost billed: seq<Usage>)
      requires MessagesOk(messages, prompt, ids)
      modifies provider, this
      ensures Grown(emitting, provider.replies, old(provider.log), provider.log, old(events), events, page)
      ensures page.sent == SentIn(attempt) + second
      ensures AttemptOk(env, agent, opts, messages, true, |old(provider.log)|, attempt) && AttemptTraced(env, attempt)
      ensures SentWhen(second, !Interrupted(attempt), agent,
                       LastStepRequest(After(messages, attempt, opts.limits, true), isLast))
      ensures MessagesOk(After(messages, attempt, opts.limits, true), prompt, ids)
      ensures r == WithList(
                     if Interrupted(attempt) then Failure(RunCancelled)
                     else if Overflowed(second, step) then Failure(HistoryTooLarge)
                     else LastResult(second, step),
                     After(messages, attempt, opts.limits, true))
      ensures billed == if r.Success? then [r.value.0.usage] else []
      ensures Books(page, agent, prompt, ids, billed, [], [], RecordOf(messages, attempt, opts.limits, true))
      ensures Attempts(page.sent, agent) <= 6 && |page.sent| <= 6 + ChildCost(agent)
      decreases if agent.CompactionAgent? then 0 else 1, 3
    {
      hide MessagesOk, Books, Attempts, Grown, AttemptOk, AttemptTraced, After, RecordOf, Retried;
      var compacted, changed;
      compacted, changed, attempt, page := CompactHistory(agent, messages, opts, true, prompt, ids);
      billed, second := [], [];
      assert SentIn(attempt) + [] == SentIn(attempt);
      if compacted.Failure? {
        r := Failure(compacted.error);
        return;
      }
      ghost var records := RecordOf(messages, attempt, opts.limits, true);
      ghost var l1, e1 := provider.log, events;
      var sent;
      ghost var more;
      sent, more, billed := SendStep(agent, compacted.value, step, isLast, prompt, ids);
      second := more.sent;
      TurnPage(emitting, provider.replies, old(provider.log), l1, provider.log, old(events), e1, events, page, more,
               agent, prompt, ids, [], [], billed, [], [], [], records, []);
      assert [] + billed == billed && records + [] == records;
      page := Append(page, more);
      if sent.Failure? {
        r := Failure(if IsOverflowFailure(sent.error) then HistoryTooLarge else sent.error);
        return;
      }
      r := Success((sent.value, compacted.value));
    }

    /** A provider step; after a context overflow the history is compacted and the step tried once more. */
    method ProviderStepWithOverflowRetry(
      agent: Agent, messages: seq<Message>, step: int, isLast: bool, opts: RunOptions,
      ghost prompt: Message, ghost ids: set<string>)
      returns (r: Result<(StepOutput, seq<Message>), RunError>, ghost first: seq<Exchange>, ghost attempt: Attempt,
               ghost second: seq<Exchange>, ghost page: Page, ghost billed: seq<Usage>)
      requires MessagesOk(messages, prompt, ids)
      modifies provider, this
      ensures Grown(emitting, provider.replies, old(provider.log), provider.log, old(events), events, page)
      ensures page.sent == first + (SentIn(attempt) + second)
      ensures Retried(first, agent, LastStepRequest(messages, isLast))
      ensures OverflowOk(env, agent, opts, messages, step, isLast, |old(provider.log)| + |first|, first,
                         attempt, second)
      ensures AttemptTraced(env, attempt)
      ensures MessagesOk(After(messages, attempt, opts.limits, true), prompt, ids)
      ensures r == WithList(OverflowOutcome(first, attempt, second, step), After(messages, attempt, opts.limits, true))
      ensures billed == if r.Success? then [r.value.0.usage] else []
      ensures Books(page, agent, prompt, ids, billed, [], [], RecordOf(messages, attempt, opts.limits, true))
      ensures Attempts(page.sent, agent) <= 12 && |page.sent| <= 12 + ChildCost(agent)
      decreases if agent.CompactionAgent? then 0 else 1, 4
    {
      hide MessagesOk, Books, Attempts, FromStream, AttemptOk, AttemptTraced, Retried, IsOverflowFailure, OverflowOk;
      hide OverflowOutcome, After, RecordOf, SentWhen, LastResult;
      ghost var n := |provider.log|;
      var sent;
      sent, page, billed := SendStep(agent, messages, step, isLast, prompt, ids);
      first, attempt, second := page.sent, NotTried, [];
      NoSecond(env, agent, opts, messages, step, isLast, n + |first|, first);
      assert first + [] == first;
      if sent.Success? {
        r := Success((sent.value, messages));
        return;
      }
      if !IsOverflowFailure(sent.error) {
        r := Failure(sent.error);
        return;
      }
      ghost var l1, e1 := provider.log, events;
      ghost var more;
      r, attempt, second, more, billed := RetryAfterOverflow(agent, messages, step, isLast, opts, prompt, ids);
      ghost var records := RecordOf(messages, attempt, opts.limits, true);
      TurnPage(emitting, provider.replies, old(provider.log), l1, provider.log, old(events), e1, events, page, more,
               agent, prompt, ids, [], [], billed, [], [], [], [], records);
      assert [] + billed == billed && [] + records == records;
      page := Append(page, more);
      SecondMade(env, agent, opts, messages, step, isLast, n + |first|, first, attempt, second);
    }

    /** A step stopped by the length limit is tried once more when the history could be compacted. */
    method LengthRetryOnce(
      agent: Agent, messages: seq<Message>, step: int, isLast: bool, opts: RunOptions, output: StepOutput,
      ghost prompt: Message, ghost ids: set<string>)
      returns (r: Result<(StepOutput, seq<Message>), RunError>, retried: bool, ghost attempt: Attempt,
               ghost third: seq<Exchange>, ghost page: Page, ghost billed: seq<Usage>)
      requires MessagesOk(messages, prompt, ids) && output.finish == "length"
      modifies provider, this
      ensures Grown(emitting, provider.replies, old(provider.log), provider.log, old(events), events, page)
      ensures page.sent == SentIn(attempt) + third
      ensures LengthOk(env, agent, opts, messages, isLast, |old(provider.log)|, Success(output), attempt, third)
      ensures AttemptTraced(env, attempt)
      ensures MessagesOk(After(messages, attempt, opts.limits, false), prompt, ids)
      ensures r == WithList(LengthOutcome(Success(output), attempt, third, step),
                          After(messages, attempt, opts.limits, false))
      ensures retried <==> Summary(attempt) != ""
      ensures billed == if r.Success? && retried then [r.value.0.usage] else []
      ensures Books(page, agent, prompt, ids, billed, [], [], RecordOf(messages, attempt, opts.limits, false))
      ensures Attempts(page.sent, agent) <= 6
      ensures |page.sent| <= ChildCost(agent) + if agent.CompactionAgent? then 0 else 6
      decreases if agent.CompactionAgent? then 0 else 1, 3
    {
      hide MessagesOk, Books, Attempts, Grown, AttemptTraced, Retried, RecordOf, Compacted;
      var compacted;
      compacted, retried, attempt, page := CompactHistory(agent, messages, opts, false, prompt, ids);
      billed, third := [], [];
      assert SentIn(attempt) + [] == SentIn(attempt);
      if compacted.Failure? {
        r := Failure(compacted.error);
        return;
      }
      if !retried {
        r := Success((output, messages));
        return;
      }
      ghost var records := RecordOf(messages, attempt, opts.limits, false);
      ghost var l1, e1 := provider.log, events;
      var sent;
      ghost var more;
      sent, more, billed := SendStep(agent, compacted.value, step, isLast, prompt, ids);
      third := more.sent;
      TurnPage(emitting, provider.replies, old(provider.log), l1, provider.log, old(events), e1, events, page, more,
               agent, prompt, ids, [], [], billed, [], [], [], records, []);
      assert [] + billed == billed && records + [] == records;
      page := Append(page, more);
      r := if sent.Success? then Success((sent.value, compacted.value)) else Failure(sent.error);
    }

    // -------------------------------------------------------------- the step loop

    /** Reports a finished step and adds its usage. */
    method FinishStep(
      agent: Agent, step: int, usage: Usage, total: Usage, ghost prompt: Message, ghost ids: set<string>)
      returns (total': Usage, ghost page: Page)
      modifies this`events
      ensures Grown(emitting, provider.replies, provider.log, provider.log, old(events), events, page)
      ensures Books(page, agent, prompt, ids, [], [usage])
      ensures Attempts(page.sent, agent) == 0 && page == Page([], [StepFinish(step, usage)])
      ensures total' == Accumulate(total, [usage])
    {
      total' := total.Merge(usage);
      AccumulateOne(total, usage);
      Send([StepFinish(step, usage)]);
      page := Page([], [StepFinish(step, usage)]);
      SentGrows(emitting, provider.replies, provider.log, old(events), events, page);
      FinishBooks(agent, prompt, ids, step, usage);
    }

    /** The provider step of one loop round, reported when it finishes. */
    method FirstTry(
      agent: Agent, messages: seq<Message>, step: int, isLast: bool, opts: RunOptions,
      total: Usage, ghost prompt: Message, ghost ids: set<string>)
      returns (r: Result<(StepOutput, seq<Message>), RunError>, total': Usage, ghost first: seq<Exchange>,
               ghost attempt: Attempt, ghost second: seq<Exchange>, ghost page: Page, ghost used: seq<Usage>)
      requires MessagesOk(messages, prompt, ids)
      modifies provider, this
      ensures Grown(emitting, provider.replies, old(provider.log), provider.log, old(events), events, page)
      ensures page.sent == first + (SentIn(attempt) + second)
      ensures Retried(first, agent, LastStepRequest(messages, isLast))
      ensures OverflowOk(env, agent, opts, messages, step, isLast, |old(provider.log)| + |first|, first,
                         attempt, second)
      ensures AttemptTraced(env, attempt)
      ensures MessagesOk(After(messages, attempt, opts.limits, true), prompt, ids)
      ensures r == WithList(OverflowOutcome(first, attempt, second, step), After(messages, attempt, opts.limits, true))
      ensures total' == Accumulate(total, used)
      ensures Books(page, agent, prompt, ids, used, used, [], RecordOf(messages, attempt, opts.limits, true))
      ensures Attempts(page.sent, agent) <= 12 && |page.sent| <= 12 + ChildCost(agent)
      decreases if agent.CompactionAgent? then 0 else 1, 5
    {
      hide MessagesOk, Books, Attempts, Grown, OverflowOk, OverflowOutcome, AttemptTraced, Retried, RecordOf, After;
      hide SentIn;
      r, first, attempt, second, page, used :=
        ProviderStepWithOverflowRetry(agent, messages, step, isLast, opts, prompt, ids);
      total' := total;
      AccumulateNone(total);
      if r.Failure? {
        return;
      }
      ghost var records := RecordOf(messages, attempt, opts.limits, true);
      ghost var l1, e1 := provider.log, events;
      ghost var report;
      total', report := FinishStep(agent, step, r.value.0.usage, total, prompt, ids);
      TurnPage(emitting, provider.replies, old(provider.log), l1, provider.log, old(events), e1, events, page, report,
               agent, prompt, ids, used, [], [], used, [], [], records, []);
      assert page.sent + [] == page.sent;
      page := Append(page, report);
      assert used + [] == used && [] + used == used && records + [] == records;
    }

    /** The length retry of one loop round, reported when it was made and finished. */
    method SecondTry(
      agent: Agent, messages: seq<Message>, step: int, isLast: bool, opts: RunOptions, output: StepOutput,
      total: Usage, ghost prompt: Message, ghost ids: set<string>)
      returns (r: Result<(StepOutput, seq<Message>), RunError>, total': Usage, ghost attempt: Attempt,
               ghost third: seq<Exchange>, ghost page: Page, ghost used: seq<Usage>)
      requires MessagesOk(messages, prompt, ids) && output.finish == "length"
      modifies provider, this
      ensures Grown(emitting, provider.replies, old(provider.log), provider.log, old(events), events, page)
      ensures page.sent == SentIn(attempt) + third
      ensures LengthOk(env, agent, opts, messages, isLast, |old(provider.log)|, Success(output), attempt, third)
      ensures AttemptTraced(env, attempt)
      ensures MessagesOk(After(messages, attempt, opts.limits, false), prompt, ids)
      ensures r == WithList(LengthOutcome(Success(output), attempt, third, step),
                          After(messages, attempt, opts.limits, false))
      ensures total' == Accumulate(total, used)
      ensures Books(page, agent, prompt, ids, used, used, [], RecordOf(messages, attempt, opts.limits, false))
      ensures Attempts(page.sent, agent) <= 6
      ensures |page.sent| <= ChildCost(agent) + if agent.CompactionAgent? then 0 else 6
      decreases if agent.CompactionAgent? then 0 else 1, 5
    {
      hide MessagesOk, Books, Attempts, Grown, LengthOk, LengthOutcome, AttemptTraced, RecordOf, After, SentIn, Summary;
      var retried;
      r, retried, attempt, third, page, used :=
        LengthRetryOnce(agent, messages, step, isLast, opts, output, prompt, ids);
      total' := total;
      AccumulateNone(total);
      if r.Failure? || !retried {
        return;
      }
      ghost var records := RecordOf(messages, attempt, opts.limits, false);
      ghost var l1, e1 := provider.log, events;
      ghost var report;
      total', report := FinishStep(agent, step, r.value.0.usage, total, prompt, ids);
      TurnPage(emitting, provider.replies, old(provider.log), l1, provider.log, old(events), e1, events, page, report,
               agent, prompt, ids, used, [], [], used, [], [], records, []);
      assert page.sent + [] == page.sent;
      page := Append(page, report);
      assert used + [] == used && [] + used == used && records + [] == records;
    }

    /** The provider part of one loop round: the step and, after a length stop, its single retry. */
    method ProviderRound(
      agent: Agent, messages: seq<Message>, step: int, isLast: bool, opts: RunOptions,
      total: Usage, ghost prompt: Message, ghost ids: set<string>)
      returns (r: Result<(StepOutput, seq<Message>), RunError>, total': Usage, ghost sendings: Sendings,
               ghost page: Page, ghost used: seq<Usage>)
      requires MessagesOk(messages, prompt, ids)
      modifies provider, this
      ensures Grown(emitting, provider.replies, old(provider.log), provider.log, old(events), events, page)
      ensures page.sent == SentFor(sendings)
      ensures SendingsOk(env, agent, opts, messages, step, isLast, |old(provider.log)|, sendings)
      ensures SendingsTraced(env, sendings)
      ensures r == WithList(AnswerTo(sendings, step), ShownBy(messages, sendings, opts.limits))
      ensures r.Success? ==> MessagesOk(r.value.1, prompt, ids)
      ensures total' == Accumulate(total, used)
      ensures Books(page, agent, prompt, ids, used, used, [], RecordsFor(messages, sendings, opts.limits))
      ensures Attempts(page.sent, agent) <= 18 && |page.sent| <= StepBound(agent) - ChildCost(agent)
      decreases if agent.CompactionAgent? then 0 else 1, 6
    {
      hide MessagesOk, Books, Attempts, FromStream, AttemptOk, AttemptTraced, OverflowOk, LengthOk, RecordOf, Retried;
      hide After, Summary, OverflowOutcome, LengthOutcome, StepBound, Accumulate;
      StepBoundIs(agent);
      ghost var first, onOverflow, second;
      r, total', first, onOverflow, second, page, used :=
        FirstTry(agent, messages, step, isLast, opts, total, prompt, ids);
      ghost var answer, between := OverflowOutcome(first, onOverflow, second, step),
                                   After(messages, onOverflow, opts.limits, true);
      sendings := Sendings(first, onOverflow, second, NotTried, []);
      if r.Failure? || r.value.0.finish != "length" {
        NoRetry(env, agent, opts, between, isLast, |old(provider.log)| + |page.sent|, step, answer);
        assert page.sent + [] == page.sent && RecordOf(messages, onOverflow, opts.limits, true) + [] ==
               RecordOf(messages, onOverflow, opts.limits, true);
        return;
      }
      ghost var l1, e1 := provider.log, events;
      ghost var onLength, third, more, extra;
      r, total', onLength, third, more, extra :=
        SecondTry(agent, r.value.1, step, isLast, opts, r.value.0, total', prompt, ids);
      sendings := Sendings(first, onOverflow, second, onLength, third);
      TurnPage(emitting, provider.replies, old(provider.log), l1, provider.log, old(events), e1, events, page, more,
               agent, prompt, ids, used, used, extra, extra, [], [],
               RecordOf(messages, onOverflow, opts.limits, true), RecordOf(between, onLength, opts.limits, false));
      AccumulateConcat(total, used, extra);
      page, used := Append(page, more), used + extra;
    }

    /** Runs the calls of a step and appends the calls and their results. */
    method ToolPhase(
      agent: Agent, messages: seq<Message>, output: StepOutput, step: int, opts: RunOptions,
      recent: seq<string>, ghost history: seq<string>, approved: set<Key>, ghost prompt: Message,
      ghost ids: set<string>)
      returns (r: Result<seq<Message>, RunError>, recent': seq<string>, ghost history': seq<string>,
               approved': set<Key>, ghost run: ToolRun, ghost results: seq<Message>, ghost page: Page)
      requires MessagesOk(messages, prompt, ids) && output.calls != []
      requires recent == Last(history, RECENT_CALLS_MAXLEN)
      modifies this`events
      ensures Grown(emitting, provider.replies, provider.log, provider.log, old(events), events, page)
      ensures Books(page, agent, prompt, ids, [], [], RunStarts(env, agent, opts, output.calls, approved, run, step))
      ensures Attempts(page.sent, agent) == 0 && page.sent == []
      ensures run.moment == |provider.log| && (r.Failure? <==> env.cancels(run.moment))
      ensures r.Success? ==> MessagesOk(r.value, prompt, ids) && r.value == WithResults(messages, output, results)
      ensures r.Success? ==> ToolsRan(env, agent, opts, output.calls, history, approved, run, results)
      ensures r.Failure? ==> r.error.RunCancelled? && results == []
      ensures ToolsBegun(env, agent, opts, output.calls, history, approved, run)
      ensures approved' == EndOfRun(env, agent, opts, output.calls, approved, run).approved
      ensures var sc, s := ScenarioOf(env, agent, opts, output.calls, run.flags, run.moment),
                           EndOfRun(env, agent, opts, output.calls, approved, run);
        page.emitted == StepTools(step, if r.Success? then EventsOf(sc, s) else s.events)
      ensures history' == history + Fingerprints(PolicyOf(env, agent, opts), output.calls)
      ensures recent' == Last(history', RECENT_CALLS_MAXLEN)
    {
      var outcomes;
      ghost var emitted;
      outcomes, recent', approved', run, emitted :=
        RunStepTools(agent, opts, output.calls, step, recent, history, approved);
      page := Page([], emitted);
      SentGrows(emitting, provider.replies, provider.log, old(events), events, page);
      StepStarts(env, agent, opts, output.calls, approved, run, step);
      ghost var sc, s := ScenarioOf(env, agent, opts, output.calls, run.flags, run.moment),
                         EndOfRun(env, agent, opts, output.calls, approved, run);
      ToolBooks(step, if outcomes.Success? then EventsOf(sc, s) else s.events, agent, prompt, ids,
                RunStarts(env, agent, opts, output.calls, approved, run, step));
      history' := history + Fingerprints(PolicyOf(env, agent, opts), output.calls);
      if outcomes.Failure? {
        results := [];
        r := Failure(outcomes.error);
        return;
      }
      var answers := OutcomeMessages(outcomes.value);
      results := answers;
      RanAnswers(env, agent, opts, output.calls, history, approved, run, results);
      ToolStepOk(messages, output.text, output.calls, answers, prompt, ids);
      r := Success(messages + [CallMessage(output.text, output.calls)] + answers);
    }

    /** The start of a round: on the first one the history may already need compaction. */
    method BeginRound(
      agent: Agent, messages: seq<Message>, step: int, opts: RunOptions, ghost prompt: Message, ghost ids: set<string>)
      returns (r: Result<seq<Message>, RunError>, ghost early: Attempt, ghost page: Page)
      requires MessagesOk(messages, prompt, ids)
      modifies provider, this
      ensures Grown(emitting, provider.replies, old(provider.log), provider.log, old(events), events, page)
      ensures Books(page, agent, prompt, ids, [], [], [], RecordOf(messages, early, opts.limits, false))
      ensures AttemptOk(env, agent, opts, messages, step == 1
                        && Overfull(opts.lastStep, opts), |old(provider.log)|, early)
      ensures AttemptTraced(env, early) && page.sent == SentIn(early)
      ensures r == if Interrupted(early) then Failure(RunCancelled)
                else Success(After(messages, early, opts.limits, false))
      ensures r.Success? ==> page.emitted != [] && page.emitted[|page.emitted| - 1] == StepStart(step)
      ensures r.Success? ==> MessagesOk(r.value, prompt, ids)
      ensures Attempts(page.sent, agent) == 0 && |page.sent| <= if step == 1 then ChildCost(agent) else 0
      decreases if agent.CompactionAgent? then 0 else 1, 4
    {
      hide MessagesOk, Books, Attempts, Grown, IsOverflow, ChildOk, AsksForSummary, Compacted;
      if step == 1 {
        r, early, page := CompactOnOverflow(agent, messages, opts, opts.lastStep, prompt, ids);
        if r.Failure? {
          return;
        }
      } else {
        BlankBooks(agent, prompt, ids);
        r, early, page := Success(messages), NotTried, BLANK;
      }
      ghost var records := RecordOf(messages, early, opts.limits, false);
      ghost var l1, e1 := provider.log, events;
      Send([StepStart(step)]);
      SentGrows(emitting, provider.replies, l1, e1, events, Page([], [StepStart(step)]));
      QuietBooks([StepStart(step)], agent, prompt, ids);
      TurnPage(emitting, provider.replies, old(provider.log), l1, provider.log, old(events), e1, events, page,
               Page([], [StepStart(step)]), agent, prompt, ids, [], [], [], [], [], [], records, []);
      assert page.sent + [] == page.sent && records + [] == records;
      page := Append(page, Page([], [StepStart(step)]));
    }

    /** The end of a round that was not stopped: tools, then room for the next one. */
    method EndRound(
      agent: Agent, messages: seq<Message>, output: StepOutput, step: int, opts: RunOptions,
      recent: seq<string>, ghost history: seq<string>, approved: set<Key>, ghost prompt: Message,
      ghost ids: set<string>)
      returns (end: RoundEnd, recent': seq<string>, ghost history': seq<string>, approved': set<Key>,
               ghost run: ToolRun, ghost results: seq<Message>, ghost late: Attempt, ghost page: Page)
      requires MessagesOk(messages, prompt, ids)
      requires recent == Last(history, RECENT_CALLS_MAXLEN)
      modifies provider, this
      ensures Grown(emitting, provider.replies, old(provider.log), provider.log, old(events), events, page)
      ensures Books(page, agent, prompt, ids, [], [], RunStarts(env, agent, opts, output.calls, approved, run, step),
                    RecordOf(WithAnswer(messages, output, results), late, opts.limits, false))
      ensures Attempts(page.sent, agent) == 0 && |page.sent| <= ChildCost(agent) && page.sent == SentIn(late)
      ensures output.calls == [] ==> run == NO_TOOLS && results == []
      ensures output.calls != [] ==>
                CallsRan(env, agent, opts, output.calls, history, approved, |old(provider.log)|, run, results)
      ensures AttemptOk(env, agent, opts, WithAnswer(messages, output, results),
                        !(output.calls != [] && env.cancels(run.moment)) && Overfull(output.usage, opts),
                        |old(provider.log)|, late)
      ensures AttemptTraced(env, late)
      ensures end == if (output.calls != [] && env.cancels(run.moment)) || Interrupted(late) then Fail(RunCancelled)
                     else if output.calls == [] then Finish(output.text, "stop")
                     else Continue(After(WithAnswer(messages, output, results), late, opts.limits, false))
      ensures end.Continue? ==> MessagesOk(end.messages, prompt, ids)
      ensures ToolsBegun(env, agent, opts, output.calls, history, approved, run)
      ensures end.Continue? ==>
                && approved' == EndOfRun(env, agent, opts, output.calls, approved, run).approved
                && history' == history + Fingerprints(PolicyOf(env, agent, opts), output.calls)
      ensures recent' == Last(history', RECENT_CALLS_MAXLEN)
      decreases if agent.CompactionAgent? then 0 else 1, 4
    {
      hide MessagesOk, Books, Attempts, Grown, ToolsRan, ToolsBegun, RunStarts, EndOfRun, IsOverflow, Last;
      hide ChildOk, AsksForSummary, Compacted, After, RecordOf;
      recent', history', approved' := recent, history, approved;
      run, results, late := NO_TOOLS, [], NotTried;
      ghost var starts := RunStarts(env, agent, opts, output.calls, approved, run, step);
      var ms;
      if output.calls == [] {
        NoToolsBegun(env, agent, opts, history, approved, step);
        TextStepOk(messages, output.text, prompt, ids);
        ms := messages + [AssistantText(output.text)];
        page := BLANK;
        BlankBooks(agent, prompt, ids);
      } else {
        var answered;
        answered, recent', history', approved', run, results, page :=
          ToolPhase(agent, messages, output, step, opts, recent, history, approved, prompt, ids);
        starts := RunStarts(env, agent, opts, output.calls, approved, run, step);
        if answered.Failure? {
          end := Fail(answered.error);
          NoRecord(WithAnswer(messages, output, results), opts.limits, false);
          return;
        }
        ms := answered.value;
      }
      ghost var l1, e1 := provider.log, events;
      var compacted;
      ghost var more;
      compacted, late, more := CompactOnOverflow(agent, ms, opts, output.usage, prompt, ids);
      TurnPage(emitting, provider.replies, old(provider.log), l1, provider.log, old(events), e1, events, page, more,
               agent, prompt, ids, [], [], [], [], starts, [], [], RecordOf(ms, late, opts.limits, false));
      assert starts + [] == starts
          && [] + RecordOf(ms, late, opts.limits, false) == RecordOf(ms, late, opts.limits, false);
      assert ms == WithAnswer(messages, output, results) && page.sent + more.sent == more.sent;
      page := Append(page, more);
      end := if compacted.Failure? then Fail(compacted.error)
             else if output.calls == [] then Finish(output.text, "stop")
             else Continue(compacted.value);
    }

    /** The end of a round the provider or the step limit stopped. */
    method StopRound(
        agent: Agent, output: StepOutput, step: int, isLast: bool, ghost prompt: Message, ghost ids: set<string>)
      returns (end: RoundEnd, ghost page: Page)
      requires StopsHere(output, isLast)
      modifies this`events
      ensures Grown(emitting, provider.replies, provider.log, provider.log, old(events), events, page)
      ensures Books(page, agent, prompt, ids, [], []) && Attempts(page.sent, agent) == 0 && page.sent == []
      ensures end.Finish? && EndOf(output, isLast) == Some((end.output, end.finish))
      ensures end.finish != "max_steps" ==> page.emitted == []
      ensures end.finish == "max_steps" ==>
                && |page.emitted| == |output.calls|
                && forall i :: 0 <= i < |output.calls| ==>
                     page.emitted[i] ==
                     ToolCallEvent(step, ToolError(output.calls[i].callId, output.calls[i].name, MAX_STEPS_TOOL_ERROR))
    {
      page := BLANK;
      BlankBooks(agent, prompt, ids);
      if output.finish == "content_filter" {
        end := Finish(output.text + CONTENT_FILTER_NOTICE, "content_filter");
      } else if output.finish == "length" {
        end := Finish(output.text + LENGTH_TRUNCATION_NOTICE, "length");
      } else {
        RejectLastStepTools(output.calls, step);
        page := Page([], StepTools(step, Refusals(output.calls)));
        SentGrows(emitting, provider.replies, provider.log, old(events), events, page);
        QuietBooks(page.emitted, agent, prompt, ids);
        end := Finish(output.text, "max_steps");
      }
    }

    /** The first part of a round: an early compaction if needed, the provider and its retries. */
    method OpenRound(
      agent: Agent, messages: seq<Message>, step: int, isLast: bool, opts: RunOptions, total: Usage,
      ghost prompt: Message, ghost ids: set<string>)
      returns (r: Result<(StepOutput, seq<Message>), RunError>, total': Usage, ghost turn: Turn, ghost page: Page,
               ghost used: seq<Usage>)
      requires MessagesOk(messages, prompt, ids)
      modifies provider, this
      ensures Grown(emitting, provider.replies, old(provider.log), provider.log, old(events), events, page)
      ensures turn.tools == NO_TOOLS && turn.results == [] && turn.late.NotTried?
      ensures ProviderOk(env, agent, opts, messages, step, isLast, |old(provider.log)|, turn) && TurnTraced(env, turn)
      ensures page.sent == BeforeTools(turn)
      ensures r == WithList(AnswerOf(turn, step), Shown(messages, turn, opts.limits))
      ensures r.Success? ==> MessagesOk(r.value.1, prompt, ids)
      ensures total' == Accumulate(total, used)
      ensures Books(page, agent, prompt, ids, used, used, [], RecordOf(messages, turn.early, opts.limits, false) +
                    RecordsFor(Begun(messages, turn, opts.limits), turn.sendings, opts.limits))
      ensures Attempts(page.sent, agent) <= 18
      ensures |page.sent| <= StepBound(agent) - ChildCost(agent) + if step == 1 then ChildCost(agent) else 0
      decreases if agent.CompactionAgent? then 0 else 1, 7
    {
      hide MessagesOk, Books, Attempts, FromStream, AttemptOk, AttemptTraced, SendingsOk, RecordOf, RecordsFor, After;
      hide StepBound, AnswerTo, ShownBy, SentFor;
      var begun;
      ghost var early;
      begun, early, page := BeginRound(agent, messages, step, opts, prompt, ids);
      turn := Turn(early, NOTHING_SENT, NO_TOOLS, [], NotTried);
      StepBoundIs(agent);
      ghost var records := RecordOf(messages, early, opts.limits, false);
      if begun.Failure? {
        AccumulateNone(total);
        r, total', used := Failure(begun.error), total, [];
        NothingSent(env, Begun(messages, turn, opts.limits), opts.limits, step);
        assert page.sent + [] == page.sent && records + [] == records;
        return;
      }
      ghost var l1, e1 := provider.log, events;
      ghost var sendings, more;
      r, total', sendings, more, used := ProviderRound(agent, begun.value, step, isLast, opts, total, prompt, ids);
      turn := Turn(early, sendings, NO_TOOLS, [], NotTried);
      TurnPage(emitting, provider.replies, old(provider.log), l1, provider.log, old(events), e1, events, page, more,
               agent, prompt, ids, [], [], used, used, [], [], records,
               RecordsFor(begun.value, sendings, opts.limits));
      page := Append(page, more);
      assert [] + used == used;
      NotTriedIsTraced(env);
    }

    /** One round of the step loop, up to its decision to go on, to finish or to fail. */
    method LoopRound(
      agent: Agent, messages: seq<Message>, step: int, maxSteps: int, opts: RunOptions, total: Usage,
      recent: seq<string>, ghost history: seq<string>, approved: set<Key>, ghost prompt: Message,
      ghost ids: set<string>, ghost at: nat)
      returns (end: RoundEnd, total': Usage, recent': seq<string>, ghost history': seq<string>, approved': set<Key>,
               ghost turn: Turn, ghost page: Page, ghost used: seq<Usage>)
      requires MessagesOk(messages, prompt, ids)
      requires recent == Last(history, RECENT_CALLS_MAXLEN)
      modifies provider, this
      ensures Grown(emitting, provider.replies, old(provider.log), provider.log, old(events), events, page)
      ensures total' == Accumulate(total, used)
      ensures TurnOk(Setup(env, agent, opts, maxSteps, at), messages, history, approved, step,
                     |old(provider.log)|, turn)
      ensures TurnTraced(env, turn) && page.sent == SentOfTurn(turn)
      ensures end == TurnEnd(Setup(env, agent, opts, maxSteps, at), messages, turn, step)
      ensures end.Continue? ==> !IsLastStep(step, maxSteps) && MessagesOk(end.messages, prompt, ids)
      ensures end.Continue? ==>
                var calls := OutputAt(turn, step).calls;
                && ToolsBegun(env, agent, opts, calls, history, approved, turn.tools)
                && approved' == EndOfRun(env, agent, opts, calls, approved, turn.tools).approved
                && history' == history + Fingerprints(PolicyOf(env, agent, opts), calls)
      ensures recent' == Last(history', RECENT_CALLS_MAXLEN)
      ensures Books(page, agent, prompt, ids, used, used,
                    RunStarts(env, agent, opts, OutputAt(turn, step).calls, approved, turn.tools, step),
                    RecordsOfTurn(messages, turn, step, opts.limits))
      ensures Attempts(page.sent, agent) <= 18
      ensures |page.sent| <= StepBound(agent) + if step == 1 then ChildCost(agent) else 0
      decreases if agent.CompactionAgent? then 0 else 1, 8
    {
      hide MessagesOk, Books, Attempts, FromStream, ProviderOk, TurnTraced, AttemptTraced, AttemptOk, CallsRan;
      hide ToolsRan, ToolsBegun, TurnOk, TurnEnd, SentOfTurn, RecordsOfTurn, EndOfRun, WithAnswer, Interrupted;
      hide StepBound;
      hide RunStarts, OutputAt, AnswerOf, Shown, RecordOf, RecordsFor, Begun, BeforeTools, After, SentIn, Overfull;
      hide EndOf;
      recent', history', approved' := recent, history, approved;
      ghost var su, n, isLast := Setup(env, agent, opts, maxSteps, at), |provider.log|, IsLastStep(step, maxSteps);
      var answer;
      answer, total', turn, page, used :=
        OpenRound(agent, messages, step, IsLastStep(step, maxSteps), opts, total, prompt, ids);
      NothingStarts(env, agent, opts, OutputAt(turn, step).calls, approved, NO_TOOLS, step);
      if answer.Failure? {
        TurnStops(su, messages, history, approved, step, n, turn);
        end := Fail(answer.error);
        return;
      }
      var output := answer.value.0;
      ghost var l1, e1 := provider.log, events;
      ghost var records := RecordOf(messages, turn.early, opts.limits, false) +
                           RecordsFor(Begun(messages, turn, opts.limits), turn.sendings, opts.limits);
      ghost var more;
      if output.finish == "content_filter" || output.finish == "length" || IsLastStep(step, maxSteps) {
        end, more := StopRound(agent, output, step, IsLastStep(step, maxSteps), prompt, ids);
        TurnStops(su, messages, history, approved, step, n, turn);
        TurnPage(emitting, provider.replies, old(provider.log), l1, provider.log, old(events), e1, events, page, more,
                 agent, prompt, ids, used, used, [], [], [], [], records, []);
        assert page.sent + [] == page.sent && records + [] == records;
      } else {
        ghost var run, results, late;
        end, recent', history', approved', run, results, late, more :=
          EndRound(agent, answer.value.1, output, step, opts, recent, history, approved, prompt, ids);
        ghost var begun := turn;
        turn := begun.(tools := run, results := results, late := late);
        TurnEnds(su, messages, history, approved, step, n, begun, turn, output, answer.value.1);
        TurnIsTraced(env, begun, turn);
        TurnPage(emitting, provider.replies, old(provider.log), l1, provider.log, old(events), e1, events, page, more,
                 agent, prompt, ids, used, used, [], [], [],
                 RunStarts(env, agent, opts, output.calls, approved, run, step), records,
                 RecordOf(WithAnswer(answer.value.1, output, results), late, opts.limits, false));
      }
      page := Append(page, more);
      assert used + [] == used && [] + RunStarts(env, agent, opts, output.calls, approved, turn.tools, step) ==
             RunStarts(env, agent, opts, output.calls, approved, turn.tools, step);
    }

    /** One round, entered in the books and in the trace of the run. */
    method BookedRound(
      agent: Agent, messages: seq<Message>, step: int, maxSteps: int, opts: RunOptions, total: Usage,
      recent: seq<string>, ghost history: seq<string>, approved: set<Key>, ghost prompt: Message,
      ghost ids: set<string>, ghost initial: seq<Message>, ghost turns: seq<Turn>,
      ghost l0: seq<Exchange>, ghost e0: seq<Event>, ghost page: Page, ghost usages: seq<Usage>)
      returns (end: RoundEnd, total': Usage, recent': seq<string>, ghost history': seq<string>, approved': set<Key>,
               ghost turns': seq<Turn>, ghost page': Page, ghost usages': seq<Usage>)
      requires MessagesOk(messages, prompt, ids) && recent == Last(history, RECENT_CALLS_MAXLEN)
      requires Grown(emitting, provider.replies, l0, provider.log, e0, events, page)
      requires var su := Setup(env, agent, opts, maxSteps, |l0|);
        && Booked(su, prompt, ids, initial, turns, page, usages)
        && IsOngoing(su, initial, turns) && Stands(su, initial, turns, messages, history, approved)
      requires total == Accumulate(NO_USAGE, usages) && |turns| + 1 == step
      modifies provider, this
      ensures Grown(emitting, provider.replies, l0, provider.log, e0, events, page')
      ensures var su := Setup(env, agent, opts, maxSteps, |l0|);
        && Booked(su, prompt, ids, initial, turns', page', usages')
        && |turns'| == step && IsTrace(su, initial, turns') && EndOfTurn(su, initial, turns', step - 1) == end
        && (end.Continue? ==> IsOngoing(su, initial, turns'))
        && (end.Continue? ==> Stands(su, initial, turns', end.messages, history', approved'))
      ensures total' == Accumulate(NO_USAGE, usages')
      ensures Attempts(page'.sent, agent) <= Attempts(page.sent, agent) + 18
      ensures |page'.sent| <= |page.sent| + StepBound(agent) + if step == 1 then ChildCost(agent) else 0
      ensures recent' == Last(history', RECENT_CALLS_MAXLEN)
      ensures end.Continue? ==> !IsLastStep(step, maxSteps) && MessagesOk(end.messages, prompt, ids)
      decreases if agent.CompactionAgent? then 0 else 1, 9
    {
      hide MessagesOk, Books, Booked, Attempts, IsOngoing, IsTrace, TurnOk, TurnEnd, ToolsRan, ToolsBegun, OutputAt;
      hide Next;
      hide MessagesAfter, CallHistory, ApprovedAfter, AllSent, TurnTraced, FromStream, RunStarts, RecordsOfTurn;
      hide EndOfTurn, EndOfRun, SentOfTurn;
      ghost var su := Setup(env, agent, opts, maxSteps, |l0|);
      ghost var l1, e1 := provider.log, events;
      BookedLength(su, prompt, ids, initial, turns, page, usages);
      ghost var turn, more, used;
      end, total', recent', history', approved', turn, more, used :=
        LoopRound(agent, messages, step, maxSteps, opts, total, recent, history, approved, prompt, ids, |l0|);
      AppendGrown(emitting, provider.replies, l0, l1, provider.log, e0, e1, events, page, more);
      BookTurn(su, prompt, ids, initial, turns, turn, page, more, usages, used);
      AccumulateConcat(NO_USAGE, usages, used);
      turns', page', usages' := turns + [turn], Append(page, more), usages + used;
      EnterTurn(su, initial, turns, turn);
      if end.Continue? {
        StateAfter(su, initial, turns, turn);
        ApprovedBehind(su, turns, turn);
        ContinuesWith(su, messages, turn, step);
      }
    }

    /**
     * The step loop. The books of the run say that every request it causes is good, that the usage
     * reported step by step is exactly what its completed requests cost, and how many requests there
     * are at most. The turns account for every request, every tool start and every compaction, and lead
     * from the messages the run starts from to its result or its failure.
     */
    method RunInner(
      agent: Agent, prompt: Message, opts: RunOptions, maxSteps: int, ghost ids: set<string>)
      returns (r: Result<RunResult, RunError>, ghost turns: seq<Turn>, ghost page: Page, ghost usages: seq<Usage>)
      requires Answered(opts.history) && PromptIdsIn(opts.history, ids)
      requires prompt.role.User? && prompt.calls == [] && (prompt.messageId == "" || prompt.messageId in ids)
      modifies provider, this
      ensures Grown(emitting, provider.replies, old(provider.log), provider.log, old(events), events, page)
      ensures Attempts(page.sent, agent) <= 18 * Max(1, maxSteps)
      ensures |page.sent| <= RunBound(agent, Max(1, maxSteps))
      ensures |turns| <= Max(1, maxSteps) && turns != []
      ensures RunOk(r, Setup(env, agent, opts, maxSteps, |old(provider.log)|), prompt, ids, turns, page, usages)
      decreases if agent.CompactionAgent? then 0 else 1, 10
    {
      hide MessagesOk, Books, Booked, IsOngoing, IsTrace, Last, Accumulate, SumUsage, Attempts, Billed;
      hide MessagesAfter, CallHistory, ApprovedAfter, AllSent, EndOfTurn, FromStream;
      var messages := [SystemMessage(env.systemPrompt(agent))] + opts.history + [prompt];
      ghost var initial := messages;
      InitialOk(env.systemPrompt(agent), opts.history, prompt, ids);
      var step := 0;
      var total := NO_USAGE;
      var recent: seq<string>, approved: set<Key> := [], {};
      ghost var history: seq<string> := [];
      page, usages, turns := BLANK, [], [];
      NothingYet(emitting, provider.replies, provider.log, events);
      BlankBooks(agent, prompt, ids);
      ghost var su := Setup(env, agent, opts, maxSteps, |provider.log|);
      NoTurns(su, initial);
      NothingBooked(su, prompt, ids, initial);
      AccumulateNone(total);
      LastOfNone<string>(RECENT_CALLS_MAXLEN);
      while true
        invariant 0 <= step < Max(1, maxSteps)
        invariant MessagesOk(messages, prompt, ids)
        invariant Grown(emitting, provider.replies, old(provider.log), provider.log, old(events), events, page)
        invariant total == Accumulate(NO_USAGE, usages)
        invariant Booked(su, prompt, ids, initial, turns, page, usages)
        invariant Attempts(page.sent, agent) <= 18 * step
        invariant |page.sent| <= RunBound(agent, step)
        invariant recent == Last(history, RECENT_CALLS_MAXLEN)
        invariant |turns| == step
        invariant IsOngoing(su, initial, turns) && Stands(su, initial, turns, messages, history, approved)
        decreases Max(1, maxSteps) - step
      {
        step := step + 1;
        var end;
        end, total, recent, history, approved, turns, page, usages :=
          BookedRound(agent, messages, step, maxSteps, opts, total, recent, history, approved, prompt, ids,
                      initial, turns, old(provider.log), old(events), page, usages);
        BoundGrows(agent, step, Max(1, maxSteps));
        AccumulateFromNothing(usages);
        BooksBill(su, prompt, ids, initial, turns, page, usages);
        match end
        case Continue(ms) => messages := ms;
        case Finish(output, finish) =>
          r := Success(RunResult(output, step, total, finish));
          return;
        case Fail(error) =>
          NeverInvalid(su, initial, turns, error);
          r := Failure(error);
          return;
      }
    }

    /** The step loop; a cancelled run says so before it ends. */
    method RunAndSay(
      agent: Agent, prompt: Message, opts: RunOptions, maxSteps: int, ghost ids: set<string>)
      returns (r: Result<RunResult, RunError>, ghost turns: seq<Turn>, ghost page: Page, ghost usages: seq<Usage>)
      requires Answered(opts.history) && PromptIdsIn(opts.history, ids)
      requires prompt.role.User? && prompt.calls == [] && (prompt.messageId == "" || prompt.messageId in ids)
      modifies provider, this
      ensures Grown(emitting, provider.replies, old(provider.log), provider.log, old(events), events, page)
      ensures Attempts(page.sent, agent) <= 18 * Max(1, maxSteps)
      ensures |page.sent| <= RunBound(agent, Max(1, maxSteps))
      ensures |turns| <= Max(1, maxSteps) && turns != []
      ensures RunOk(r, Setup(env, agent, opts, maxSteps, |old(provider.log)|), prompt, ids, turns, page, usages)
      ensures r.Failure? && r.error.RunCancelled? ==> page.emitted != [] && page.emitted[|page.emitted| - 1] == Aborted
      decreases if agent.CompactionAgent? then 0 else 1, 11
    {
      hide Books, Traced, AllStarts, AllRecords, AllSent, AllTraced, Answered, PromptIdsIn, Attempts, RunBound;
      r, turns, page, usages := RunInner(agent, prompt, opts, maxSteps, ids);
      ghost var su := Setup(env, agent, opts, maxSteps, |old(provider.log)|);
      ghost var starts, records := AllStarts(su, turns),
                                   AllRecords(InitialMessages(env, agent, opts, prompt), turns, opts.limits);
      ghost var l1, e1 := provider.log, events;
      ghost var notice := SayIfCancelled(r, agent, prompt, ids);
      TurnPage(emitting, provider.replies, old(provider.log), l1, provider.log, old(events), e1, events, page, notice,
               agent, prompt, ids, usages, usages, [], [], starts, [], records, []);
      assert page.sent + [] == page.sent;
      page := Append(page, notice);
      assert usages + [] == usages && starts + [] == starts && records + [] == records;
    }

    /** Runs one agent turn, unless the prompt is blank or the nesting too deep. */
    method Run(promptText: string, agent: Agent, opts: RunOptions, ghost ids: set<string>)
      returns (r: Result<RunResult, RunError>, ghost turns: seq<Turn>, ghost page: Page, ghost usages: seq<Usage>)
      requires Answered(opts.history) && PromptIdsIn(opts.history, ids)
      requires opts.currentUserMessageId == "" || opts.currentUserMessageId in ids
      modifies provider, this
      ensures Grown(emitting, provider.replies, old(provider.log), provider.log, old(events), events, page)
      ensures Attempts(page.sent, agent) <= 18 * Max(1, EffectiveMaxSteps(opts))
      ensures |page.sent| <= RunBound(agent, Max(1, EffectiveMaxSteps(opts)))
      ensures |turns| <= if opts.maxSteps == None || opts.maxSteps == Some(0) then 100 else Max(1, opts.maxSteps.value)
      ensures RunOk(r, Setup(env, agent, opts, EffectiveMaxSteps(opts), |old(provider.log)|),
                    PromptMessage(env, promptText, opts), ids, turns, page, usages)
      ensures r == Failure(InvalidRun) <==> Text.Strip(promptText) == "" || opts.depth > Max(1, opts.maxDepth)
      ensures r == Failure(InvalidRun) ==> provider.log == old(provider.log) && events == old(events)
      decreases if agent.CompactionAgent? then 0 else 1, 12
    {
      hide Books, Traced, AllStarts, AllRecords, AllSent, AllTraced, Answered, PromptIdsIn, Attempts, RunBound;
      hide Text.Strip;
      var prompt, maxSteps := PromptMessage(env, promptText, opts), EffectiveMaxSteps(opts);
      if Text.Strip(promptText) == "" || opts.depth > EffectiveMaxDepth(opts) {
        page, usages, turns := BLANK, [], [];
        NothingYet(emitting, provider.replies, provider.log, events);
        r := Failure(InvalidRun);
        BlankFits(agent, maxSteps);
        NothingRun(Setup(env, agent, opts, maxSteps, |provider.log|), prompt, ids);
      } else {
        r, turns, page, usages := RunAndSay(agent, prompt, opts, maxSteps, ids);
        ValidWhenRun(r, Setup(env, agent, opts, maxSteps, |old(provider.log)|), prompt, ids, turns, page, usages);
      }
    }

    /** A cancelled run says so before it ends. */
    method SayIfCancelled(r: Result<RunResult, RunError>, agent: Agent, ghost prompt: Message, ghost ids: set<string>)
      returns (ghost page: Page)
      modifies this`events
      ensures Grown(emitting, provider.replies, provider.log, provider.log, old(events), events, page)
      ensures Books(page, agent, prompt, ids, [], []) && Attempts(page.sent, agent) == 0
      ensures page == if r.Failure? && r.error.RunCancelled? then Page([], [Aborted]) else BLANK
    {
      page := BLANK;
      BlankBooks(agent, prompt, ids);
      if r.Failure? && r.error.RunCancelled? {
        Send([Aborted]);
        page := Page([], [Aborted]);
        SentGrows(emitting, provider.replies, provider.log, old(events), events, page);
        QuietBooks([Aborted], agent, prompt, ids);
      }
    }
  }

  lemma {:induction false} TextStepOk(ms: seq<Message>, text: string, prompt: Message, ids: set<string>)
    requires MessagesOk(ms, prompt, ids)
    ensures MessagesOk(ms + [AssistantText(text)], prompt, ids)
  {
    AppendOk(ms, [AssistantText(text)], prompt, ids);
  }

  lemma {:induction false} BoundGrows(agent: Agent, step: nat, limit: nat)
    requires step <= limit
    ensures RunBound(agent, step) <= RunBound(agent, limit)
    decreases limit
  {
    if step < limit {
      BoundGrows(agent, step, limit - 1);
    }
  }

  lemma {:induction false} AccumulateFromNothing(us: seq<Usage>)
    ensures Accumulate(NO_USAGE, us) == SumUsage(us)
  {
    AccumulateSum([], us);
    assert [] + us == us;
  }

  lemma {:induction false} StepBoundIs(agent: Agent)
    ensures StepBound(agent) - ChildCost(agent)
         == 12 + ChildCost(agent) + (ChildCost(agent) + if agent.CompactionAgent? then 0 else 6)
    ensures StepBound(agent) >= 0
  {
  }

  /** A result together with the list it belongs to. */
  function WithList(r: Result<StepOutput, RunError>, ms: seq<Message>): Result<(StepOutput, seq<Message>), RunError> {
    if r.Success? then Success((r.value, ms)) else Failure(r.error)
  }

  /** The turns account for every request of the page, every tool start and every compaction it holds. */
  ghost predicate Booked(
    su: Setup, prompt: Message, ids: set<string>, initial: seq<Message>, turns: seq<Turn>, page: Page,
    usages: seq<Usage>)
  {
    && page.sent == AllSent(turns) && AllTraced(su.env, turns)
    && Books(page, su.agent, prompt, ids, usages, usages, AllStarts(su, turns),
             AllRecords(initial, turns, su.opts.limits))
  }

  /** The turns are those of a run with this outcome, and account for all of its page. */
  ghost predicate RunOk(
    r: Result<RunResult, RunError>, su: Setup, prompt: Message, ids: set<string>, turns: seq<Turn>, page: Page,
    usages: seq<Usage>)
  {
    var initial := InitialMessages(su.env, su.agent, su.opts, prompt);
    Traced(r, su, initial, turns) && Booked(su, prompt, ids, initial, turns, page, usages)
  }

  /** A run that is valid has turns. */
  lemma {:induction false} ChildHasRun(env: Environment, child: Child, page: Page, usages: seq<Usage>)
    requires RunOk(child.result, ChildSetup(env, child.at), PromptMessage(env, child.prompt, ChildOptions()), {},
                   child.turns, page, usages)
    requires page.sent == child.sent && child.result != Failure(InvalidRun)
    ensures ChildOk(env, child)
  {
    hide IsTrace, EndOfTurn, AllSent, Books, AllTraced, AllStarts, AllRecords;
  }

  lemma {:induction false} NothingBooked(su: Setup, prompt: Message, ids: set<string>, initial: seq<Message>)
    ensures Booked(su, prompt, ids, initial, [], BLANK, [])
  {
    NoTurns(su, initial);
    BlankBooks(su.agent, prompt, ids);
  }

  lemma {:induction false} BookedLength(
    su: Setup, prompt: Message, ids: set<string>, initial: seq<Message>, turns: seq<Turn>, page: Page,
    usages: seq<Usage>)
    requires Booked(su, prompt, ids, initial, turns, page, usages)
    ensures page.sent == AllSent(turns)
  {
  }

  /** One more turn in the books. */
  lemma {:induction false} BookTurn(
    su: Setup, prompt: Message, ids: set<string>, initial: seq<Message>, turns: seq<Turn>, t: Turn, page: Page,
    more: Page, usages: seq<Usage>, used: seq<Usage>)
    requires Booked(su, prompt, ids, initial, turns, page, usages)
    requires TurnTraced(su.env, t) && more.sent == SentOfTurn(t)
    requires Books(more, su.agent, prompt, ids, used, used, StartsOfTurn(su, turns, t),
                   RecordsOfTurn(MessagesAfter(initial, turns, su.opts.limits), t, |turns| + 1, su.opts.limits))
    ensures Booked(su, prompt, ids, initial, turns + [t], Append(page, more), usages + used)
    ensures Attempts(Append(page, more).sent, su.agent) == Attempts(page.sent, su.agent) + Attempts(more.sent, su.agent)
    ensures |Append(page, more).sent| == |page.sent| + |more.sent|
  {
    hide Books, AllTraced, TurnTraced, AllSent, SentOfTurn, AllStarts, StartsOfTurn, AllRecords, RecordsOfTurn;
    hide MessagesAfter, Attempts;
    AppendBooks(page, more, su.agent, prompt, ids, usages, usages, used, used, AllStarts(su, turns),
                StartsOfTurn(su, turns, t), AllRecords(initial, turns, su.opts.limits),
                RecordsOfTurn(MessagesAfter(initial, turns, su.opts.limits), t, |turns| + 1, su.opts.limits));
    StateAfter(su, initial, turns, t);
    AddTraced(su.env, turns, t);
  }

  /** Where the loop stands after some turns. */
  ghost predicate Stands(
    su: Setup, initial: seq<Message>, turns: seq<Turn>, messages: seq<Message>, history: seq<string>,
    approved: set<Key>)
  {
    && messages == MessagesAfter(initial, turns, su.opts.limits)
    && history == CallHistory(su, turns)
    && approved == ApprovedAfter(su, turns)
  }

  lemma {:induction false} BlankFits(agent: Agent, maxSteps: int)
    ensures Attempts(BLANK.sent, agent) <= 18 * Max(1, maxSteps) && |BLANK.sent| <= RunBound(agent, Max(1, maxSteps))
  {
  }

  lemma {:induction false} NothingRun(su: Setup, prompt: Message, ids: set<string>)
    ensures RunOk(Failure(InvalidRun), su, prompt, ids, [], BLANK, [])
  {
    NoTurns(su, InitialMessages(su.env, su.agent, su.opts, prompt));
    NothingBooked(su, prompt, ids, InitialMessages(su.env, su.agent, su.opts, prompt));
  }

  lemma {:induction false} ValidWhenRun(
    r: Result<RunResult, RunError>, su: Setup, prompt: Message, ids: set<string>, turns: seq<Turn>, page: Page,
    usages: seq<Usage>)
    requires RunOk(r, su, prompt, ids, turns, page, usages) && turns != []
    ensures r != Failure(InvalidRun)
  {
  }

  /** No turn leads to the failure of a run that is not valid. */
  lemma {:induction false} NeverInvalid(su: Setup, initial: seq<Message>, turns: seq<Turn>, error: RunError)
    requires turns != [] && EndOfTurn(su, initial, turns, |turns| - 1) == Fail(error)
    ensures !error.InvalidRun?
  {
    hide TurnEnd, MessagesAfter;
    var n := |turns| - 1;
    EndNeverInvalid(su, MessagesAfter(initial, turns[..n], su.opts.limits), turns[n], |turns[..n]| + 1);
  }

  lemma {:induction false} EndNeverInvalid(su: Setup, start: seq<Message>, t: Turn, step: int)
    ensures TurnEnd(su, start, t, step).Fail? ==> !TurnEnd(su, start, t, step).error.InvalidRun?
  {
    hide Next, EndOf, CutShort, Interrupted, OutputOf, Summary;
  }

  lemma {:induction false} BooksBill(
    su: Setup, prompt: Message, ids: set<string>, initial: seq<Message>, turns: seq<Turn>, page: Page,
    usages: seq<Usage>)
    requires Booked(su, prompt, ids, initial, turns, page, usages)
    ensures Billed(AllSent(turns), su.agent) == usages
  {
  }

  // ---------------------------------------------------------------- attempts and turns in the books

  lemma {:induction false} SummaryIsTrimmed(a: Attempt)
    ensures Text.Strip(Summary(a)) == Summary(a)
  {
    if a.Summarised? && a.child.result.Success? {
      Text.StripIdempotent(a.child.result.value.output);
    } else {
      assert Text.Strip("") == "";
    }
  }

  lemma {:induction false} HeadIsConversation(ms: seq<Message>, limits: ModelLimits)
    requires SelectSpec(ms, limits).head != []
    ensures Conversation(ms) != []
  {
    SelectPartitions(ms, limits);
  }

  /** An attempt keeps what the loop keeps about its messages, and records an earlier prompt or none. */
  lemma {:induction false} AttemptKeeps(
    env: Environment, agent: Agent, opts: RunOptions, ms: seq<Message>, due: bool, n: nat, a: Attempt, overflow: bool,
    prompt: Message, ids: set<string>)
    requires AttemptOk(env, agent, opts, ms, due, n, a) && MessagesOk(ms, prompt, ids)
    ensures MessagesOk(After(ms, a, opts.limits, overflow), prompt, ids)
    ensures TailsIn(RecordOf(ms, a, opts.limits, overflow), ids)
  {
    hide SelectSpec, Text.Strip, MessagesOk, Compacted, ApplyCompaction, Conversation;
    if Summary(a) != "" {
      HeadIsConversation(ms, opts.limits);
      SummaryIsTrimmed(a);
      CompactedOk(ms, prompt, ids, Summary(a), opts.limits, overflow);
      var e := CompactionDone(Clip(Summary(a)), overflow, ApplyCompaction(ms, Summary(a), opts.limits).1);
      assert [e][..0] == [] && TailOk(e, ids);
    }
  }

  lemma {:induction false} AttemptBooks(
    page: Page, agent: Agent, ms: seq<Message>, a: Attempt, limits: ModelLimits, overflow: bool, prompt: Message,
    ids: set<string>)
    requires page == Page(SentIn(a), RecordOf(ms, a, limits, overflow)) && TailsIn(page.emitted, ids)
    requires FromChild(page.sent) && (agent.CompactionAgent? ==> page.sent == [])
    ensures Books(page, agent, prompt, ids, [], [], [], RecordOf(ms, a, limits, overflow))
    ensures Attempts(page.sent, agent) == 0
  {
    hide ApplyCompaction, Summary, Clip;
    var records := RecordOf(ms, a, limits, overflow);
    if records != [] {
      assert records[..0] == [];
    }
    ChildBooks(page, agent, prompt, ids, records);
  }

  lemma {:induction false} NotTriedIsTraced(env: Environment)
    ensures AttemptTraced(env, NotTried) && SentIn(NotTried) == []
  {
  }

  lemma {:induction false} NoRecord(ms: seq<Message>, limits: ModelLimits, overflow: bool)
    ensures RecordOf(ms, NotTried, limits, overflow) == [] && After(ms, NotTried, limits, overflow) == ms
  {
  }

  /** A request that does not overflow the context is not sent again. */
  lemma {:induction false} NoSecond(
    env: Environment, agent: Agent, opts: RunOptions, ms: seq<Message>, step: int, isLast: bool, n: nat,
    first: seq<Exchange>)
    ensures !Overflowed(first, step) ==>
              && OverflowOk(env, agent, opts, ms, step, isLast, n, first, NotTried, [])
              && OverflowOutcome(first, NotTried, [], step) == LastResult(first, step)
    ensures After(ms, NotTried, opts.limits, true) == ms && RecordOf(ms, NotTried, opts.limits, true) == []
    ensures SentIn(NotTried) + [] == [] && AttemptTraced(env, NotTried)
    ensures Overflowed(first, step) <==>
              LastResult(first, step).Failure? && IsOverflowFailure(LastResult(first, step).error)
  {
    hide AsksForSummary, StepResult, IsOverflowFailure;
  }

  lemma {:induction false} SecondMade(
    env: Environment, agent: Agent, opts: RunOptions, ms: seq<Message>, step: int, isLast: bool, n: nat,
    first: seq<Exchange>, a: Attempt, second: seq<Exchange>)
    requires Overflowed(first, step) && AttemptOk(env, agent, opts, ms, true, n, a)
    requires SentWhen(second, !Interrupted(a), agent, LastStepRequest(After(ms, a, opts.limits, true), isLast))
    ensures OverflowOk(env, agent, opts, ms, step, isLast, n, first, a, second)
    ensures OverflowOutcome(first, a, second, step) ==
            if Interrupted(a) then Failure(RunCancelled)
            else if Overflowed(second, step) then Failure(HistoryTooLarge)
            else LastResult(second, step)
  {
    hide AsksForSummary, LastResult;
  }

  /** A step that was not stopped by the length limit is not tried again. */
  lemma {:induction false} NoRetry(
    env: Environment, agent: Agent, opts: RunOptions, ms: seq<Message>, isLast: bool, n: nat, step: int,
    answer: Result<StepOutput, RunError>)
    requires !LengthStopped(answer)
    ensures LengthOk(env, agent, opts, ms, isLast, n, answer, NotTried, [])
    ensures LengthOutcome(answer, NotTried, [], step) == answer
    ensures After(ms, NotTried, opts.limits, false) == ms && RecordOf(ms, NotTried, opts.limits, false) == []
    ensures SentIn(NotTried) + [] == [] && AttemptTraced(env, NotTried)
  {
  }

  lemma {:induction false} NothingSent(env: Environment, ms: seq<Message>, limits: ModelLimits, step: int)
    ensures SentFor(NOTHING_SENT) == [] && AnswerTo(NOTHING_SENT, step) == Failure(RunCancelled)
    ensures RecordsFor(ms, NOTHING_SENT, limits) == [] && SendingsTraced(env, NOTHING_SENT)
    ensures AttemptTraced(env, NotTried)
  {
  }

  /** A turn that fails before its tools, or is stopped there. */
  lemma {:induction false} TurnStops(
    su: Setup, start: seq<Message>, history: seq<string>, approved: set<Key>, step: int, n: nat, t: Turn)
    requires ProviderOk(su.env, su.agent, su.opts, start, step, IsLastStep(step, su.maxSteps), n, t)
    requires t.tools == NO_TOOLS && t.results == [] && t.late.NotTried?
    requires AnswerOf(t, step).Failure? || StopsHere(AnswerOf(t, step).value, IsLastStep(step, su.maxSteps))
    ensures TurnOk(su, start, history, approved, step, n, t) && SentOfTurn(t) == BeforeTools(t)
    ensures RecordsOfTurn(start, t, step, su.opts.limits) ==
            RecordOf(start, t.early, su.opts.limits, false) +
            RecordsFor(Begun(start, t, su.opts.limits), t.sendings, su.opts.limits)
    ensures TurnEnd(su, start, t, step) ==
            match AnswerOf(t, step)
            case Failure(error) => Fail(error)
            case Success(output) =>
              var end := EndOf(output, IsLastStep(step, su.maxSteps)).value; Finish(end.0, end.1)
    ensures AnswerOf(t, step).Success? ==> OutputAt(t, step) == AnswerOf(t, step).value
  {
    hide ProviderOk, AnswerTo, SentFor, RecordsFor, AsksForSummary;
  }

  /** A turn that goes through its tools to its late attempt. */
  lemma {:induction false} TurnEnds(
    su: Setup, start: seq<Message>, history: seq<string>, approved: set<Key>, step: int, n: nat, begun: Turn, t: Turn,
    output: StepOutput, shown: seq<Message>)
    requires ProviderOk(su.env, su.agent, su.opts, start, step, IsLastStep(step, su.maxSteps), n, begun)
    requires t == begun.(tools := t.tools, results := t.results, late := t.late)
    requires AnswerOf(begun, step) == Success(output) && Shown(start, begun, su.opts.limits) == shown
    requires !StopsHere(output, IsLastStep(step, su.maxSteps))
    requires if output.calls == [] then t.tools == NO_TOOLS && t.results == []
             else CallsRan(su.env, su.agent, su.opts, output.calls, history, approved, n + |BeforeTools(begun)|,
                           t.tools, t.results)
    requires AttemptOk(su.env, su.agent, su.opts, WithAnswer(shown, output, t.results),
                       !(output.calls != [] && su.env.cancels(t.tools.moment)) && Overfull(output.usage, su.opts),
                       n + |BeforeTools(begun)|, t.late)
    ensures TurnOk(su, start, history, approved, step, n, t) && SentOfTurn(t) == BeforeTools(begun) + SentIn(t.late)
    ensures RecordsOfTurn(start, t, step, su.opts.limits) ==
            RecordOf(start, begun.early, su.opts.limits, false) +
            RecordsFor(Begun(start, begun, su.opts.limits), begun.sendings, su.opts.limits) +
            RecordOf(WithAnswer(shown, output, t.results), t.late, su.opts.limits, false)
    ensures TurnEnd(su, start, t, step) ==
            if (output.calls != [] && su.env.cancels(t.tools.moment)) || Interrupted(t.late) then Fail(RunCancelled)
            else if output.calls == [] then Finish(output.text, "stop")
            else Continue(After(WithAnswer(shown, output, t.results), t.late, su.opts.limits, false))
    ensures OutputAt(t, step) == output
  {
    hide SendingsOk, AttemptOk, CallsRan, AnswerTo, SentFor, RecordsFor, RecordOf, ShownBy, Overfull, WithAnswer;
    hide StopsHere, EndOf, IsLastStep, After, Interrupted, SentIn;
  }

  lemma {:induction false} TurnIsTraced(env: Environment, begun: Turn, t: Turn)
    requires TurnTraced(env, begun) && AttemptTraced(env, t.late)
    requires t == begun.(tools := t.tools, results := t.results, late := t.late)
    ensures TurnTraced(env, t)
  {
    hide AttemptTraced, SendingsTraced;
  }

  lemma {:induction false} ContinuesWith(su: Setup, start: seq<Message>, t: Turn, step: int)
    requires TurnEnd(su, start, t, step).Continue?
    ensures TurnEnd(su, start, t, step).messages == Next(start, t, step, su.opts.limits)
  {
    hide Next, EndOf, CutShort, Interrupted, OutputAt, AnswerOf;
  }

  /** The requests one compaction may cost a run. */
  function ChildCost(agent: Agent): nat {
    if agent.CompactionAgent? then 0 else CHILD_BOUND
  }

  lemma {:induction false} RetriedIsSent(sent: seq<Exchange>, agent: Agent, request: seq<Message>)
    requires Retried(sent, agent, request)
    ensures 1 <= |sent| <= 6
  {
  }

  lemma {:induction false} RetriedBooks(
    page: Page, agent: Agent, ms: seq<Message>, isLast: bool, step: int, prompt: Message, ids: set<string>)
    requires MessagesOk(ms, prompt, ids) && AllQuiet(page.emitted)
    requires Retried(page.sent, agent, LastStepRequest(ms, isLast))
    ensures var r := StepResult(page.sent[|page.sent| - 1].reply, step);
      Books(page, agent, prompt, ids, if r.Success? then [r.value.usage] else [], [])
    ensures Attempts(page.sent, agent) <= 6
  {
    RetriedGood(page.sent, agent, ms, isLast, prompt, ids);
    RetriedBilling(page.sent, agent, LastStepRequest(ms, isLast), step);
    QuietEvents(page.emitted, ids);
  }

  function Refusals(calls: seq<PendingCall>): seq<ToolEvent> {
    seq(|calls|, i requires 0 <= i < |calls| => ToolError(calls[i].callId, calls[i].name, MAX_STEPS_TOOL_ERROR))
  }

  ghost predicate AllTransient(sent: seq<Exchange>, agent: Agent, request: seq<Message>) {
    forall x :: x in sent ==> SentBy(x, agent, request) && IsTransient(x)
  }

  /** A failure is worth retrying exactly when the exchange failed transiently. */
  lemma {:induction false} RetriesTheTransient(x: Exchange, step: int)
    ensures var r := StepResult(x.reply, step);
      IsTransient(x) <==> r.Failure? && r.error.ProviderFailed? && IsRetryable(r.error.error)
  {
  }

  lemma {:induction false} NoneTransient(agent: Agent, request: seq<Message>)
    ensures AllTransient([], agent, request)
  {
  }

  lemma {:induction false} TransientSnoc(sent: seq<Exchange>, x: Exchange, agent: Agent, request: seq<Message>)
    requires AllTransient(sent, agent, request) && SentBy(x, agent, request) && IsTransient(x)
    ensures AllTransient(sent + [x], agent, request) && sent + [x] + [] == sent + [x]
  {
  }

  lemma {:induction false} RetriedSnoc(sent: seq<Exchange>, x: Exchange, agent: Agent, request: seq<Message>)
    requires AllTransient(sent, agent, request) && SentBy(x, agent, request)
    requires |sent| <= RETRY_MAX_RETRIES && (IsTransient(x) ==> |sent| == RETRY_MAX_RETRIES)
    ensures Retried(sent + [x], agent, request)
  {
    assert (sent + [x])[..|sent|] == sent;
  }

  /** Only a completed last sending is billed. */
  lemma {:induction false} RetriedBilling(sent: seq<Exchange>, agent: Agent, request: seq<Message>, step: int)
    requires Retried(sent, agent, request)
    ensures var r := StepResult(sent[|sent| - 1].reply, step);
      Billed(sent, agent) == if r.Success? then [r.value.usage] else []
    ensures Attempts(sent, agent) == |sent|
  {
    var init, last := sent[..|sent| - 1], sent[|sent| - 1];
    assert last in sent;
    TransientBilling(init, agent, request);
  }

  lemma {:induction false} TransientBilling(sent: seq<Exchange>, agent: Agent, request: seq<Message>)
    requires AllTransient(sent, agent, request)
    ensures Billed(sent, agent) == [] && Attempts(sent, agent) == |sent|
  {
    if sent != [] {
      assert sent[|sent| - 1] in sent;
      TransientBilling(sent[..|sent| - 1], agent, request);
    }
  }

  /** Sending an acceptable message list, with the last-step notice when due, is a good exchange. */
  lemma {:induction false} RetriedGood(
      sent: seq<Exchange>, agent: Agent, ms: seq<Message>, isLast: bool, prompt: Message, ids: set<string>)
    requires MessagesOk(ms, prompt, ids)
    requires Retried(sent, agent, LastStepRequest(ms, isLast))
    ensures AllGood(sent, agent, prompt)
  {
    RequestOk(ms, prompt, ids, isLast);
    AllGoodMeans(sent, agent, prompt);
  }
}
