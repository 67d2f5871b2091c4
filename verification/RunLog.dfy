/** The provider's log and the event stream of runs, and what is counted on them. */
module RunLog {
  import opened Wrappers
  import opened Messages
  import opened Providers
  import opened StreamAssembly
  import opened ToolDispatch
  import opened Compaction
  import opened CompactionTheorems
  import Text

  /** The hidden agent that writes summaries, or any other agent of the step loop. */
  datatype Agent = CompactionAgent | NamedAgent(name: string)

  /** One request a run sends to the provider, with the reply it gets. */
  datatype Exchange = Exchange(owner: Agent, request: seq<Message>, reply: Reply)

  datatype Event =
    | StepStart(step: int)
    | StepFinish(step: int, usage: Usage)
    | PartUpdated(step: int, update: PartUpdate)
    | RetryScheduled(step: int, attempt: nat, delayMs: int)
    | RetryAttempt(step: int, attempt: nat)
    | ToolCallEvent(step: int, event: ToolEvent)
    | CompactionDone(summary: string, overflow: bool, tailStartId: string)
    | Aborted

  // ---------------------------------------------------------------- billing

  function ReplyUsage(reply: Reply): Usage {
    SumUsage(Usages(reply.deltas))
  }

  /** The usages of the completed exchanges of one agent. */
  function Billed(log: seq<Exchange>, agent: Agent): seq<Usage> {
    if log == [] then []
    else
      var last := log[|log| - 1];
      Billed(log[..|log| - 1], agent)
        + if last.owner == agent && last.reply.ending.Finished? then [ReplyUsage(last.reply)] else []
  }

  /** The number of requests one agent has sent. */
  function Attempts(log: seq<Exchange>, agent: Agent): nat {
    if log == [] then 0
    else Attempts(log[..|log| - 1], agent) + if log[|log| - 1].owner == agent then 1 else 0
  }

  lemma {:induction false} LogConcat(a: seq<Exchange>, b: seq<Exchange>, agent: Agent)
    ensures Billed(a + b, agent) == Billed(a, agent) + Billed(b, agent)
    ensures Attempts(a + b, agent) == Attempts(a, agent) + Attempts(b, agent)
  {
    if b == [] {
      assert a + b == a;
    } else {
      var init, last := b[..|b| - 1], b[|b| - 1];
      LogConcat(a, init, agent);
      assert (a + b)[..|a + b| - 1] == a + init && (a + b)[|a + b| - 1] == last;
    }
  }

  lemma {:induction false} LogOne(x: Exchange, agent: Agent)
    ensures Billed([x], agent) == if x.owner == agent && x.reply.ending.Finished? then [ReplyUsage(x.reply)] else []
    ensures Attempts([x], agent) == if x.owner == agent then 1 else 0
  {
    assert [x][..0] == [];
  }

  /** Requests of other agents neither bill nor count. */
  lemma {:induction false} OthersIrrelevant(log: seq<Exchange>, agent: Agent)
    requires forall x :: x in log ==> x.owner != agent
    ensures Billed(log, agent) == [] && Attempts(log, agent) == 0
  {
    if log != [] {
      assert log[|log| - 1] in log;
      OthersIrrelevant(log[..|log| - 1], agent);
    }
  }

  // ---------------------------------------------------------------- events

  /** The usages of the finished steps. */
  function FinishUsages(events: seq<Event>): seq<Usage> {
    if events == [] then []
    else
      var last := events[|events| - 1];
      FinishUsages(events[..|events| - 1]) + if last.StepFinish? then [last.usage] else []
  }

  lemma {:induction false} FinishConcat(a: seq<Event>, b: seq<Event>)
    ensures FinishUsages(a + b) == FinishUsages(a) + FinishUsages(b)
  {
    if b == [] {
      assert a + b == a;
    } else {
      FinishConcat(a, b[..|b| - 1]);
      assert (a + b)[..|a + b| - 1] == a + b[..|b| - 1];
    }
  }

  predicate IsStart(e: Event) {
    e.ToolCallEvent? && e.event.ToolStarted?
  }

  /** The events that announce the start of a tool. */
  function Starts(events: seq<Event>): seq<Event> {
    if events == [] then []
    else
      var last := events[|events| - 1];
      Starts(events[..|events| - 1]) + if IsStart(last) then [last] else []
  }

  lemma {:induction false} StartsConcat(a: seq<Event>, b: seq<Event>)
    ensures Starts(a + b) == Starts(a) + Starts(b)
  {
    if b == [] {
      assert a + b == a;
    } else {
      StartsConcat(a, b[..|b| - 1]);
      assert (a + b)[..|a + b| - 1] == a + b[..|b| - 1];
    }
  }

  lemma {:induction false} StartsAreAll(events: seq<Event>, e: Event)
    ensures e in Starts(events) <==> e in events && IsStart(e)
  {
    if events != [] {
      var init, last := events[..|events| - 1], events[|events| - 1];
      StartsAreAll(init, e);
      assert events == init + [last];
    }
  }

  /** The events of a tool step announce the starts, and neither finish a step nor record a compaction. */
  lemma {:induction false} ToolStarts(step: int, events: seq<ToolEvent>)
    ensures Starts(StepTools(step, events)) == StepTools(step, StartsIn(events))
  {
    if events != [] {
      var init, last := events[..|events| - 1], events[|events| - 1];
      ToolStarts(step, init);
      assert StepTools(step, events)[..|events| - 1] == StepTools(step, init);
    }
  }

  /** The records of compactions. */
  function Recorded(events: seq<Event>): seq<Event> {
    if events == [] then []
    else
      var last := events[|events| - 1];
      Recorded(events[..|events| - 1]) + if last.CompactionDone? then [last] else []
  }

  lemma {:induction false} RecordedConcat(a: seq<Event>, b: seq<Event>)
    ensures Recorded(a + b) == Recorded(a) + Recorded(b)
  {
    if b == [] {
      assert a + b == a;
    } else {
      RecordedConcat(a, b[..|b| - 1]);
      assert (a + b)[..|a + b| - 1] == a + b[..|b| - 1];
    }
  }

  lemma {:induction false} RecordedAreAll(events: seq<Event>, e: Event)
    ensures e in Recorded(events) <==> e in events && e.CompactionDone?
  {
    if events != [] {
      var init, last := events[..|events| - 1], events[|events| - 1];
      RecordedAreAll(init, e);
      assert events == init + [last];
    }
  }

  lemma {:induction false} ToolEventsReport(step: int, events: seq<ToolEvent>, ids: set<string>)
    ensures FinishUsages(StepTools(step, events)) == [] && TailsIn(StepTools(step, events), ids)
    ensures Recorded(StepTools(step, events)) == []
  {
    if events != [] {
      ToolEventsReport(step, events[..|events| - 1], ids);
      assert StepTools(step, events)[..|events| - 1] == StepTools(step, events[..|events| - 1]);
    }
  }

  /** Neither the report of a finished step, nor the record of a compaction, nor the start of a tool. */
  predicate IsQuiet(e: Event) {
    !e.StepFinish? && !e.CompactionDone? && !IsStart(e)
  }

  predicate AllQuiet(events: seq<Event>) {
    forall e :: e in events ==> IsQuiet(e)
  }

  lemma {:induction false} QuietConcat(a: seq<Event>, b: seq<Event>)
    ensures AllQuiet(a + b) <==> AllQuiet(a) && AllQuiet(b)
  {
    if AllQuiet(a + b) {
      assert forall e :: e in a || e in b ==> e in a + b;
    }
  }

  lemma {:induction false} QuietEvents(events: seq<Event>, ids: set<string>)
    requires AllQuiet(events)
    ensures FinishUsages(events) == [] && TailsIn(events, ids) && Starts(events) == [] && Recorded(events) == []
  {
    if events != [] {
      assert events[|events| - 1] in events;
      QuietEvents(events[..|events| - 1], ids);
    }
  }

  lemma {:induction false} TailsConcat(a: seq<Event>, b: seq<Event>, ids: set<string>)
    ensures TailsIn(a + b, ids) <==> TailsIn(a, ids) && TailsIn(b, ids)
  {
    if b == [] {
      assert a + b == a;
    } else {
      var init, last := b[..|b| - 1], b[|b| - 1];
      TailsConcat(a, init, ids);
      assert (a + b)[..|a + b| - 1] == a + init && (a + b)[|a + b| - 1] == last;
    }
  }

  /** Every recorded compaction names a prompt of `ids` as the start of its tail, or none. */
  predicate TailsIn(events: seq<Event>, ids: set<string>) {
    events == [] ||
    (TailsIn(events[..|events| - 1], ids) && TailOk(events[|events| - 1], ids))
  }

  predicate TailOk(e: Event, ids: set<string>) {
    e.CompactionDone? ==> e.tailStartId == "" || e.tailStartId in ids
  }

  lemma {:induction false} TailsInMeans(events: seq<Event>, ids: set<string>)
    ensures TailsIn(events, ids) <==> forall e :: e in events ==> TailOk(e, ids)
  {
    if events != [] {
      var init, last := events[..|events| - 1], events[|events| - 1];
      TailsInMeans(init, ids);
      assert events == init + [last];
    }
  }

  function StepParts(step: int, updates: seq<PartUpdate>): seq<Event> {
    seq(|updates|, i requires 0 <= i < |updates| => PartUpdated(step, updates[i]))
  }

  function StepTools(step: int, events: seq<ToolEvent>): seq<Event> {
    seq(|events|, i requires 0 <= i < |events| => ToolCallEvent(step, events[i]))
  }

  // ---------------------------------------------------------------- the current prompt

  /** Neither the prompt nor its media-free form is taken for a checkpoint. */
  predicate Lasting(prompt: Message) {
    IsRealUser(prompt) && IsRealUser(StripMedia(prompt))
  }

  /** The last real user message is the current prompt, perhaps with its media stripped. */
  predicate Held(ms: seq<Message>, prompt: Message) {
    LastRealUser(ms) in {Some(prompt), Some(StripMedia(prompt))}
  }

  lemma {:induction false} HeldAppend(ms: seq<Message>, more: seq<Message>, prompt: Message)
    requires Held(ms, prompt) && NoPrompt(more)
    ensures Held(ms + more, prompt)
  {
    LastRealUserConcat(ms, more);
    LastRealUserIsLast(more);
  }

  lemma {:induction false} CompactionKeepsHeld(
      ms: seq<Message>, summary: string, limits: ModelLimits, overflow: bool, prompt: Message)
    requires Conversation(ms) != [] && Text.Strip(summary) != ""
    requires Lasting(prompt) && Held(ms, prompt)
    ensures Held(Compacted(ms, summary, limits, overflow), prompt)
  {
    if overflow {
      OverflowReplayKeepsPrompt(ms, summary, limits);
    } else {
      CompactionKeepsPrompt(ms, summary, limits);
    }
  }

  // ---------------------------------------------------------------- message ids

  predicate PromptIdsIn(ms: seq<Message>, ids: set<string>) {
    ms == [] ||
    (PromptIdsIn(ms[..|ms| - 1], ids) && PromptIdOk(ms[|ms| - 1], ids))
  }

  predicate PromptIdOk(m: Message, ids: set<string>) {
    IsRealUser(m) ==> m.messageId == "" || m.messageId in ids
  }

  lemma {:induction false} PromptIdsInMeans(ms: seq<Message>, ids: set<string>)
    ensures PromptIdsIn(ms, ids) <==> forall m :: m in ms ==> PromptIdOk(m, ids)
  {
    if ms != [] {
      var init, last := ms[..|ms| - 1], ms[|ms| - 1];
      PromptIdsInMeans(init, ids);
      assert ms == init + [last];
    }
  }

  lemma {:induction false} PromptIdsInConcat(a: seq<Message>, b: seq<Message>, ids: set<string>)
    ensures PromptIdsIn(a + b, ids) <==> PromptIdsIn(a, ids) && PromptIdsIn(b, ids)
  {
    PromptIdsInMeans(a, ids);
    PromptIdsInMeans(b, ids);
    PromptIdsInMeans(a + b, ids);
    if PromptIdsIn(a + b, ids) {
      assert forall m :: m in a || m in b ==> m in a + b;
    }
  }

  lemma {:induction false} TailStartIdIn(tail: seq<Message>, ids: set<string>)
    requires forall m :: m in tail ==> PromptIdOk(m, ids)
    ensures TailStartId(tail) == "" || TailStartId(tail) in ids
  {
    if tail != [] {
      assert tail[0] in tail;
      TailStartIdIn(tail[1..], ids);
    }
  }

  lemma {:induction false} CompactionKeepsIds(
      ms: seq<Message>, summary: string, limits: ModelLimits, overflow: bool, ids: set<string>)
    requires Conversation(ms) != [] && Text.Strip(summary) != ""
    requires PromptIdsIn(ms, ids)
    ensures PromptIdsIn(Compacted(ms, summary, limits, overflow), ids)
    ensures var id := ApplyCompaction(ms, summary, limits).1; id == "" || id in ids
  {
    PromptIdsInMeans(ms, ids);
    PromptIdsInMeans(Compacted(ms, summary, limits, overflow), ids);
    CompactedShape(ms, summary, limits, overflow);
    KeptTailMembers(ms, limits);
    LastRealUserIsLast(ms);
    PrefixMembers(ms, summary);
    SelectPartitions(ms, limits);
    FilterMembers((m: Message) => !m.role.System?, ms);
    var s := SelectSpec(ms, limits);
    assert forall m :: m in s.tail ==> m in s.head + s.tail;
    TailStartIdIn(s.tail, ids);
    forall m | m in Compacted(ms, summary, limits, overflow)
      ensures PromptIdOk(m, ids)
    {
      assert m in Prefix(ms, summary) || m in Rest(ms, limits, overflow);
    }
  }

  // ---------------------------------------------------------------- one exchange of a run

  /** A request a run may send: its own or its compaction child's, with every call answered. */
  predicate GoodExchange(x: Exchange, agent: Agent, prompt: Message) {
    && (x.owner == agent || x.owner.CompactionAgent?)
    && Answered(x.request)
    && (x.owner == agent && Lasting(prompt) ==> Held(x.request, prompt))
  }

  predicate AllGood(sent: seq<Exchange>, agent: Agent, prompt: Message) {
    sent == [] ||
    (AllGood(sent[..|sent| - 1], agent, prompt) && GoodExchange(sent[|sent| - 1], agent, prompt))
  }

  lemma {:induction false} AllGoodMeans(sent: seq<Exchange>, agent: Agent, prompt: Message)
    ensures AllGood(sent, agent, prompt) <==> forall x :: x in sent ==> GoodExchange(x, agent, prompt)
  {
    if sent != [] {
      var init, last := sent[..|sent| - 1], sent[|sent| - 1];
      AllGoodMeans(init, agent, prompt);
      assert sent == init + [last];
    }
  }

  lemma {:induction false} AllGoodConcat(a: seq<Exchange>, b: seq<Exchange>, agent: Agent, prompt: Message)
    ensures AllGood(a + b, agent, prompt) <==> AllGood(a, agent, prompt) && AllGood(b, agent, prompt)
  {
    if b == [] {
      assert a + b == a;
    } else {
      var init, last := b[..|b| - 1], b[|b| - 1];
      AllGoodConcat(a, init, agent, prompt);
      assert (a + b)[..|a + b| - 1] == a + init && (a + b)[|a + b| - 1] == last;
    }
  }

  /** Requests of a compaction child. */
  ghost predicate FromChild(sent: seq<Exchange>) {
    forall x :: x in sent ==> x.owner.CompactionAgent? && Answered(x.request)
  }

  // ---------------------------------------------------------------- the books of a run

  /** What a part of a run adds: requests to the provider's log, and events for its listener. */
  datatype Page = Page(sent: seq<Exchange>, emitted: seq<Event>)

  const BLANK := Page([], [])

  function Append(p: Page, q: Page): Page {
    Page(p.sent + q.sent, p.emitted + q.emitted)
  }

  /** The exchanges were answered with the provider's replies from the `n`-th on. */
  ghost predicate FromStream(sent: seq<Exchange>, replies: nat -> Reply, n: nat) {
    forall i :: 0 <= i < |sent| ==> sent[i].reply == replies(n + i)
  }

  lemma {:induction false} FromStreamConcat(a: seq<Exchange>, b: seq<Exchange>, replies: nat -> Reply, n: nat)
    ensures FromStream(a + b, replies, n) <==> FromStream(a, replies, n) && FromStream(b, replies, n + |a|)
  {
    if FromStream(a + b, replies, n) {
      forall i | 0 <= i < |a|
        ensures a[i].reply == replies(n + i)
      {
        assert (a + b)[i] == a[i];
      }
      forall i | 0 <= i < |b|
        ensures b[i].reply == replies(n + |a| + i)
      {
        assert (a + b)[|a| + i] == b[i] && n + (|a| + i) == n + |a| + i;
      }
    }
  }

  /**
   * The log and the events have grown by one page, and the provider has replied to each request in turn;
   * without a listener events go nowhere.
   */
  ghost predicate Grown(
    listening: bool, replies: nat -> Reply, log: seq<Exchange>, log': seq<Exchange>,
    events: seq<Event>, events': seq<Event>, page: Page)
  {
    && log' == log + page.sent
    && FromStream(page.sent, replies, |log|)
    && events' == if listening then events + page.emitted else events
  }

  /**
   * The books over a page: the requests are good, `billed` are the usages they cost this agent,
   * `finished` the usages the events report, `starts` the tool starts they announce, and `recorded` the
   * compactions they record.
   */
  ghost predicate Books(
    page: Page, agent: Agent, prompt: Message, ids: set<string>, billed: seq<Usage>, finished: seq<Usage>,
    starts: seq<Event> := [], recorded: seq<Event> := [])
  {
    && AllGood(page.sent, agent, prompt)
    && Billed(page.sent, agent) == billed
    && FinishUsages(page.emitted) == finished
    && TailsIn(page.emitted, ids)
    && Starts(page.emitted) == starts
    && Recorded(page.emitted) == recorded
  }

  lemma {:induction false} BooksReport(
    page: Page, agent: Agent, prompt: Message, ids: set<string>, billed: seq<Usage>, finished: seq<Usage>,
    starts: seq<Event>, recorded: seq<Event>)
    requires Books(page, agent, prompt, ids, billed, finished, starts, recorded)
    ensures FinishUsages(page.emitted) == finished && TailsIn(page.emitted, ids)
  {
  }

  /** Events alone. */
  lemma {:induction false} SentGrows(
    listening: bool, replies: nat -> Reply, log: seq<Exchange>, events: seq<Event>, events': seq<Event>, page: Page)
    requires page.sent == [] && events' == if listening then events + page.emitted else events
    ensures Grown(listening, replies, log, log, events, events', page)
  {
    assert log + [] == log;
  }

  lemma {:induction false} NothingYet(listening: bool, replies: nat -> Reply, log: seq<Exchange>, events: seq<Event>)
    ensures Grown(listening, replies, log, log, events, events, BLANK) && AllQuiet(BLANK.emitted)
  {
    assert log + [] == log && events + [] == events;
  }

  lemma {:induction false} BlankBooks(agent: Agent, prompt: Message, ids: set<string>)
    ensures Books(BLANK, agent, prompt, ids, [], [])
    ensures Attempts(BLANK.sent, agent) == 0 && |BLANK.sent| == 0
    ensures forall listening, replies, log, events :: Grown(listening, replies, log, log, events, events, BLANK)
  {
    forall listening: bool, replies: nat -> Reply, log: seq<Exchange>, events: seq<Event>
      ensures Grown(listening, replies, log, log, events, events, BLANK)
    {
      NothingYet(listening, replies, log, events);
    }
  }

  /** Events alone that report nothing. */
  lemma {:induction false} QuietBooks(emitted: seq<Event>, agent: Agent, prompt: Message, ids: set<string>)
    requires AllQuiet(emitted)
    ensures Books(Page([], emitted), agent, prompt, ids, [], [])
    ensures Attempts([], agent) == 0
  {
    QuietEvents(emitted, ids);
  }

  lemma {:induction false} AppendBooks(
    p: Page, q: Page, agent: Agent, prompt: Message, ids: set<string>,
    billed: seq<Usage>, finished: seq<Usage>, billed': seq<Usage>, finished': seq<Usage>,
    starts: seq<Event> := [], starts': seq<Event> := [], recorded: seq<Event> := [], recorded': seq<Event> := [])
    requires Books(p, agent, prompt, ids, billed, finished, starts, recorded)
    requires Books(q, agent, prompt, ids, billed', finished', starts', recorded')
    ensures Books(Append(p, q), agent, prompt, ids, billed + billed', finished + finished',
                  starts + starts', recorded + recorded')
    ensures Attempts(Append(p, q).sent, agent) == Attempts(p.sent, agent) + Attempts(q.sent, agent)
    ensures |Append(p, q).sent| == |p.sent| + |q.sent|
  {
    LogConcat(p.sent, q.sent, agent);
    AllGoodConcat(p.sent, q.sent, agent, prompt);
    FinishConcat(p.emitted, q.emitted);
    TailsConcat(p.emitted, q.emitted, ids);
    StartsConcat(p.emitted, q.emitted);
    RecordedConcat(p.emitted, q.emitted);
  }

  lemma {:induction false} AppendGrown(
    listening: bool, replies: nat -> Reply, l0: seq<Exchange>, l1: seq<Exchange>, l2: seq<Exchange>,
    e0: seq<Event>, e1: seq<Event>, e2: seq<Event>, p: Page, q: Page)
    requires Grown(listening, replies, l0, l1, e0, e1, p) && Grown(listening, replies, l1, l2, e1, e2, q)
    ensures Grown(listening, replies, l0, l2, e0, e2, Append(p, q))
  {
    FromStreamConcat(p.sent, q.sent, replies, |l0|);
    assert l0 + p.sent + q.sent == l0 + (p.sent + q.sent);
    assert e0 + p.emitted + q.emitted == e0 + (p.emitted + q.emitted);
  }

  /** One part of a run after another: the log, the events and the books continue. */
  lemma {:induction false} TurnPage(
    listening: bool, replies: nat -> Reply, l0: seq<Exchange>, l1: seq<Exchange>, l2: seq<Exchange>,
    e0: seq<Event>, e1: seq<Event>, e2: seq<Event>, p: Page, q: Page,
    agent: Agent, prompt: Message, ids: set<string>,
    billed: seq<Usage>, finished: seq<Usage>, billed': seq<Usage>, finished': seq<Usage>,
    starts: seq<Event> := [], starts': seq<Event> := [], recorded: seq<Event> := [], recorded': seq<Event> := [])
    requires Grown(listening, replies, l0, l1, e0, e1, p) && Grown(listening, replies, l1, l2, e1, e2, q)
    requires Books(p, agent, prompt, ids, billed, finished, starts, recorded)
    requires Books(q, agent, prompt, ids, billed', finished', starts', recorded')
    ensures Grown(listening, replies, l0, l2, e0, e2, Append(p, q))
    ensures Books(Append(p, q), agent, prompt, ids, billed + billed', finished + finished',
                  starts + starts', recorded + recorded')
    ensures Attempts(Append(p, q).sent, agent) == Attempts(p.sent, agent) + Attempts(q.sent, agent)
    ensures |Append(p, q).sent| == |p.sent| + |q.sent|
  {
    AppendGrown(listening, replies, l0, l1, l2, e0, e1, e2, p, q);
    AppendBooks(p, q, agent, prompt, ids, billed, finished, billed', finished', starts, starts', recorded, recorded');
  }

  /** The events of a tool step. */
  lemma {:induction false} ToolBooks(
    step: int, events: seq<ToolEvent>, agent: Agent, prompt: Message, ids: set<string>, starts: seq<Event>)
    requires Starts(StepTools(step, events)) == starts
    ensures Books(Page([], StepTools(step, events)), agent, prompt, ids, [], [], starts)
    ensures Attempts([], agent) == 0
  {
    ToolEventsReport(step, events, ids);
  }

  /** A compaction: requests of the child and at most the record of a compaction. */
  lemma {:induction false} ChildBooks(page: Page, agent: Agent, prompt: Message, ids: set<string>, recorded: seq<Event>)
    requires FromChild(page.sent) && (agent.CompactionAgent? ==> page.sent == [])
    requires FinishUsages(page.emitted) == [] && TailsIn(page.emitted, ids) && Starts(page.emitted) == []
    requires Recorded(page.emitted) == recorded
    ensures Books(page, agent, prompt, ids, [], [], [], recorded)
    ensures Attempts(page.sent, agent) == 0
  {
    AllGoodMeans(page.sent, agent, prompt);
    if !agent.CompactionAgent? {
      OthersIrrelevant(page.sent, agent);
    }
  }

  /** The report of a finished step. */
  lemma {:induction false} FinishBooks(agent: Agent, prompt: Message, ids: set<string>, step: int, usage: Usage)
    ensures Books(Page([], [StepFinish(step, usage)]), agent, prompt, ids, [], [usage])
    ensures Attempts([], agent) == 0
  {
    var e := StepFinish(step, usage);
    TailsInMeans([e], ids);
    assert [e][..0] == [] && Starts([e]) == Starts([e][..0]) && Recorded([e]) == Recorded([e][..0]);
    assert FinishUsages([e]) == FinishUsages([e][..0]) + [usage];
  }
}
