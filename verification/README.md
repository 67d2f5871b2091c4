# A verified model of the opencuria agent harness

This project models, in Dafny, the parts of opencuria that carry hard state, and proves properties of
the model over all inputs, all runs and all schedules.

**The agent harness** (`backend/apps/harness`). A run keeps a list of chat messages and talks to a
provider that may answer anything, fail transiently, overflow its context, stop on length, emit tool
calls or be cancelled at any request. The list may be compacted before, during and after a step, by a
nested run of a hidden agent. The service persists the events of a run and rebuilds the list for the
next one.

| module | what it models |
|---|---|
| `Messages` | chat messages and the pairing of tool calls with their results |
| `Compaction`, `CompactionTheorems` | token estimates, the choice of the kept suffix, the rewriting of the list |
| `Providers`, `StreamAssembly` | what a provider streams, and the assembly of text, usage and calls from it |
| `ProviderRetry` | which failures are retried, and after what delay |
| `ToolDispatch` | permission gates, the doom-loop guard, and the tool calls of one step under every schedule |
| `ToolSchedules` | the order in which the tasks of a step start, and what it leaves of the dependence on the schedule |
| `RunLog`, `RunTools`, `RunTrace` | the provider's log, the event stream, the books kept about both, and a run as a trace of turns: what each sent, which compactions it tried, how its tools ran |
| `RunContents`, `RunPermissions`, `RunReasons`, `RunDeterminism` | what a trace says about what the model is shown, about permissions, about why a run compacts and fails, and about what determines it |
| `HarnessRunner` | the step loop with its retries and nested compaction runs, as a class over a shared provider |
| `SessionHistory`, `SessionRuns` | stored messages and parts, the rebuilt history, persisting and finalising runs |
| `SessionMemory`, `ForgottenHistory` | what later runs are shown of a run, and what a compaction makes them forget |
| `ComputerUse`, `RecordingOutput`, `RunIds` | the computer-use loop, its hold and recording, its output line and its run ids |
| `SessionTree` | the breadth-first listing of a session and its descendants |

**The runner service** (`runner/src/service.py`). `DesktopLeases` models the holders of a shared
desktop process and `DesktopHolds` what is left of a computer-use run's lease, `SelfHealing` the
health-check loop, `ExecFraming` with `Base64` the framing of stdout and stderr of a command.

**The image-definition copy name** (`backend/apps/runners/api.py`) is modelled by `CopyName`.
`Text` and `Wrappers` hold Python's string operations and the usual result types.

Objects whose methods update fields are classes here (`HarnessRunner.Runner`,
`SessionRuns.RunContext`, `SessionRuns.HarnessService`, `ComputerUse.LoopState`,
`DesktopLeases.DesktopService`, `SelfHealing.HealthCheck`); loops that update locals are methods with
invariants, proved against functions about which the lemmas speak. The provider, the users who answer
permission questions, the tools, the desktop, clocks and random numbers are adversarial: oracles
about which nothing is assumed. Users and tools answer anew at every tool step of every run, also of
the compaction runs nested in it.

## How to read the main results

*A run.* `HarnessRunner.Runner.RunInner` returns a *page* (the requests it caused and the events it
emitted), *books* about that page, and a list of *turns*. The books say that every request has each
assistant call followed at once by its results, still holds the current prompt, and that the usage
reported step by step is exactly what the completed requests cost. The turns account for the whole
page: its requests are exactly theirs, those of compaction children included, its tool starts and its
records of compactions are exactly theirs, in order. Each turn is a value of `RunTrace.Turn` that obeys
`RunTrace.TurnOk`: an early attempt to compact, which is made if and only if the last step left too
little room; the sendings of its request, each repeated as often as transient failures demand; after a
context overflow an attempt to compact and a second request; after a length stop another attempt and, if
it changed the list, a third request; the tools, at their moment and in some schedule; and a late
attempt, again if and only if there is too little room. An attempt asks the compaction agent exactly when
it is due and there is something to summarise, and rewrites the list exactly when the agent's own run,
itself such a trace, ends with an output that is not blank. The last turn leads to the result or to the
failure. `RunContents` says what all this shows the model: the first request, what each turn adds to it,
what a compaction puts in the place of what, and that the run answers with the last reply. `RunReasons`
reads off when a run compacts, what it records of that, and for which three reasons it fails. `Messages.AnsweredIffByPosition` restates the pairing discipline by positions. Because a
compaction may cut inside a turn, results may be orphaned; the discipline says that all orphans stand
before the first call that is left.

*A session.* `SessionRuns.HarnessService.StartRun` is one run from the prompt to the stored outcome.
Its class invariant, kept over any sequence of runs, gives `SessionHistory.NothingAfterCompactionDropped`
and the equality of the session's counters with those of its completed messages. `SessionMemory` follows
what a run told of, through the stored parts, to what later runs are shown: its text, each of its calls
with its arguments and its result, and the last summary it recorded.

*A tool step.* A schedule is an order in which the tasks of a step are resumed, and the log of a step
says which permission callbacks were asked and what they answered. `RunTools.RulesDecide` and
`RunTools.UsersDecide` say, from the rules, the settings and the users' answers alone, how every call of a
step ends, and `RunTools.EachCallGetsItsOwnResult` what it is answered. `RunPermissions.EveryStartIsPermitted`
lifts the permission gates to every tool start a run announces, and
`ToolSchedules.OutcomesAreDetermined` says what tasks that start in the order of their calls lead to,
whatever the rest of the schedule. `RunDeterminism.RunsAreDetermined` lifts this to whole runs with
their children: the replies of the provider, request by request, and the answers of users and tools
determine all requests, all compactions and the result.

*Leases and restarts.* The classes keep a history that their cached state refines;
`DesktopLeases.HoldersAreAcquiredMinusReleased`, `DesktopLeases.StoppedExactlyWhenEmptied`,
`SelfHealing.RestartIsJustified`, `SelfHealing.RestartsAreApart` and
`SelfHealing.UnbrokenIffNeverSkipped` say what such a history means.

## What the proofs found

- The tasks of a step share the cache of once-approved keys, and yet what a step leads to does not
  depend on how they are interleaved: they start in the order of the calls, and each reads the cache
  before any callback that suspended has answered (`ToolSchedules.OutcomesAreDetermined`). A call ends
  otherwise than on its own exactly when an earlier call of the step, for the same tool and action, is
  approved once by a callback that answers without suspending, while its own callback would not approve
  it (`ToolSchedules.OrderMattersIff`). The callback of the service always suspends. Only a scheduler
  that holds back the first step of a task would make two such calls race
  (`ToolSchedules.ArbitraryScheduleMattersIffRacy`).
- After a context overflow the prompt is replayed without its media. If its text begins with the
  checkpoint prefix and an image behind it is what kept it from being plain text, the replayed prompt is
  taken for a checkpoint (`CompactionTheorems.OverflowReplayCanLosePrompt`, and exactly when:
  `CompactionTheorems.CompactionLeavesOneCheckpoint`, `CompactionTheorems.OverflowReplayKeepsPrompt`,
  `CompactionTheorems.SummaryRoundTrip`).
- After a context overflow the list is rewritten to the summary and the prompt. What stands in the kept
  tail besides the prompt is then in neither the list nor what the compaction agent was asked about
  (`RunContents.OverflowDropsTheTail` says exactly what); otherwise everything a compaction drops was shown
  to that agent (`RunContents.DroppedWasShown`).
- A computer-use run that is cancelled while its recording is being stopped never releases its hold
  (`ComputerUse.InterruptedStopKeepsHold`, and exactly when:
  `ComputerUse.HoldIsReleasedUnlessStopInterrupted`). Nor is a hold given back whose request raised or
  was interrupted, although it may have taken effect. With nobody else at the desktop the run is sure to
  leave no lease behind exactly when its hold was answered and its release was asked for and answered
  (`DesktopHolds.SureToBeGone`; in general: `DesktopHolds.HeldAfterRun`). The path returned by
  `record_stop` is assigned after the result has been built, so it has no effect.
- The usage of compaction children is reported by no run: what a run reports is the usage of all requests
  it caused if and only if the completed requests of its children sum to nothing
  (`RunReasons.ReportedUsageLeavesOutChildren`; a page on which they do not:
  `RunReasons.ChildUsageIsNotReported`).
- A compaction that cuts inside the turn of an earlier stored message makes the next run forget what lies
  between the cut and the next prompt: it is kept for this run only, and is in neither the summary nor
  the next rebuilt history (`ForgottenHistory.AnswerIsForgotten`). For the first compaction of a run,
  nothing is forgotten if and only if the kept tail lies within what the run has added itself, or begins
  with the prompt it is recorded to start at (`ForgottenHistory.ForgetsNothingIff`).
- The rebuilt history already ends with the current prompt, and the runner appends it once more
  (`SessionRuns.PromptIsSentTwice`).
- When a stale desktop process cannot be restarted, or the probe before the restart raises, its leases are dropped
  (`DesktopLeases.DesktopService.EnsureDesktopProcess`, condition `Loses`).
- The health check's documentation speaks of a workspace that was unreachable continuously and for
  more than the timeout. The timer of a workspace survives while it is stopped and no round probes it, so
  the first failure after a pause restarts it at once, and a failure exactly the timeout after the first
  one is late enough (`SelfHealing.PauseCountsAsUnreachable`). What holds is that a restart comes at least
  the timeout after a failed probe with no success, restart or cleanup in between
  (`SelfHealing.RestartIsJustified`), and that every round in between found the workspace unreachable if
  and only if none left it out (`SelfHealing.UnbrokenIffNeverSkipped`).
- `retry_delay` can honour `Retry-After`, but the runner never passes it the error, so only the
  delays without headers occur.

## Model

| member | source | states |
|---|---|---|
| Messages.AnsweredIffByPosition | backend/apps/harness/runner.py:1035-1063 | the recursive pairing discipline is exactly: each call is answered at once, one result per call in order, and orphaned results stand before the first call |
| Messages.PairedSuffix | backend/apps/harness/compaction.py:352-366 | cutting a fully paired list anywhere, also inside a tool step, leaves the discipline intact |
| Messages.AnsweredSuffix | backend/apps/harness/compaction.py:352-366 | the same for a list that already holds orphans, so any number of compactions keep it |
| Messages.AnsweredFilter | backend/apps/harness/compaction.py:338-341 | dropping system messages or checkpoints never separates a call from its results |
| Messages.FiltersKeepPlaces | backend/apps/harness/compaction.py:338-341 | taking the system messages, the conversation, or all but the checkpoints of a list keeps or drops each message by itself, in its place |
| Compaction.EstimateMessageTokens | backend/apps/harness/compaction.py:313-336 | the counting loops compute the additive token estimate |
| Compaction.TokensConcat | backend/apps/harness/compaction.py:328-336 | the estimate of a list is the sum over its parts |
| CompactionTheorems.EstimateIsAQuarter | backend/apps/harness/compaction.py:313-336 | the estimate of a list is a thousand for each of its images and a quarter of the characters of its texts, short of at most three characters for each text |
| CompactionTheorems.RecentBudget | backend/apps/harness/compaction.py:172-179 | the recent budget is a quarter of what the reserve for an answer leaves of the context, within 2,000 and 15,000 |
| CompactionTheorems.OverflowRule | backend/apps/harness/compaction.py:137-169 | a step left too little room if and only if compaction is automatic, the context length is known, and what the step counted and the reserve fill it |
| Compaction.TurnStarts | backend/apps/harness/compaction.py:343-350 | the loop finds exactly the positions of real user messages, in order |
| Compaction.SplitTurn | backend/apps/harness/compaction.py:352-366 | the loop finds the first cut of a turn whose suffix fits, if there is one |
| Compaction.ScanTurns | backend/apps/harness/compaction.py:368-392 | the greedy backward scan over turns finds the least eligible start, including the corner where the budget is used exactly |
| Compaction.Select | backend/apps/harness/compaction.py:368-405 | the imperative selection equals the declarative one |
| CompactionTheorems.SelectPartitions | backend/apps/harness/compaction.py:368-405 | head followed by tail is the conversation, and the tail is within the recent budget |
| CompactionTheorems.SelectIsMaximal | backend/apps/harness/compaction.py:368-405 | every earlier start from the first real user turn on gives a suffix over budget, unless the kept tail uses the budget exactly |
| CompactionTheorems.SelectKeepsNothing | backend/apps/harness/compaction.py:393-396 | the tail is empty exactly when nothing is eligible or everything would be kept |
| CompactionTheorems.CompactedShape | backend/apps/harness/compaction.py:408-511 | a compaction yields the system messages, one checkpoint, and the tail with the prompt put back |
| CompactionTheorems.CompactionKeepsSystem | backend/apps/harness/compaction.py:416-432 | all system messages survive, in order |
| CompactionTheorems.CompactionLeavesOneCheckpoint | backend/apps/harness/compaction.py:408-484 | exactly one checkpoint is left, unless the replayed prompt turns into one: if and only if |
| CompactionTheorems.CompactionKeepsPrompt | backend/apps/harness/compaction.py:486-511 | the last real user message after a normal compaction is the one before |
| CompactionTheorems.OverflowReplayKeepsPrompt | backend/apps/harness/compaction.py:448-484 | after an overflow it is that message without media, if and only if this form is not taken for a checkpoint |
| CompactionTheorems.ReplayReadsTheSame | backend/apps/harness/compaction.py:448-484 | the replayed prompt keeps its id and all its texts in place, and has a remark where an image was |
| CompactionTheorems.OverflowReplayCanLosePrompt | backend/apps/harness/compaction.py:448-484 | a concrete conversation whose prompt is lost by every overflow compaction, whatever the summary and the limits |
| CompactionTheorems.CompactionFits | backend/apps/harness/compaction.py:172-179 | the conversation after a compaction is within checkpoint, budget and prompt tokens |
| CompactionTheorems.CheckpointRoundTrip | backend/apps/harness/compaction.py:207-220 | the summary read from a printed checkpoint is the trimmed summary |
| CompactionTheorems.SummaryRoundTrip | backend/apps/harness/compaction.py:222-228 | the summary found in a compacted list is the one just written, if and only if the replayed prompt is not taken for a checkpoint that carries another one |
| CompactionTheorems.WithCurrentUserIdempotent | backend/apps/harness/compaction.py:486-511 | putting the prompt back twice is putting it back once |
| CompactionTheorems.CompactionKeepsAnswered | backend/apps/harness/compaction.py:416-511 | a compaction keeps the pairing discipline |
| Compaction.EnsureCurrentUser | backend/apps/harness/compaction.py:486-511 | the two loops compute the reinsertion of the prompt behind the leading prefix |
| StreamAssembly.Consume | backend/apps/harness/runner.py:1491-1548 | the streaming loop returns the declarative reading of the stream and emits its text and reasoning deltas |
| StreamAssembly.CallsAreAssembled | backend/apps/harness/runner.py:1516-1547 | the calls of a stream correspond, in increasing order, to the indices that are given a name; each has the last name and the joined arguments of the fragments of its index, and their last id or a made-up one |
| StreamAssembly.MadeUpIdsDiffer | backend/apps/harness/runner.py:1534-1547 | two calls of a step that are given no id get different ones |
| StreamAssembly.SlotsAreAssembled | backend/apps/harness/runner.py:1520-1533 | a slot holds what the fragments of its own index describe, and exists if and only if there are any |
| StreamAssembly.InterleavingIrrelevant | backend/apps/harness/runner.py:1520-1547 | any interleaving of the fragments of different indices gives the same calls |
| StreamAssembly.RechunkingIrrelevant | backend/apps/harness/runner.py:1528-1533 | cutting an argument text anywhere gives the same calls |
| StreamAssembly.EmittedTextIsText | backend/apps/harness/runner.py:1502-1510 | the emitted text deltas concatenate to the returned text |
| ProviderRetry.DelaysNeverDecrease | backend/apps/harness/provider_retry.py:119-139 | for all jitters a later attempt never waits less, and none waits more than 30 s |
| ProviderRetry.JitterAddsUpToAQuarter | backend/apps/harness/provider_retry.py:119-139 | a wait is the whole milliseconds of two seconds, doubled from attempt to attempt, and a random share of their quarter, up to 30 seconds |
| ProviderRetry.FullRetrySleep | backend/apps/harness/runner.py:1441-1479 | five retries sleep between 60 and 67.5 s |
| ProviderRetry.DelayWithinBudget | backend/apps/harness/provider_retry.py:134-139 | each delay is within the share the loop's sleep bound is made of |
| ProviderRetry.RetryRule | backend/apps/harness/provider_retry.py:175-205 | overflows, failed authentication and errors known to be final are never retried; of the rest timeouts always, and others as the server says or the failure looks |
| ToolDispatch.CombineDecisions | backend/apps/harness/runner.py:221-227 | the merged decision is deny if and only if some layer denies, and ask if and only if one asks and none denies |
| ToolDispatch.GateIsTight | backend/apps/harness/runner.py:510-570 | a call is rejected if and only if the nesting depth or a layer forbids it; of the others it passes unasked if and only if every layer allows it and no flag is raised, and the user is asked if and only if a flag is raised or a layer asks |
| ToolDispatch.DoomFlags | backend/apps/harness/runner.py:681-689 | the flags computed on the trimmed list are those of the full call history |
| ToolDispatch.ExactlyOneTerminalEvent | backend/apps/harness/runner.py:494-741 | under every complete schedule each call id gets one terminal event per call carrying it |
| ToolDispatch.EachCallReportsItsOwnEnd | backend/apps/harness/runner.py:494-741 | under every complete schedule the events that end calls are exactly one for each call: a completed one carries the output of its own tool, any other the text for its own end |
| ToolDispatch.StartsAreAnnounced | backend/apps/harness/runner.py:588-600 | under every schedule, finished or not, the start events are those of the tools that ran, in the order they started |
| ToolDispatch.OnlyPermittedToolsRun | backend/apps/harness/runner.py:422-480 | under every schedule a tool runs at most once, and only if its gate is free, approvals are automatic, its key is cached, or its own callback was asked and answered always; every key cached in the step was approved once by a callback that was asked |
| ToolSchedules.StartsFirst | backend/apps/harness/runner.py:690-709 | when all tasks start before any is resumed, in whatever order, every call gets the verdict it has on its own, clash or no clash |
| ToolSchedules.OutcomesAreDetermined | backend/apps/harness/runner.py:690-741 | verdicts and cached approvals of tasks that start in the order of their calls are functions of the calls, the initial cache and the answers, not of the schedule |
| ToolSchedules.OrderMattersIff | backend/apps/harness/runner.py:440-480 | a call ends otherwise than on its own if and only if an earlier call clashes with it whose callback approves once without suspending |
| ToolSchedules.ArbitraryScheduleIrrelevant | backend/apps/harness/runner.py:690-741 | under an arbitrary scheduler, which may hold back the first step of a task, a step without a clash gives every call the verdict it has on its own |
| ToolSchedules.ArbitraryClashMatters | backend/apps/harness/runner.py:440-480 | under an arbitrary scheduler a clash lets two schedules of the same step disagree |
| ToolSchedules.ArbitraryScheduleMattersIffRacy | backend/apps/harness/runner.py:422-480 | under an arbitrary scheduler the outcomes depend on the schedule if and only if two calls of the step clash on a once-approval |
| ToolSchedules.RunTasks | backend/apps/harness/runner.py:690-717 | running the tasks is executing some schedule that starts them in the order of the calls, to its end unless the run is cancelled |
| ToolDispatch.ApprovalsAreGranted | backend/apps/harness/runner.py:440-480 | under every schedule a key that enters the cache in a step belongs to a call whose callback was asked in that step and answered once |
| RunTools.RanAnswers | backend/apps/harness/runner.py:717-741 | the outcomes of a tool step are one result per call, in the order of the calls |
| RunTools.EachCallGetsItsOwnResult | backend/apps/harness/runner.py:717-741 | in a step that ran to its end each call is answered, at its place, with the output of its own tool if that completed, and otherwise with the error text for its own end |
| RunTools.EachCallIsReportedOnce | backend/apps/harness/runner.py:494-741 | the events that end the calls of a step are one for each call, with the same output or the report of the same end |
| RunTools.RulesDecide | backend/apps/harness/runner.py:510-570 | whatever the schedule, a call that depth or rules forbid was turned down, and one that rules and flags allow, or that needs no question because approvals are automatic or its key is cached, ran its tool |
| RunTools.UsersDecide | backend/apps/harness/runner.py:422-480 | whatever the schedule, a call that needs a question ran its tool if and only if its own callback approved it or an earlier call with its name and action was approved before it started; otherwise it was turned down, or its task raised with its callback |
| RunTools.ResultsAreDetermined | backend/apps/harness/runner.py:690-741 | two ways to run the calls of a step to their end, with the same answers of users and tools, have the same results and leave the same approvals |
| RunPermissions.ApprovalsOfTheRun | backend/apps/harness/runner.py:440-480 | every cached approval was given by a callback that was asked in some turn of the same run |
| RunPermissions.RunStartsOnlyPermittedTools | backend/apps/harness/runner.py:494-600 | over a whole run and all its schedules, a started tool was not rejected, and its gate was free, or approvals are automatic, or its own callback was asked and answered always, or a callback of this run was asked about its key no later than in this turn and approved it once |
| RunPermissions.EveryStartIsPermitted | backend/apps/harness/runner.py:494-600 | every tool start that the events of a run announce is that of a call of one of its turns which was permitted in this sense |
| RunDeterminism.RunsAreDetermined | backend/apps/harness/runner.py:805-1076 | two runs that are set up alike and get the same replies from the provider, request by request, and the same answers from users and tools send the same requests, record the same compactions and come to the same result, however their tasks and those of their compaction children were interleaved |
| RunReasons.CompactionsAreDue | backend/apps/harness/runner.py:891-1076 | when something can be summarised, the compaction agent is asked if and only if: before the first step, the last run left too little room; after a refusal, the context overflowed; after a length stop; or behind a step that goes on and leaves too little room |
| RunReasons.CompactionsAreProvoked | backend/apps/harness/runner.py:1325-1429 | behind a compaction after an overflow stands a recorded request of the run that was refused for overflow, behind one after a length stop a recorded request that was stopped by length, behind a late one a step whose usage overflows |
| RunContents.HeadIsShown | backend/apps/harness/runner.py:1575-1582 | whenever the compaction agent is asked, it is asked about everything in front of the kept tail, and given the previous summary |
| RunContents.OnlyTheShownIsDropped | backend/apps/harness/runner.py:1575-1625 | a compaction that is not one after an overflow leaves the system messages, a checkpoint with the child's summary, the prompt if it was in front, and the tail without checkpoints; the rest is what the child was asked about |
| RunContents.DroppedWasShown | backend/apps/harness/runner.py:1575-1625 | so every message it drops, other than a checkpoint, was shown to the compaction agent |
| RunContents.OverflowDropsTheTail | backend/apps/harness/runner.py:1575-1625 | after an overflow the list is the system messages, the checkpoint and the prompt without media; in neither the list nor what the child was asked about is exactly what stands in the tail alone, that prompt and checkpoints excepted |
| RunContents.FirstRequestIs | backend/apps/harness/runner.py:839-864 | unless an early compaction comes before it, the first request is the system prompt of the agent, the history and the prompt with its id, and the notice of a last step |
| RunContents.RequestsOfATurn | backend/apps/harness/runner.py:866-984 | each request of a turn shows the list as the attempt before it left it: compacted in place before the step and after a length stop, replayed after an overflow; and when a second and a third request are sent |
| RunContents.ChildIsShownItsPrompt | backend/apps/harness/runner.py:1583-1607 | the compaction agent is sent its system prompt and what it is asked, and nothing else |
| RunContents.ChildrenAskNobody | backend/apps/harness/runner.py:1591-1607 | every call of a compaction run either runs its tool or is denied by the rules; no user is asked |
| RunContents.ChildrenAreBounded | backend/apps/harness/runner.py:781 | a compaction run, which is given no limit of its own, has at most a hundred turns |
| RunContents.NextRequestGrows | backend/apps/harness/runner.py:911-1076 | the request of the next turn is the last one of this turn without its notice, followed by the answer with its text and its calls, name by name and argument by argument, and their results, compacted if a late attempt gave a summary |
| RunContents.LateIsAboutTheAnswer | backend/apps/harness/runner.py:1007-1076 | a compaction behind a step is asked about the last request of the step followed by its answer and, if it asked for tools, their results |
| RunContents.TurnRanItsTools | backend/apps/harness/runner.py:1035-1063 | those results are those of a complete tool step on the calls of that answer, at its own moment |
| RunContents.RunsAnswerWithTheLastReply | backend/apps/harness/runner.py:929-1033 | a run that succeeds answers with the text of the last reply of its last turn, and a notice if that was filtered or cut off; it ends for that reason, or because no step is left, or because no tool is asked for |
| RunReasons.RecordsAreSummaries | backend/apps/harness/runner.py:1561-1628 | each recorded compaction carries the trimmed, clipped output of a finished run of the compaction agent that was asked about the list being compacted, whose requests stand in the log of the run at that point; it names the start of the kept tail and whether the context had overflowed |
| RunReasons.RunsFailForAReason | backend/apps/harness/runner.py:805-1076 | a run is cancelled only when its last request, a compaction child or its tools were; it fails with a provider error only when its last request failed with it for good, not transiently or for the sixth time; and with a history too large only after two overflows of one step |
| RunReasons.ReportedUsageLeavesOutChildren | backend/apps/harness/runner.py:1597-1611 | the reported usage is that of all completed requests of the run and its children if and only if those of the children sum to nothing |
| RunReasons.ChildUsageIsNotReported | backend/apps/harness/runner.py:1597-1611 | a page on which a child's request has a usage, and the books hold, but no event reports it |
| RunLog.CompactionKeepsIds | backend/apps/harness/runner.py:1608-1625 | the prompts of a compacted list, and the recorded start of its tail, carry ids of the prompts before |
| RunLog.TurnPage | backend/apps/harness/runner.py:927-982 | the books of consecutive parts of a run, with the replies they got, add up |
| RunTrace.EnterTurn | backend/apps/harness/runner.py:892-1076 | a turn that fits behind the others extends the trace, which goes on or ends as that turn does |
| HarnessRunner.RunBoundIs | backend/apps/harness/runner.py:891-1076 | the request bound in closed form: one compaction child before the first step and a fixed share per step |
| HarnessRunner.Runner.ProviderStep | backend/apps/harness/runner.py:1481-1548 | one request, its events and its result |
| HarnessRunner.Runner.ProviderStepWithTransientRetry | backend/apps/harness/runner.py:1431-1479 | one to six sendings of the same request, all but the last failed transiently; the time slept lies between the floor and the budget of the retries made, 60 to 67.5 s for all five |
| HarnessRunner.Runner.RunStepTools | backend/apps/harness/runner.py:668-741 | the outcomes are those of a schedule in call order, complete unless the run is cancelled, each call having the message and the image of its own end; with exactly the events it emitted and exact doom flags |
| HarnessRunner.Runner.Summarise | backend/apps/harness/runner.py:1583-1611 | the child is a complete trace of the compaction agent on the given prompt, its requests are exactly what the log gains, at most 1200; its cancellation is passed on, and otherwise the summary is its trimmed output when it finished and blank when it failed |
| HarnessRunner.Runner.MaybeCompactHistory | backend/apps/harness/runner.py:1561-1628 | a child is asked if and only if there is something to summarise and the agent is not the compaction agent itself; the list is rewritten with the child's summary, and the compaction recorded, if and only if the child finished with an output that is not blank |
| HarnessRunner.Runner.CompactOnOverflow | backend/apps/harness/runner.py:897-910 | a compaction is tried if and only if the last step left too little room |
| HarnessRunner.Runner.ProviderStepWithOverflowRetry | backend/apps/harness/runner.py:1325-1382 | if and only if the first sendings end with a context overflow, a compaction is tried and, unless that is cancelled, the request sent again on what it left; the outcome is that of the last request, and a second overflow means the history is too large |
| HarnessRunner.Runner.LengthRetryOnce | backend/apps/harness/runner.py:1384-1429 | after a length stop a compaction is always tried; the request is sent again if and only if that gave a summary, and otherwise the first answer stands |
| HarnessRunner.Runner.ToolPhase | backend/apps/harness/runner.py:1035-1060 | the list grows by the calls and the results of a complete schedule with exact doom flags; finished or cancelled, it emits the events of its schedule and announces its starts |
| HarnessRunner.Runner.LoopRound | backend/apps/harness/runner.py:892-1076 | one round is one turn that obeys the step rules for its compactions, retries and tools, and sends, starts and records exactly what that turn does; what it returns is what the turn leads to, a failure included |
| HarnessRunner.Runner.RunInner | backend/apps/harness/runner.py:805-1076 | at most max(1, max_steps) steps, 18 own attempts per step, a total request bound; all requests good; reported usage is billed usage and sums to the result; the turns are a trace from the initial messages to the result or the failure, and account for every request, tool start and recorded compaction of the run |
| HarnessRunner.Runner.RunAndSay | backend/apps/harness/runner.py:787-803 | the same, and a cancelled run reports it as its last event |
| HarnessRunner.Runner.Run | backend/apps/harness/runner.py:743-803 | the same with the default limits; the run is invalid, and sends and emits nothing, if and only if the prompt is blank or the nesting too deep |
| HarnessRunner.RetriedBilling | backend/apps/harness/runner.py:1441-1479 | of a retried request only a completed last sending is billed |
| SessionHistory.FindLatestCompaction | backend/apps/harness/harness_service.py:798-810 | the nested loops find the latest completed compaction |
| SessionHistory.LatestIsLast | backend/apps/harness/harness_service.py:798-810 | no completed compaction lies after the one found |
| SessionHistory.SliceMessagesForCompaction | backend/apps/harness/harness_service.py:813-832 | the kept messages are the suffix from the recorded tail, if it is there, else from the compacting message |
| SessionHistory.BuildHistory | backend/apps/harness/harness_service.py:694-796 | the loops compute the history of the table without the excluded message, about which the lemmas of SessionHistory, ForgottenHistory and SessionMemory speak |
| SessionHistory.HistoryPaired | backend/apps/harness/harness_service.py:731-796 | in a rebuilt history every call is followed at once by its results and there are no orphans |
| SessionHistory.WordsAreJoined | backend/apps/harness/harness_service.py:835-846 | the words of a stored answer are those of all its text parts, in order |
| SessionHistory.HistoryIds | backend/apps/harness/harness_service.py:731-740 | prompts carry the ids of stored user messages |
| SessionHistory.KeptBeforeCompaction | backend/apps/harness/harness_service.py:813-832 | the kept suffix starts at an earlier prompt or at the compacting message, never after it |
| SessionHistory.HistoryIsCheckpointAndSuffix | backend/apps/harness/harness_service.py:712-796 | the history is the latest checkpoint followed by the rendering of that suffix |
| SessionHistory.NothingAfterCompactionDropped | backend/apps/harness/harness_service.py:712-796 | everything stored from the latest compacting message on is rendered, in order |
| SessionHistory.HistoryEndsWithPrompt | backend/apps/harness/harness_service.py:486-510 | a prompt stored last is the last message of the history |
| ForgottenHistory.PromptStands | backend/apps/harness/harness_service.py:731-740 | every stored prompt of the kept suffix stands in the history in its own words and with its id |
| SessionMemory.AnswerIsShown | backend/apps/harness/harness_service.py:741-796 | every stored answer of the kept suffix stands in the history with its id and its words, and with each of its settled calls: name, arguments, and the clipped output of its own part behind it |
| SessionMemory.StreamedTextIsShown | backend/apps/harness/harness_service.py:835-850 | the words of a run's answer are the text its events streamed or, without any, its stored content unless that is blank or the summary made with it |
| SessionMemory.StartedCallIsShown | backend/apps/harness/harness_service.py:741-796 | a call that a run started and ended is shown to later runs under its name, with its arguments and with what its end reported |
| SessionMemory.UnstartedCallIsShown | backend/apps/harness/harness_service.py:741-796 | one that ended without a start is shown under the name its end gave it, and with what that reported |
| SessionMemory.RunningCallIsShown | backend/apps/harness/harness_service.py:1137-1161 | one that was running when its run failed is shown answered with the reason of the failure |
| SessionMemory.HistoryBeginsWithLastSummary | backend/apps/harness/harness_service.py:712-729 | after a message that holds compactions, and until the next, every history begins with a checkpoint whose summary is the last one told of, trimmed |
| SessionMemory.NextRunBeginsWithSummary | backend/apps/harness/harness_service.py:712-729 | so the run after a run that compacted begins with the last summary that run recorded, which is never blank |
| ForgottenHistory.ForgetsNothingIff | backend/apps/harness/compaction.py:393-405 | when a run that began with a rebuilt history and its prompt first compacts, everything before the start of the next rebuilt history is in the summarised head if and only if the tail lies within the run's own messages or begins with the prompt it is recorded to start at |
| ForgottenHistory.AnswerIsForgotten | backend/apps/harness/harness_service.py:813-832 | a long prompt, a short answer and a prompt: the answer is neither summarised nor in the next rebuilt history |
| SessionRuns.PersistedUsage | backend/apps/harness/harness_service.py:1291-1305 | a message's counters grow by exactly the usages of the finished steps |
| SessionRuns.PersistedAllRooted | backend/apps/harness/harness_service.py:1491-1503 | persisted compactions name earlier prompts as the start of their tail, or none |
| SessionRuns.PersistedAllText | backend/apps/harness/harness_service.py:1517-1540 | the streamed text stands in the message and in its one text part |
| SessionRuns.PersistedAllReasoning | backend/apps/harness/harness_service.py:1517-1540 | the streamed reasoning stands, whole, in the part of its own |
| SessionRuns.PersistedSteps | backend/apps/harness/harness_service.py:1249-1305 | a message holds, in order, the starts and the ends of the steps its events told of, each end with its usage, and no other |
| SessionRuns.PersistedCalls | backend/apps/harness/harness_service.py:1331-1395 | a message holds one part, in order, for each call its events told of: one per start, and one per end whose call id was unknown before; and no other |
| SessionRuns.PersistedCompactions | backend/apps/harness/harness_service.py:1491-1503 | a message holds, in order, one completed compaction for each its events told of, with its summary and the start of its tail, and no other |
| SessionMemory.EndedCallIsStored | backend/apps/harness/harness_service.py:1555-1588 | after the last event that ends a call, a part of that call is done or failed as the event says, with what it reports |
| SessionMemory.StartedCallIsStored | backend/apps/harness/harness_service.py:1331-1395 | the part of a call that was started and has ended has the name and the arguments of its start and the report of its end |
| SessionRuns.RunContext.PersistRunnerEvent | backend/apps/harness/harness_service.py:1249-1408 | each text, step, tool, retry and compaction event changes the message and its parts as the event function says, about which PersistedUsage, PersistedAllText, PersistedCalls, PersistedCompactions and the lemmas of SessionMemory speak |
| SessionRuns.RunContext.FinishToolPart | backend/apps/harness/harness_service.py:1555-1588 | the part of a finished call is the one it started, else the first with its id, else a new one |
| SessionRuns.CompletedContentShowsOutput | backend/apps/harness/harness_service.py:1066-1078 | a finished message ends with the output or, if it was cut short, begins with it |
| SessionRuns.CompletedContentCompletes | backend/apps/harness/harness_service.py:1066-1078 | nothing is added if and only if the output is shown already; an output that the streamed text begins is completed, and any other appended |
| SessionRuns.FailedCallsAreAnswered | backend/apps/harness/harness_service.py:1137-1161 | once no part is open, the history shows every stored call, in order, with its result |
| SessionRuns.ClosedBadlyIsStored | backend/apps/harness/harness_service.py:1091-1161 | an aborted or failed run keeps the finished steps' usage and the streamed text; settled parts stay as they are, open text is complete, and every other open part has failed with the reason; the next history shows each call its events told of, with a result |
| SessionRuns.ClosedWellIsStored | backend/apps/harness/harness_service.py:1060-1135 | a completed run keeps usage and text, shows the output, and closes open text alone |
| SessionRuns.HarnessService.Finalise | backend/apps/harness/harness_service.py:1057-1103 | only a successful run is added to the session, by exactly what the message counts |
| SessionRuns.HarnessService.ExecuteRun | backend/apps/harness/harness_service.py:958-1103 | the run's trace and books, the replies it got, and the message stored for it |
| SessionRuns.HarnessService.StartRun | backend/apps/harness/harness_service.py:454-566 | a run starts from the history rebuilt from the table, leaves two more messages and keeps the invariants of the session; a blank prompt changes nothing |
| SessionRuns.PromptIsSentTwice | backend/apps/harness/harness_service.py:486-510 | unless an early compaction comes before it, the first request of a run, each time it is sent, ends with the prompt twice, but for the notice of a last step |
| SessionTree.ListDescendantIds | backend/apps/harness/repositories.py:158-177 | for any parent relation the listing ends; it holds exactly the reachable ids, root first, each once, nearest first |
| RunIds.SanitizedIsAccepted | backend/apps/harness/computeruse_loop.py:27-41 | every sanitized session id passes the runner's check, and the last fallback is never needed |
| RunIds.SanitizeKeepsCleanIds | backend/apps/harness/computeruse_loop.py:27-41 | well-formed ids are left alone |
| RunIds.KindIsReadLoosely | runner/src/service.py:1908-1914 | neither white space around a holder's kind nor the case of its letters matters |
| RecordingOutput.AppendVideoIdempotent | backend/apps/harness/computeruse_loop.py:95-100 | adding the recording line twice is adding it once |
| RecordingOutput.AppendVideoKeepsOutput | backend/apps/harness/computeruse_loop.py:95-100 | the output stays as it is if it names the recording; else only white space at its end goes, and the line is added behind it |
| RecordingOutput.RecordingIsFound | backend/apps/harness/computeruse_loop.py:103-121 | the not-found branch is never taken |
| RecordingOutput.TruncationKeepsRecording | backend/apps/harness/computeruse_loop.py:103-130 | the cut output keeps the recording line, is cut if and only if it does not fit, and is at most max(limit, suffix + 40) long while lengths have 14 digits |
| RecordingOutput.TruncationKeepsTheFront | backend/apps/harness/computeruse_loop.py:103-130 | what fits is given out but for the white space before the last recording line; otherwise exactly the front of the text, a remark with its length, and all from that line on |
| ComputerUse.LayoutIsGood | backend/apps/harness/computeruse_loop.py:142-158 | a request has its calls answered and one image more than the base messages |
| ComputerUse.LoopState.FlushRoundToLedger | backend/apps/harness/computeruse_loop.py:160-169 | the calls of the round become ledger lines in order, so ledger and round still account for all dispatched calls |
| ComputerUse.LoopState.AppendOutcomes | backend/apps/harness/runner.py:1242-1247 | the round grows by the results and the frame is the last image among them |
| ComputerUse.Steps | backend/apps/harness/runner.py:1163-1247 | one request per step, each showing all calls dispatched before it and a single frame, which is the last image that the calls of the rounds before it ended with, or the initial one; reported usage is billed usage; each round that went on ran its calls to their end with exact doom flags against the call history and the approvals before it, and the tool starts announced are exactly those of the rounds, the one cut short included |
| ComputerUse.RequestsShowTheWork | backend/apps/harness/computeruse_loop.py:142-174 | each request is exactly the base messages, one line for each call of the rounds before the last, the last round with its results, the frame, and the notice of a last step |
| ComputerUse.HoldIsReleasedUnlessStopInterrupted | backend/apps/harness/runner.py:1141-1273 | a run that got its hold releases it exactly once, if and only if it is not cancelled while stopping its recording; a recording is stopped if and only if it was started, and before the release |
| ComputerUse.InterruptedStopKeepsHold | backend/apps/harness/runner.py:1248-1273 | concrete desktop responses under which the hold is never released |
| ComputerUse.Run | backend/apps/harness/runner.py:1131-1273 | on every exit path the desktop actions are a function of the desktop's responses alone |
| DesktopLeases.SanitizedRunCanHold | runner/src/service.py:1909-1914 | the id a computer-use run makes from its session id is granted a lease |
| DesktopLeases.HoldersAreAcquiredMinusReleased | runner/src/service.py:2090-2182 | somebody holds a desktop if and only if they acquired it and nothing since has taken it back |
| DesktopLeases.StoppedExactlyWhenEmptied | runner/src/service.py:2158-2182 | the display is stopped, unforced, at exactly those points where a release left nobody |
| DesktopLeases.DesktopService.EnsureDesktopProcess | runner/src/service.py:2008-2088 | leases of a stale session are carried over; exactly when they are lost; other workspaces are untouched |
| DesktopLeases.DesktopService.AcquireDesktop | runner/src/service.py:2090-2118 | adds exactly the named holder, or fails without effect on the others |
| DesktopLeases.DesktopService.ReleaseDesktop | runner/src/service.py:2120-2182 | removes exactly the named holder and stops the display, its recordings and its session if and only if nobody is left |
| DesktopLeases.DesktopService.ForceReleaseDesktop | runner/src/service.py:2133-2149 | stops whatever there is and reports it stopped even when there is nothing |
| DesktopLeases.DesktopService.StopDesktopProcess | runner/src/service.py:2203-2266 | drops the session and exactly the recordings of the workspace |
| DesktopHolds.Serve | runner/src/service.py:2345-2375 | a hold or release that takes effect changes the leases of the workspace as the abstract action does; a release always does, a hold exactly when the display process can be had |
| DesktopHolds.HeldAfterRun | backend/apps/harness/runner.py:1141-1273 | after a computer-use run its id is among the holders if and only if the hold took effect, no release was asked for and took effect, and nobody has taken the lease back since, whatever responses came back |
| DesktopHolds.SureToBeGone | backend/apps/harness/runner.py:1141-1273 | with nobody else at the desktop, all ways the actions may have taken effect leave no lease if and only if the hold was answered and the release asked for and answered |
| SelfHealing.RestartIsJustified | runner/src/service.py:1530-1608 | a restart comes at least the timeout after a failed probe, with no success, restart or cleanup in between |
| SelfHealing.RestartsAreApart | runner/src/service.py:1530-1608 | a restart of a workspace comes at least the timeout after its previous successful one |
| SelfHealing.UnbrokenIffNeverSkipped | runner/src/service.py:1553-1580 | between the failed probe that justifies a restart and the restart, every round found the workspace unreachable if and only if no round left it out |
| SelfHealing.PauseCountsAsUnreachable | runner/src/service.py:1562-1580 | a failure, a round that leaves the workspace out, and a failure exactly the timeout after the first: the restart follows at once |
| SelfHealing.HealthCheck.Round | runner/src/service.py:1553-1604 | a round begins with the running workspaces, probes each once, and adds to the trace what each probe leads to, given the timers it started with |
| SelfHealing.HealthCheck.Heal | runner/src/service.py:1580-1608 | a successful restart marks the workspace running if it is still cached and clears its timer; a failed one keeps it |
| Base64.RoundTrip | runner/src/service.py:3362-3366 | decoding an encoding gives the bytes back (section 4 of RFC 4648) |
| ExecFraming.WrapWraps | runner/src/service.py:3269-3271 | the lines the wrapper prints are a wrapping of the payload |
| ExecFraming.FramingRoundTrip | runner/src/service.py:3350-3368 | any bytes on both streams come back, for any exit code, any wrapping and any harmless text in front |
| ExecFraming.ExecRoundTrip | runner/src/service.py:3256-3280 | the frame exactly as the wrapper prints it parses back to the two streams |
| ExecFraming.UnframedIsStdout | runner/src/service.py:3350-3355 | output in which one of the markers does not occur is all stdout |
| CopyName.CandidatesDiffer | backend/apps/runners/api.py:209-218 | numbered candidates differ, however much of the base is cut off |
| CopyName.CandidateReads | backend/apps/runners/api.py:195-218 | a candidate is the trimmed name, or a stand-in for a blank one, cut off no more than its suffix demands, and the suffix |
| CopyName.OrgImageDefinitionCopyName | backend/apps/runners/api.py:189-218 | for every finite set of names the search ends with the first candidate not taken, after at most two tries more than there are names; its length is within 255 if and only if the suffix is |

## Left out

- Django tables, REST, MCP and socket handlers, authentication, secrets, the web app: adapters without hard state.
- Subagent, todo and patch events: nested subagent runs are opaque tool results, and the parts these events create take no part in the properties.
- Races between awaits outside a tool step: handlers are atomic steps; cancellation is modelled at provider requests, desktop actions and within tool steps. That a session has one run at a time is not claimed.
- Image hydration: it is a function from prompt text to content. That it drops the message ids of earlier prompts in the history is not modelled.
- Prompt wording, summary templates, the regular expressions of the overflow and retry classifiers, JSON parsing of arguments, tool schemas: abstract functions, shortened constants or verdicts carried by an error.
- Step limits of agent definitions: no definition in the repository sets one, so the limit is the run's or 100.
- Costs are integers in a smallest unit, so sums do not round.
- UTF-8 decoding with replacement is an arbitrary function that maps no bytes to the empty text.
- Stored ids are canonical strings: that Python's UUID parser also accepts other spellings of the same id is not modelled.
- Delays with server headers: the runner never passes an error to `retry_delay`.
- The streaming exec wrapper, with its line tags, carries no round-trip promise and is not modelled.
- Heartbeat pruning and the stop of a workspace are not modelled; forced releases are a step of their own.
- SessionRuns.RunContext.PersistRunnerEvent: does not model patch, todo and subtask events, nor the titles of started calls, because the parts and titles they leave take no part in the properties.
- SessionRuns.FailedCallsAreAnswered: says nothing about a call that still waits for its permission when the run is aborted; no event has told of it, so nothing of it is stored.
- HarnessRunner.Runner.RunInner: cannot promise that the prompt is held when the prompt, or its form without media, is itself taken for a checkpoint; CompactionTheorems.OverflowReplayCanLosePrompt shows such a prompt.
- RecordingOutput.TruncationKeepsRecording: bounds the length only while lengths have at most 14 digits, because the notice is reserved a fixed number of characters.
- ForgottenHistory.ForgetsNothingIff: speaks of the first compaction of a run, because a later one works on a list that no longer begins with the rebuilt history.
