/**
 * The order in which the tasks of one step run: tasks start in the order of their calls, and what that
 * leaves of the dependence on the schedule.
 */
module ToolSchedules {
  import opened ToolDispatch

  // ---------------------------------------------------------------- the verdict of a call

  /** The callback is asked about this call unless its key is among these. */
  predicate Asks(sc: Scenario, cached: set<Key>, i: nat)
    requires i < |sc.jobs|
  {
    sc.jobs[i].gate.NeedsApproval? && sc.hasCallback && !sc.autoApprove && sc.jobs[i].key !in cached
  }

  /** The verdict of a call whose task finds these keys approved when it starts. */
  function Expected(sc: Scenario, cached: set<Key>, i: nat): Verdict
    requires i < |sc.jobs|
  {
    var job := sc.jobs[i];
    match job.gate
    case Rejected => Turned
    case Free => Ran(job.execution)
    case NeedsApproval =>
      if job.key in cached || sc.autoApprove then Ran(job.execution)
      else if !sc.hasCallback then Turned
      else
        match job.response
        case Once => Ran(job.execution)
        case Always => Ran(job.execution)
        case CallbackRaised => DispatchFailed
        case _ => Turned
  }

  ghost predicate AsExpected(sc: Scenario, cached: set<Key>, s: State, i: nat)
    requires i < |s.phases| == |sc.jobs|
  {
    && (s.phases[i].Waiting? ==> Asks(sc, cached, i))
    && (s.phases[i].Approved? || s.phases[i].Executing? ==> Expected(sc, cached, i) == Ran(sc.jobs[i].execution))
    && (Done(s.phases[i]) ==> VerdictOf(s.phases[i]) == Expected(sc, cached, i))
  }

  /** A task that has started keeps its verdict, and one that starts takes it from the cache. */
  lemma {:induction false} StepAsExpected(sc: Scenario, cached: set<Key>, s: State, i: nat)
    requires Enabled(sc, s, i) && AsExpected(sc, cached, s, i)
    requires s.phases[i].Ready? ==> (sc.jobs[i].key in s.approved <==> sc.jobs[i].key in cached)
    ensures AsExpected(sc, cached, StepTask(sc, s, i), i)
  {
  }

  // ---------------------------------------------------------------- tasks that start before any answer

  /** No task of the step is still to start. */
  predicate AllStarted(s: State) {
    forall k :: 0 <= k < |s.phases| ==> !s.phases[k].Ready?
  }

  /** Resumes only tasks that have not started yet. */
  predicate OnlyStarts(sc: Scenario, s: State, schedule: seq<nat>): (r: bool)
    ensures r ==> Legal(sc, s, schedule)
    decreases |schedule|
  {
    schedule == [] ||
    (&& Enabled(sc, s, schedule[0]) && s.phases[schedule[0]].Ready?
     && OnlyStarts(sc, StepTask(sc, s, schedule[0]), schedule[1..]))
  }

  ghost predicate AllAsExpected(sc: Scenario, cached: set<Key>, s: State) {
    |s.phases| == |sc.jobs| && forall k :: 0 <= k < |sc.jobs| ==> AsExpected(sc, cached, s, k)
  }

  lemma {:induction false} StartKeepsExpected(sc: Scenario, initial: set<Key>, s: State, schedule: seq<nat>)
    requires OnlyStarts(sc, s, schedule) && AllAsExpected(sc, initial, s) && s.approved == initial
    ensures AllAsExpected(sc, initial, Exec(sc, s, schedule)) && Exec(sc, s, schedule).approved == initial
    decreases |schedule|
  {
    if schedule != [] {
      var t := StepTask(sc, s, schedule[0]);
      StepAsExpected(sc, initial, s, schedule[0]);
      forall k | 0 <= k < |sc.jobs|
        ensures AsExpected(sc, initial, t, k)
      {
        assert AsExpected(sc, initial, s, k);
      }
      StartKeepsExpected(sc, initial, t, schedule[1..]);
    }
  }

  lemma {:induction false} StartedKeepsExpected(sc: Scenario, initial: set<Key>, s: State, schedule: seq<nat>)
    requires Legal(sc, s, schedule) && AllAsExpected(sc, initial, s) && AllStarted(s)
    ensures AllAsExpected(sc, initial, Exec(sc, s, schedule))
    decreases |schedule|
  {
    if schedule != [] {
      var t := StepTask(sc, s, schedule[0]);
      StepAsExpected(sc, initial, s, schedule[0]);
      forall k | 0 <= k < |sc.jobs|
        ensures AsExpected(sc, initial, t, k) && !t.phases[k].Ready?
      {
        assert AsExpected(sc, initial, s, k);
      }
      StartedKeepsExpected(sc, initial, t, schedule[1..]);
    }
  }

  /** The verdicts all calls have on their own. */
  function ExpectedAll(sc: Scenario, initial: set<Key>): seq<Verdict> {
    seq(|sc.jobs|, i requires 0 <= i < |sc.jobs| => Expected(sc, initial, i))
  }

  lemma {:induction false} NothingDone(sc: Scenario, initial: set<Key>)
    ensures AllAsExpected(sc, initial, Start(sc, initial)) && Start(sc, initial).approved == initial
  {
  }

  /**
   * When all tasks start before any of them is resumed, in whatever order, every call gets the verdict
   * it has on its own, however the schedule goes on.
   */
  lemma {:induction false} StartsFirst(sc: Scenario, initial: set<Key>, starts: seq<nat>, rest: seq<nat>)
    requires OnlyStarts(sc, Start(sc, initial), starts)
    requires var s := Exec(sc, Start(sc, initial), starts); AllStarted(s) && Complete(sc, s, rest)
    ensures Complete(sc, Start(sc, initial), starts + rest)
    ensures Verdicts(Exec(sc, Start(sc, initial), starts + rest)) == ExpectedAll(sc, initial)
  {
    hide Legal, OnlyStarts, AllDone, AsExpected, Done, Verdicts;
    ExecAppend(sc, Start(sc, initial), starts, rest);
    NothingDone(sc, initial);
    StartKeepsExpected(sc, initial, Start(sc, initial), starts);
    StartedKeepsExpected(sc, initial, Exec(sc, Start(sc, initial), starts), rest);
    AllDoneAsExpected(sc, initial, Exec(sc, Start(sc, initial), starts + rest));
  }

  lemma {:induction false} AllDoneAsExpected(sc: Scenario, initial: set<Key>, s: State)
    requires AllAsExpected(sc, initial, s) && AllDone(s)
    ensures Verdicts(s) == ExpectedAll(sc, initial)
  {
    forall i | 0 <= i < |sc.jobs|
      ensures VerdictOf(s.phases[i]) == Expected(sc, initial, i)
    {
      assert AsExpected(sc, initial, s, i);
    }
  }

  // ---------------------------------------------------------------- tasks that start in the order of the calls

  /** A callback that does not suspend has been called and its answer is still to be taken. */
  predicate AnswerDue(sc: Scenario, s: State) {
    exists k :: 0 <= k < |s.phases| && k < |sc.jobs| && s.phases[k].Waiting? && sc.jobs[k].atOnce
  }

  /**
   * The tasks of a step are created together and started in the order of their calls. Nothing suspends
   * a task before its callback does. So a task starts behind those before it, and until the last one
   * has started only an answer that comes without suspending is taken, at once.
   */
  predicate Admissible(sc: Scenario, s: State, i: nat) {
    && Enabled(sc, s, i)
    && (s.phases[i].Ready? ==> !AnswerDue(sc, s) && forall k :: 0 <= k < i ==> !s.phases[k].Ready?)
    && (s.phases[i].Waiting? ==> sc.jobs[i].atOnce || AllStarted(s))
  }

  predicate InOrder(sc: Scenario, s: State, schedule: seq<nat>): (r: bool)
    ensures r ==> Legal(sc, s, schedule)
    decreases |schedule|
  {
    schedule == [] ||
    (Admissible(sc, s, schedule[0]) && InOrder(sc, StepTask(sc, s, schedule[0]), schedule[1..]))
  }

  /** If asked, the callback of this call approves its key once. */
  predicate Grants(sc: Scenario, i: nat)
    requires i < |sc.jobs|
  {
    sc.jobs[i].gate.NeedsApproval? && sc.hasCallback && !sc.autoApprove && sc.jobs[i].response.Once?
  }

  /** The keys approved when task `n` starts: the initial ones, and those answered without suspending. */
  function Cached(sc: Scenario, initial: set<Key>, n: nat): set<Key>
    requires n <= |sc.jobs|
  {
    if n == 0 then initial
    else Cached(sc, initial, n - 1) + if Grants(sc, n - 1) && sc.jobs[n - 1].atOnce then {sc.jobs[n - 1].key} else {}
  }

  /** The keys approved when the first `n` tasks are done. */
  function Granting(sc: Scenario, initial: set<Key>, n: nat): set<Key>
    requires n <= |sc.jobs|
  {
    if n == 0 then initial
    else Granting(sc, initial, n - 1) + if Grants(sc, n - 1) then {sc.jobs[n - 1].key} else {}
  }

  /** The first `f` tasks have started; each keeps the verdict that the cache at its start gives it. */
  ghost predicate StartedInOrder(sc: Scenario, initial: set<Key>, s: State, f: nat) {
    && f <= |s.phases| == |sc.jobs|
    && (forall k :: 0 <= k < |sc.jobs| ==> (s.phases[k].Ready? <==> f <= k))
    && (forall k :: 0 <= k < f ==> AsExpected(sc, Cached(sc, initial, k), s, k))
  }

  /** While tasks are still to start, only the task started last may have an answer to come at once. */
  ghost predicate CacheInOrder(sc: Scenario, initial: set<Key>, s: State, f: nat)
    requires f <= |s.phases| == |sc.jobs|
  {
    f < |sc.jobs| ==>
      if AnswerDue(sc, s) then
        && f > 0 && s.phases[f - 1].Waiting? && sc.jobs[f - 1].atOnce
        && s.approved == Cached(sc, initial, f - 1)
        && forall k :: 0 <= k < f - 1 ==> !(s.phases[k].Waiting? && sc.jobs[k].atOnce)
      else
        s.approved == Cached(sc, initial, f)
  }

  /** Of the started tasks, exactly those that grant their key and do not wait have it cached. */
  ghost predicate GrantsInOrder(sc: Scenario, initial: set<Key>, s: State, f: nat)
    requires f <= |s.phases| == |sc.jobs|
  {
    && initial <= s.approved <= Granting(sc, initial, f)
    && forall k :: 0 <= k < f && Grants(sc, k) && !s.phases[k].Waiting? ==> sc.jobs[k].key in s.approved
  }

  ghost predicate OrderKept(sc: Scenario, initial: set<Key>, s: State, f: nat) {
    StartedInOrder(sc, initial, s, f) && CacheInOrder(sc, initial, s, f) && GrantsInOrder(sc, initial, s, f)
  }

  lemma {:induction false} StartsTheNext(sc: Scenario, initial: set<Key>, s: State, f: nat, i: nat)
    requires OrderKept(sc, initial, s, f) && Admissible(sc, s, i) && s.phases[i].Ready?
    ensures i == f < |sc.jobs| && !AnswerDue(sc, s) && s.approved == Cached(sc, initial, f)
    ensures StepTask(sc, s, i).approved == s.approved
  {
    assert f <= i && s.phases[f].Ready?;
  }

  lemma {:induction false} StartKeepsOrder(sc: Scenario, initial: set<Key>, s: State, f: nat, i: nat)
    requires OrderKept(sc, initial, s, f) && Admissible(sc, s, i) && s.phases[i].Ready?
    ensures OrderKept(sc, initial, StepTask(sc, s, i), f + 1)
  {
    var t := StepTask(sc, s, i);
    StartsTheNext(sc, initial, s, f, i);
    StepAsExpected(sc, Cached(sc, initial, i), s, i);
    assert forall k :: 0 <= k < |sc.jobs| && k != i ==> t.phases[k] == s.phases[k];
    assert StartedInOrder(sc, initial, t, f + 1);
    if t.phases[i].Waiting? && sc.jobs[i].atOnce {
      assert AnswerDue(sc, t);
    } else {
      assert !AnswerDue(sc, t);
    }
  }

  lemma {:induction false} AnswerKeepsOrder(sc: Scenario, initial: set<Key>, s: State, f: nat, i: nat)
    requires OrderKept(sc, initial, s, f) && Admissible(sc, s, i) && s.phases[i].Waiting?
    ensures OrderKept(sc, initial, StepTask(sc, s, i), f)
  {
    var t := StepTask(sc, s, i);
    assert i < f && AsExpected(sc, Cached(sc, initial, i), s, i);
    StepAsExpected(sc, Cached(sc, initial, i), s, i);
    GrantsStay(sc, initial, i, f);
    assert forall k :: 0 <= k < |sc.jobs| && k != i ==> t.phases[k] == s.phases[k];
    if f < |sc.jobs| {
      assert s.phases[f].Ready?;
      assert sc.jobs[i].atOnce && AnswerDue(sc, s);
      assert i == f - 1;
      assert !AnswerDue(sc, t);
    }
  }

  lemma {:induction false} RunKeepsOrder(sc: Scenario, initial: set<Key>, s: State, f: nat, i: nat)
    requires OrderKept(sc, initial, s, f) && Admissible(sc, s, i) && !s.phases[i].Ready? && !s.phases[i].Waiting?
    ensures OrderKept(sc, initial, StepTask(sc, s, i), f)
  {
    var t := StepTask(sc, s, i);
    StepAsExpected(sc, Cached(sc, initial, i), s, i);
    assert forall k :: 0 <= k < |sc.jobs| && k != i ==> t.phases[k] == s.phases[k];
    assert t.approved == s.approved && !t.phases[i].Waiting?;
    assert AnswerDue(sc, t) == AnswerDue(sc, s);
  }

  lemma {:induction false} GrantsStay(sc: Scenario, initial: set<Key>, i: nat, n: nat)
    requires i < n <= |sc.jobs|
    ensures Grants(sc, i) ==> sc.jobs[i].key in Granting(sc, initial, n)
  {
    if i < n - 1 {
      GrantsStay(sc, initial, i, n - 1);
    }
  }

  lemma {:induction false} InOrderKeepsOrder(sc: Scenario, initial: set<Key>, s: State, f: nat, schedule: seq<nat>)
    returns (f': nat)
    requires OrderKept(sc, initial, s, f) && InOrder(sc, s, schedule)
    ensures OrderKept(sc, initial, Exec(sc, s, schedule), f')
    decreases |schedule|
  {
    f' := f;
    if schedule != [] {
      var i := schedule[0];
      if s.phases[i].Ready? {
        StartKeepsOrder(sc, initial, s, f, i);
        f' := f + 1;
      } else if s.phases[i].Waiting? {
        AnswerKeepsOrder(sc, initial, s, f, i);
      } else {
        RunKeepsOrder(sc, initial, s, f, i);
      }
      f' := InOrderKeepsOrder(sc, initial, StepTask(sc, s, i), f', schedule[1..]);
    }
  }

  lemma {:induction false} StartsInOrder(sc: Scenario, initial: set<Key>)
    ensures OrderKept(sc, initial, Start(sc, initial), 0)
  {
  }

  lemma {:induction false} GrantingIsCached(sc: Scenario, initial: set<Key>, s: State, n: nat)
    requires n <= |sc.jobs| == |s.phases| && initial <= s.approved
    requires forall k :: 0 <= k < n && Grants(sc, k) ==> sc.jobs[k].key in s.approved
    ensures Granting(sc, initial, n) <= s.approved
  {
    if n > 0 {
      GrantingIsCached(sc, initial, s, n - 1);
    }
  }

  /** The verdict of each call, given the calls before it that are answered without suspending. */
  function VerdictsInOrder(sc: Scenario, initial: set<Key>): seq<Verdict> {
    seq(|sc.jobs|, i requires 0 <= i < |sc.jobs| => Expected(sc, Cached(sc, initial, i), i))
  }

  lemma {:induction false} AllStartedAtEnd(sc: Scenario, initial: set<Key>, s: State, f: nat)
    requires StartedInOrder(sc, initial, s, f) && AllDone(s)
    ensures f == |sc.jobs|
  {
    assert |sc.jobs| > 0 ==> Done(s.phases[|sc.jobs| - 1]);
  }

  lemma {:induction false} VerdictAtEnd(sc: Scenario, initial: set<Key>, s: State, i: nat)
    requires StartedInOrder(sc, initial, s, |sc.jobs|) && AllDone(s) && i < |sc.jobs|
    ensures VerdictOf(s.phases[i]) == Expected(sc, Cached(sc, initial, i), i)
  {
    assert AsExpected(sc, Cached(sc, initial, i), s, i) && Done(s.phases[i]);
  }

  lemma {:induction false} GrantsAtEnd(sc: Scenario, initial: set<Key>, s: State)
    requires |s.phases| == |sc.jobs| && GrantsInOrder(sc, initial, s, |sc.jobs|) && AllDone(s)
    ensures s.approved == Granting(sc, initial, |sc.jobs|)
  {
    forall k | 0 <= k < |sc.jobs|
      ensures !s.phases[k].Waiting?
    {
      assert Done(s.phases[k]);
    }
    GrantingIsCached(sc, initial, s, |sc.jobs|);
  }

  lemma {:induction false} EndsInOrder(sc: Scenario, initial: set<Key>, s: State, f: nat)
    requires OrderKept(sc, initial, s, f) && AllDone(s)
    ensures Verdicts(s) == VerdictsInOrder(sc, initial) && s.approved == Granting(sc, initial, |sc.jobs|)
  {
    hide AsExpected, GrantsInOrder, CacheInOrder, AllDone, Expected, VerdictOf;
    AllStartedAtEnd(sc, initial, s, f);
    GrantsAtEnd(sc, initial, s);
    forall i | 0 <= i < |sc.jobs|
      ensures VerdictOf(s.phases[i]) == Expected(sc, Cached(sc, initial, i), i)
    {
      VerdictAtEnd(sc, initial, s, i);
    }
  }

  /**
   * Tasks that start in the order of their calls end with verdicts and approvals that do not depend on
   * the rest of the schedule, clash or no clash.
   */
  lemma {:induction false} OutcomesAreDetermined(sc: Scenario, initial: set<Key>, schedule: seq<nat>)
    requires InOrder(sc, Start(sc, initial), schedule) && AllDone(Exec(sc, Start(sc, initial), schedule))
    ensures var s := Exec(sc, Start(sc, initial), schedule);
      Verdicts(s) == VerdictsInOrder(sc, initial) && s.approved == Granting(sc, initial, |sc.jobs|)
  {
    hide OrderKept, InOrder, AllDone, Verdicts;
    StartsInOrder(sc, initial);
    var f := InOrderKeepsOrder(sc, initial, Start(sc, initial), 0, schedule);
    EndsInOrder(sc, initial, Exec(sc, Start(sc, initial), schedule), f);
  }

  // ---------------------------------------------------------------- when an earlier answer matters

  /** Two calls of the step ask about the same key; `j` is approved once, `i` is not approved. */
  predicate Clash(sc: Scenario, initial: set<Key>, i: nat, j: nat)
    requires i < |sc.jobs| && j < |sc.jobs|
  {
    && Asks(sc, initial, i) && Asks(sc, initial, j)
    && sc.jobs[i].key == sc.jobs[j].key
    && sc.jobs[j].response.Once?
    && !sc.jobs[i].response.Once? && !sc.jobs[i].response.Always?
  }

  lemma {:induction false} CachedMeans(sc: Scenario, initial: set<Key>, n: nat, key: Key)
    requires n <= |sc.jobs|
    ensures key in Cached(sc, initial, n) <==>
              key in initial || exists j :: 0 <= j < n && Grants(sc, j) && sc.jobs[j].atOnce && sc.jobs[j].key == key
  {
    if n > 0 {
      CachedMeans(sc, initial, n - 1, key);
    }
  }

  lemma {:induction false} CachedClashes(sc: Scenario, initial: set<Key>, i: nat)
    requires i < |sc.jobs|
    ensures Expected(sc, Cached(sc, initial, i), i) != Expected(sc, initial, i) <==>
              exists j :: 0 <= j < i && Clash(sc, initial, i, j) && sc.jobs[j].atOnce
  {
    var key := sc.jobs[i].key;
    CachedMeans(sc, initial, i, key);
    if Expected(sc, Cached(sc, initial, i), i) != Expected(sc, initial, i) {
      var j :| 0 <= j < i && Grants(sc, j) && sc.jobs[j].atOnce && sc.jobs[j].key == key;
      assert Clash(sc, initial, i, j);
    }
  }

  /**
   * A call ends otherwise than on its own exactly when an earlier call of the step clashes with it
   * whose callback answers without suspending.
   */
  lemma {:induction false} OrderMattersIff(sc: Scenario, initial: set<Key>, schedule: seq<nat>, i: nat)
    requires InOrder(sc, Start(sc, initial), schedule) && AllDone(Exec(sc, Start(sc, initial), schedule))
    requires i < |sc.jobs|
    ensures var verdicts := Verdicts(Exec(sc, Start(sc, initial), schedule));
      && |verdicts| == |sc.jobs|
      && (verdicts[i] != Expected(sc, initial, i) <==>
            exists j :: 0 <= j < i && Clash(sc, initial, i, j) && sc.jobs[j].atOnce)
  {
    hide InOrder, Exec, AllDone, Clash, Expected;
    OutcomesAreDetermined(sc, initial, schedule);
    CachedClashes(sc, initial, i);
  }

  // ---------------------------------------------------------------- an arbitrary scheduler

  // A scheduler that may hold back the first step of a task, as the event loop of the service does not.

  ghost predicate Racy(sc: Scenario, initial: set<Key>) {
    exists i, j :: 0 <= i < |sc.jobs| && 0 <= j < |sc.jobs| && Clash(sc, initial, i, j)
  }

  /** Every key cached in this step belongs to a call that was asked about and approved once. */
  ghost predicate CacheExplained(sc: Scenario, initial: set<Key>, s: State) {
    forall key :: key in s.approved && key !in initial ==>
      exists j :: 0 <= j < |sc.jobs| && Asks(sc, initial, j) && sc.jobs[j].key == key && sc.jobs[j].response.Once?
  }

  lemma {:induction false} ArbitraryStepAsExpected(sc: Scenario, initial: set<Key>, s: State, i: nat)
    requires !Racy(sc, initial) && Enabled(sc, s, i)
    requires initial <= s.approved && CacheExplained(sc, initial, s)
    requires AsExpected(sc, initial, s, i)
    ensures AsExpected(sc, initial, StepTask(sc, s, i), i)
    ensures CacheExplained(sc, initial, StepTask(sc, s, i))
  {
    var job := sc.jobs[i];
    if job.gate.NeedsApproval? && job.key in s.approved && job.key !in initial {
      var j :| 0 <= j < |sc.jobs| && Asks(sc, initial, j) && sc.jobs[j].key == job.key && sc.jobs[j].response.Once?;
      assert !Clash(sc, initial, i, j);
    }
  }

  lemma {:induction false} ArbitraryExecAsExpected(sc: Scenario, initial: set<Key>, s: State, schedule: seq<nat>)
    requires !Racy(sc, initial) && Legal(sc, s, schedule) && AllAsExpected(sc, initial, s)
    requires initial <= s.approved && CacheExplained(sc, initial, s)
    ensures AllAsExpected(sc, initial, Exec(sc, s, schedule))
    decreases |schedule|
  {
    if schedule != [] {
      var i := schedule[0];
      var t := StepTask(sc, s, i);
      ArbitraryStepAsExpected(sc, initial, s, i);
      forall k | 0 <= k < |sc.jobs|
        ensures AsExpected(sc, initial, t, k)
      {
        assert AsExpected(sc, initial, s, k);
      }
      ArbitraryExecAsExpected(sc, initial, t, schedule[1..]);
    }
  }

  /** Without a clash every schedule gives every call the verdict it has on its own. */
  lemma {:induction false} ArbitraryScheduleIrrelevant(sc: Scenario, initial: set<Key>, schedule: seq<nat>)
    requires !Racy(sc, initial) && Complete(sc, Start(sc, initial), schedule)
    ensures Verdicts(Exec(sc, Start(sc, initial), schedule)) == ExpectedAll(sc, initial)
  {
    ArbitraryExecAsExpected(sc, initial, Start(sc, initial), schedule);
    AllDoneAsExpected(sc, initial, Exec(sc, Start(sc, initial), schedule));
  }

  predicate Settled(phase: Phase, ran: bool) {
    if ran then phase.Approved? || HasStarted(phase) else Done(phase) && !HasStarted(phase)
  }

  lemma {:induction false} SettledStays(sc: Scenario, s: State, schedule: seq<nat>, i: nat, ran: bool)
    requires |s.phases| == |sc.jobs| && Legal(sc, s, schedule)
    requires i < |s.phases| && Settled(s.phases[i], ran)
    ensures |Exec(sc, s, schedule).phases| == |sc.jobs| && Settled(Exec(sc, s, schedule).phases[i], ran)
    decreases |schedule|
  {
    if schedule != [] {
      SettledStays(sc, StepTask(sc, s, schedule[0]), schedule[1..], i, ran);
    }
  }

  /** A legal beginning that settles call `i` extends to a complete schedule that keeps the verdict. */
  lemma {:induction false} Extend(sc: Scenario, s: State, start: seq<nat>, i: nat, ran: bool)
    returns (schedule: seq<nat>)
    requires |s.phases| == |sc.jobs| && i < |sc.jobs| && Legal(sc, s, start)
    requires |Exec(sc, s, start).phases| == |sc.jobs| && Settled(Exec(sc, s, start).phases[i], ran)
    ensures Complete(sc, s, schedule)
    ensures |Exec(sc, s, schedule).phases| == |sc.jobs|
    ensures VerdictOf(Exec(sc, s, schedule).phases[i]).Ran? == ran
  {
    var middle := Exec(sc, s, start);
    var rest := CanComplete(sc, middle);
    ExecAppend(sc, s, start, rest);
    SettledStays(sc, middle, rest, i, ran);
    schedule := start + rest;
  }

  lemma {:induction false} OneStep(sc: Scenario, s: State, i: nat)
    requires Enabled(sc, s, i)
    ensures Legal(sc, s, [i]) && Exec(sc, s, [i]) == StepTask(sc, s, i)
  {
    assert [i][1..] == [];
  }

  lemma {:induction false} TwoSteps(sc: Scenario, s: State, i: nat, j: nat)
    requires Enabled(sc, s, i) && Enabled(sc, StepTask(sc, s, i), j)
    ensures Legal(sc, s, [i, j]) && Exec(sc, s, [i, j]) == StepTask(sc, StepTask(sc, s, i), j)
  {
    assert [i, j][1..] == [j];
    OneStep(sc, StepTask(sc, s, i), j);
  }

  /** With a clash two schedules of the same step disagree on a verdict. */
  lemma {:induction false} ArbitraryClashMatters(sc: Scenario, initial: set<Key>, i: nat, j: nat)
    returns (a: seq<nat>, b: seq<nat>)
    requires i < |sc.jobs| && j < |sc.jobs| && Clash(sc, initial, i, j)
    ensures Complete(sc, Start(sc, initial), a) && Complete(sc, Start(sc, initial), b)
    ensures Verdicts(Exec(sc, Start(sc, initial), a)) != Verdicts(Exec(sc, Start(sc, initial), b))
  {
    var s := Start(sc, initial);
    var alone, after := [i, i], [j, j, i];
    TwoSteps(sc, s, i, i);
    assert Settled(Exec(sc, s, alone).phases[i], false);
    TwoSteps(sc, s, j, j);
    var t := Exec(sc, s, [j, j]);
    assert sc.jobs[i].key in t.approved && t.phases[i].Ready?;
    OneStep(sc, t, i);
    assert Settled(Exec(sc, t, [i]).phases[i], true);
    ExecAppend(sc, s, [j, j], [i]);
    assert [j, j] + [i] == after;
    a := Extend(sc, s, alone, i, false);
    b := Extend(sc, s, after, i, true);
    var va, vb := Verdicts(Exec(sc, s, a)), Verdicts(Exec(sc, s, b));
    assert va[i].Ran? != vb[i].Ran?;
  }

  ghost predicate Disagree(sc: Scenario, initial: set<Key>, a: seq<nat>, b: seq<nat>) {
    && Complete(sc, Start(sc, initial), a) && Complete(sc, Start(sc, initial), b)
    && Verdicts(Exec(sc, Start(sc, initial), a)) != Verdicts(Exec(sc, Start(sc, initial), b))
  }

  /** Under an arbitrary scheduler the outcomes depend on the schedule exactly when two of its calls clash. */
  lemma {:induction false} ArbitraryScheduleMattersIffRacy(sc: Scenario, initial: set<Key>)
    ensures (exists a, b :: Disagree(sc, initial, a, b)) <==> Racy(sc, initial)
  {
    if Racy(sc, initial) {
      var i, j :| 0 <= i < |sc.jobs| && 0 <= j < |sc.jobs| && Clash(sc, initial, i, j);
      var a, b := ArbitraryClashMatters(sc, initial, i, j);
      assert Disagree(sc, initial, a, b);
    } else if exists a, b :: Disagree(sc, initial, a, b) {
      var a, b :| Disagree(sc, initial, a, b);
      ArbitraryScheduleIrrelevant(sc, initial, a);
      ArbitraryScheduleIrrelevant(sc, initial, b);
    }
  }

  // ---------------------------------------------------------------- running the tasks

  /** A step that is not done can go on in order. */
  lemma {:induction false} CanGoOn(sc: Scenario, s: State)
    requires |s.phases| == |sc.jobs| && !AllDone(s)
    ensures exists i :: 0 <= i < |s.phases| && Admissible(sc, s, i)
  {
    if AnswerDue(sc, s) {
      var k :| 0 <= k < |s.phases| && k < |sc.jobs| && s.phases[k].Waiting? && sc.jobs[k].atOnce;
      assert Admissible(sc, s, k);
    } else if AllStarted(s) {
      var k :| 0 <= k < |s.phases| && !Done(s.phases[k]);
      assert Admissible(sc, s, k);
    } else {
      var k := FirstReady(s.phases);
      assert Admissible(sc, s, k);
    }
  }

  lemma {:induction false} FirstReady(phases: seq<Phase>) returns (k: nat)
    requires exists j :: 0 <= j < |phases| && phases[j].Ready?
    ensures k < |phases| && phases[k].Ready? && forall j :: 0 <= j < k ==> !phases[j].Ready?
  {
    if phases[0].Ready? {
      return 0;
    }
    var j :| 0 <= j < |phases| && phases[j].Ready?;
    assert phases[1..][j - 1].Ready?;
    k := FirstReady(phases[1..]);
    k := k + 1;
  }

  lemma {:induction false} InOrderAppend(sc: Scenario, s: State, a: seq<nat>, i: nat)
    requires InOrder(sc, s, a) && Admissible(sc, Exec(sc, s, a), i)
    ensures InOrder(sc, s, a + [i]) && Exec(sc, s, a + [i]) == StepTask(sc, Exec(sc, s, a), i)
    decreases |a|
  {
    if a == [] {
      assert a + [i] == [i] && [i][1..] == [];
    } else {
      assert (a + [i])[1..] == a[1..] + [i];
      InOrderAppend(sc, StepTask(sc, s, a[0]), a[1..], i);
    }
  }

  /**
   * Runs all tasks, resuming at each turn any task that may be resumed, until all are done; if the run is
   * to be `cut`, some time before that.
   */
  method RunTasks(sc: Scenario, approved: set<Key>, cut: bool)
    returns (s: State, cancelled: bool, ghost schedule: seq<nat>)
    ensures InOrder(sc, Start(sc, approved), schedule)
    ensures s == Exec(sc, Start(sc, approved), schedule)
    ensures |s.phases| == |sc.jobs|
    ensures cancelled == (cut && sc.jobs != [])
    ensures !cancelled ==> AllDone(s)
  {
    s := Start(sc, approved);
    cancelled := false;
    schedule := [];
    while !AllDone(s)
      invariant |s.phases| == |sc.jobs|
      invariant InOrder(sc, Start(sc, approved), schedule)
      invariant s == Exec(sc, Start(sc, approved), schedule)
      invariant cut && sc.jobs != [] ==> !AllDone(s)
      decreases Remaining(s.phases)
    {
      if cut {
        if * {
          return s, true, schedule;
        }
      }
      CanGoOn(sc, s);
      var i :| 0 <= i < |s.phases| && Admissible(sc, s, i);
      if cut && AllDone(StepTask(sc, s, i)) {
        return s, true, schedule;
      }
      StepDecreases(sc, s, i);
      InOrderAppend(sc, Start(sc, approved), schedule, i);
      schedule := schedule + [i];
      s := StepTask(sc, s, i);
    }
  }
}
