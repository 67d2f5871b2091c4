/** The health-check loop of the runner: probes, unreachable timers and restarts. */
module SelfHealing {
  import opened Wrappers

  type Workspace = string

  // ---------------------------------------------------------------- traces

  /**
   * What happened to a workspace and when, on a clock that never goes back. A round begins with the
   * workspaces it is going to probe.
   */
  datatype Event =
    | Began(probed: seq<Workspace>, at: int)
    | Reached(ws: Workspace, at: int)
    | Failed(ws: Workspace, at: int)
    | Restarting(ws: Workspace, at: int)
    | Restarted(ws: Workspace, at: int)
    | Forgotten(ws: Workspace, at: int)

  predicate Clears(event: Event, ws: Workspace) {
    (event.Reached? || event.Restarted? || event.Forgotten?) && event.ws == ws
  }

  /** When the current spell of failed probes began. */
  function Since(log: seq<Event>, ws: Workspace): Option<int> {
    if log == [] then None
    else
      var last, before := log[|log| - 1], Since(log[..|log| - 1], ws);
      if Clears(last, ws) then None
      else if last.Failed? && last.ws == ws && before.None? then Some(last.at)
      else before
  }

  lemma {:induction false} SinceOne(log: seq<Event>, event: Event, ws: Workspace)
    ensures Since(log + [event], ws) ==
            if Clears(event, ws) then None
            else if event.Failed? && event.ws == ws && Since(log, ws).None? then Some(event.at)
            else Since(log, ws)
  {
    assert (log + [event])[..|log|] == log;
  }

  /** A failed probe at `i` with nothing since that clears the timer. */
  ghost predicate FailingFrom(log: seq<Event>, ws: Workspace, i: nat) {
    i < |log| && log[i].Failed? && log[i].ws == ws && forall j :: i < j < |log| ==> !Clears(log[j], ws)
  }

  lemma {:induction false} FailingFromOne(log: seq<Event>, event: Event, ws: Workspace, i: nat)
    requires FailingFrom(log, ws, i) && !Clears(event, ws)
    ensures FailingFrom(log + [event], ws, i)
  {
    assert forall j :: i < j < |log| ==> (log + [event])[j] == log[j];
  }

  /** A running timer started with a failed probe and nothing has cleared it. */
  lemma {:induction false} SinceMeans(log: seq<Event>, ws: Workspace) returns (i: nat)
    requires Since(log, ws).Some?
    ensures FailingFrom(log, ws, i) && log[i].at == Since(log, ws).value
  {
    var n := |log| - 1;
    var init, last := log[..n], log[n];
    assert log == init + [last];
    if Since(init, ws).Some? {
      i := SinceMeans(init, ws);
      FailingFromOne(init, last, ws, i);
    } else {
      i := n;
    }
  }

  /** The trace is in time order and ends by `now`. */
  predicate Ordered(log: seq<Event>, now: int) {
    log == [] || (log[|log| - 1].at <= now && Ordered(log[..|log| - 1], log[|log| - 1].at))
  }

  lemma {:induction false} OrderedOne(log: seq<Event>, event: Event)
    requires Ordered(log, event.at)
    ensures Ordered(log + [event], event.at)
  {
    assert (log + [event])[..|log|] == log;
  }

  lemma {:induction false} OrderedAt(log: seq<Event>, now: int, i: nat, j: nat)
    requires Ordered(log, now) && i <= j < |log|
    ensures log[i].at <= log[j].at <= now
  {
    var n := |log| - 1;
    if j < n {
      OrderedAt(log[..n], log[n].at, i, j);
    } else if i < n {
      OrderedAt(log[..n], log[n].at, i, i);
    }
  }

  predicate IsProbe(event: Event) {
    event.Reached? || event.Failed?
  }

  function Members(order: seq<Workspace>): set<Workspace> {
    set ws | ws in order
  }

  /** The workspaces the current round has still to probe. */
  function Pending(log: seq<Event>): set<Workspace> {
    if log == [] then {}
    else
      var last, before := log[|log| - 1], Pending(log[..|log| - 1]);
      if last.Began? then Members(last.probed)
      else if IsProbe(last) then before - {last.ws}
      else before
  }

  lemma {:induction false} PendingOne(log: seq<Event>, event: Event)
    ensures Pending(log + [event]) ==
            if event.Began? then Members(event.probed)
            else if IsProbe(event) then Pending(log) - {event.ws}
            else Pending(log)
  {
    assert (log + [event])[..|log|] == log;
  }

  /**
   * The event may come next: a round begins when the one before is done, each workspace of a round is
   * probed once, and a restart comes right after a failed probe, with the timer running for at least the
   * timeout.
   */
  predicate MayFollow(log: seq<Event>, event: Event, timeout: int) {
    match event
    case Began(_, _) => Pending(log) == {}
    case Reached(ws, _) => ws in Pending(log)
    case Failed(ws, _) => ws in Pending(log)
    case Restarting(ws, at) =>
      && Since(log, ws).Some? && at - Since(log, ws).value >= timeout
      && log != [] && log[|log| - 1].Failed? && log[|log| - 1].ws == ws
    case Restarted(ws, _) => log != [] && log[|log| - 1].Restarting? && log[|log| - 1].ws == ws
    case Forgotten(_, _) => true
  }

  predicate Lawful(log: seq<Event>, timeout: int) {
    log == [] ||
    (Lawful(log[..|log| - 1], timeout) && MayFollow(log[..|log| - 1], log[|log| - 1], timeout))
  }

  lemma {:induction false} LawfulPrefix(log: seq<Event>, timeout: int, n: nat)
    requires Lawful(log, timeout) && n <= |log|
    ensures Lawful(log[..n], timeout)
  {
    if n < |log| {
      LawfulPrefix(log[..|log| - 1], timeout, n);
      assert log[..|log| - 1][..n] == log[..n];
    } else {
      assert log[..n] == log;
    }
  }

  lemma {:induction false} LawfulAt(log: seq<Event>, timeout: int, k: nat)
    requires Lawful(log, timeout) && k < |log|
    ensures MayFollow(log[..k], log[k], timeout)
  {
    hide MayFollow;
    LawfulPrefix(log, timeout, k + 1);
    assert log[..k + 1][..k] == log[..k];
  }

  /** A restart comes at least the timeout after a failed probe, with no success and no restart in between. */
  lemma {:induction false} RestartIsJustified(log: seq<Event>, timeout: int, k: nat) returns (i: nat)
    requires Lawful(log, timeout) && k < |log| && log[k].Restarting?
    ensures i < k && log[i].Failed? && log[i].ws == log[k].ws
    ensures log[i].at <= log[k].at - timeout
    ensures FailingFrom(log[..k], log[k].ws, i) && forall j :: i < j < k ==> !Clears(log[j], log[k].ws)
  {
    hide Lawful;
    LawfulAt(log, timeout, k);
    i := SinceMeans(log[..k], log[k].ws);
    assert forall j :: 0 <= j < k ==> log[..k][j] == log[j];
  }

  /** Between a successful restart of a workspace and the next restart lies at least the timeout. */
  lemma {:induction false} RestartsAreApart(log: seq<Event>, now: int, timeout: int, i: nat, k: nat)
    requires Lawful(log, timeout) && Ordered(log, now) && i < k < |log|
    requires log[i].Restarted? && log[k].Restarting? && log[i].ws == log[k].ws
    ensures log[k].at >= log[i].at + timeout
  {
    var j := RestartIsJustified(log, timeout, k);
    assert Clears(log[i], log[k].ws);
    OrderedAt(log, now, i, j);
  }

  lemma {:induction false} LawfulOne(log: seq<Event>, event: Event, timeout: int)
    requires Lawful(log, timeout) && MayFollow(log, event, timeout)
    ensures Lawful(log + [event], timeout)
  {
    hide MayFollow;
    assert (log + [event])[..|log|] == log;
  }

  // ---------------------------------------------------------------- unbroken probing

  /** A round that leaves the workspace out, as it does while its cached status is not running. */
  predicate Skips(event: Event, ws: Workspace) {
    event.Began? && ws !in event.probed
  }

  /** No round begins between these two positions. */
  predicate SameRound(log: seq<Event>, j: nat, n: nat)
    requires n <= |log|
  {
    forall m :: j < m < n ==> !log[m].Began?
  }

  /** The round that begins at `j` probes the workspace, which fails. */
  ghost predicate FailsIn(log: seq<Event>, ws: Workspace, j: nat) {
    exists m :: j < m < |log| && log[m].Failed? && log[m].ws == ws && SameRound(log, j, m)
  }

  /** Within a round what is pending is among what the round began with. */
  lemma {:induction false} PendingOfRound(log: seq<Event>, j: nat, n: nat)
    requires j < n <= |log| && log[j].Began? && SameRound(log, j, n)
    ensures forall ws :: ws in Pending(log[..n]) ==> ws in log[j].probed
  {
    assert log[..n][..n - 1] == log[..n - 1];
    if j < n - 1 {
      PendingOfRound(log, j, n - 1);
    }
  }

  /** What is no longer pending has been probed. */
  lemma {:induction false} ProbedInRound(log: seq<Event>, ws: Workspace, j: nat, n: nat) returns (m: nat)
    requires j < n <= |log| && log[j].Began? && ws in log[j].probed && SameRound(log, j, n)
    requires ws !in Pending(log[..n])
    ensures j < m < n && IsProbe(log[m]) && log[m].ws == ws
  {
    assert log[..n][..n - 1] == log[..n - 1];
    if ws in Pending(log[..n - 1]) {
      m := n - 1;
    } else {
      m := ProbedInRound(log, ws, j, n - 1);
    }
  }

  /** The next round, or the end of the trace. */
  lemma {:induction false} NextRound(log: seq<Event>, j: nat) returns (n: nat)
    requires j < |log|
    ensures j < n <= |log| && SameRound(log, j, n) && (n < |log| ==> log[n].Began?)
  {
    n := j + 1;
    while n < |log| && !log[n].Began?
      invariant j < n <= |log| && SameRound(log, j, n)
    {
      n := n + 1;
    }
  }

  /**
   * Between the failed probe that justifies a restart and the restart, probing was unbroken, every
   * round finding the workspace unreachable, if and only if no round left the workspace out.
   */
  lemma {:induction false} UnbrokenIffNeverSkipped(log: seq<Event>, timeout: int, k: nat, i: nat)
    requires Lawful(log, timeout) && k < |log| && log[k].Restarting?
    requires FailingFrom(log[..k], log[k].ws, i)
    ensures (forall j :: i < j < k && log[j].Began? ==> FailsIn(log[..k], log[k].ws, j)) <==>
            (forall j :: i < j < k ==> !Skips(log[j], log[k].ws))
  {
    hide Lawful, MayFollow, SameRound;
    var ws, past := log[k].ws, log[..k];
    LastProbeFailed(log, timeout, k);
    LawfulPrefix(log, timeout, k);
    forall j: nat | i < j < k && log[j].Began?
      ensures FailsIn(past, ws, j) <==> ws in log[j].probed
    {
      if ws in log[j].probed {
        ProbedThenFailed(past, timeout, ws, i, j);
      } else if FailsIn(past, ws, j) {
        NotProbedWhenSkipped(past, timeout, ws, j);
      }
    }
  }

  /** A restart comes right after a failed probe. */
  lemma {:induction false} LastProbeFailed(log: seq<Event>, timeout: int, k: nat)
    requires Lawful(log, timeout) && k < |log| && log[k].Restarting?
    ensures k > 0 && log[k - 1].Failed? && log[k - 1].ws == log[k].ws
  {
    hide Lawful;
    LawfulAt(log, timeout, k);
  }

  lemma {:induction false} ProbedThenFailed(log: seq<Event>, timeout: int, ws: Workspace, i: nat, j: nat)
    requires Lawful(log, timeout) && FailingFrom(log, ws, i) && i < j < |log|
    requires log[|log| - 1].Failed? && log[|log| - 1].ws == ws
    requires log[j].Began? && ws in log[j].probed
    ensures FailsIn(log, ws, j)
  {
    hide Lawful, Since;
    var n := NextRound(log, j);
    if n < |log| {
      LawfulAt(log, timeout, n);
      var m := ProbedInRound(log, ws, j, n);
      assert !Clears(log[m], ws) && SameRound(log, j, m);
    } else {
      assert SameRound(log, j, |log| - 1);
    }
  }

  lemma {:induction false} NotProbedWhenSkipped(log: seq<Event>, timeout: int, ws: Workspace, j: nat)
    requires Lawful(log, timeout) && j < |log| && Skips(log[j], ws)
    ensures !FailsIn(log, ws, j)
  {
    hide Lawful, Since;
    if FailsIn(log, ws, j) {
      var m :| j < m < |log| && log[m].Failed? && log[m].ws == ws && SameRound(log, j, m);
      LawfulAt(log, timeout, m);
      PendingOfRound(log, j, m);
      assert false;
    }
  }

  // ---------------------------------------------------------------- the service

  datatype Status = Running | Stopped | Gone

  datatype Info = Info(status: Status, runtimeKnown: bool, instanceId: string)

  /** How a restart ends: the cache as other handlers left it meanwhile, or an exception. */
  datatype Restart = Done(cache: map<Workspace, Info>) | Raises(cache: map<Workspace, Info>)

  /** One probe: its outcome, the two clock readings, the restart if one is tried, and when that ended. */
  datatype Answer = Answer(ws: Workspace, reachable: bool, first: int, second: int, restart: Restart, end: int)

  predicate Timed(answer: Answer, now: int) {
    now <= answer.first <= answer.second <= answer.end
  }

  /** The answers follow one another in time. */
  predicate AllTimed(answers: seq<Answer>, now: int) {
    answers == [] || (Timed(answers[0], now) && AllTimed(answers[1..], answers[0].end))
  }

  /** What a failed probe leads to: a restart once the timer, started by this probe if need be, is old enough. */
  function HealEvents(start: int, info: Info, answer: Answer, timeout: int): seq<Event> {
    if answer.second - start >= timeout && info.runtimeKnown && info.instanceId != "" then
      [Restarting(answer.ws, answer.second)] + if answer.restart.Done? then [Restarted(answer.ws, answer.end)] else []
    else []
  }

  /** What one probe adds to the trace, given the timer it finds. */
  function CheckEvents(since: Option<int>, info: Info, answer: Answer, timeout: int): seq<Event> {
    if answer.reachable then [Reached(answer.ws, answer.first)]
    else
      var start := if since.Some? then since.value else answer.first;
      [Failed(answer.ws, answer.first)] + HealEvents(start, info, answer, timeout)
  }

  /**
   * A failure, a pause in which a round leaves the workspace out, and the first failure after it: the
   * restart follows at once, though the workspace was probed only twice and the timeout has only just
   * been reached.
   */
  lemma {:induction false} PauseCountsAsUnreachable(ws: Workspace, info: Info, timeout: int, restart: Restart)
    requires timeout > 0 && info.runtimeKnown && info.instanceId != "" && restart.Raises?
    ensures var first, second :=
              Answer(ws, false, 0, 0, restart, 0), Answer(ws, false, timeout, timeout, restart, timeout);
      var resumed := PausedLog(ws, timeout);
      && resumed == [Began([ws], 0)] + CheckEvents(None, info, first, timeout)
          + [Began([], timeout), Began([ws], timeout)]
      && Skips(resumed[2], ws)
      && CheckEvents(Since(resumed, ws), info, second, timeout) == [Failed(ws, timeout), Restarting(ws, timeout)]
      && Lawful(resumed + [Failed(ws, timeout), Restarting(ws, timeout)], timeout)
  {
    hide Lawful, Since, Members;
    PausedIsLawful(ws, timeout);
  }

  function PausedLog(ws: Workspace, timeout: int): seq<Event> {
    [Began([ws], 0), Failed(ws, 0), Began([], timeout), Began([ws], timeout)]
  }

  lemma {:induction false} PausedIsLawful(ws: Workspace, timeout: int)
    requires timeout > 0
    ensures Since(PausedLog(ws, timeout), ws) == Some(0)
    ensures Lawful(PausedLog(ws, timeout) + [Failed(ws, timeout), Restarting(ws, timeout)], timeout)
  {
    hide Lawful, Since, Pending;
    NothingLogged(ws, timeout);
    var l1 := [Began([ws], 0)];
    Grows([], Began([ws], 0), timeout, ws);
    assert [] + [Began([ws], 0)] == l1;
    var l2 := l1 + [Failed(ws, 0)];
    Grows(l1, Failed(ws, 0), timeout, ws);
    var l3 := l2 + [Began([], timeout)];
    Grows(l2, Began([], timeout), timeout, ws);
    var l4 := l3 + [Began([ws], timeout)];
    Grows(l3, Began([ws], timeout), timeout, ws);
    assert l4 == PausedLog(ws, timeout);
    var l5 := l4 + [Failed(ws, timeout)];
    Grows(l4, Failed(ws, timeout), timeout, ws);
    Grows(l5, Restarting(ws, timeout), timeout, ws);
    assert l5 + [Restarting(ws, timeout)] == PausedLog(ws, timeout) + [Failed(ws, timeout), Restarting(ws, timeout)];
  }

  lemma {:induction false} NothingLogged(ws: Workspace, timeout: int)
    ensures Lawful([], timeout) && Since([], ws) == None && Pending([]) == {}
  {
  }

  lemma {:induction false} Grows(log: seq<Event>, event: Event, timeout: int, ws: Workspace)
    requires Lawful(log, timeout) && MayFollow(log, event, timeout)
    ensures Lawful(log + [event], timeout)
    ensures Pending(log + [event]) ==
            if event.Began? then Members(event.probed)
            else if IsProbe(event) then Pending(log) - {event.ws}
            else Pending(log)
    ensures Since(log + [event], ws) ==
            if Clears(event, ws) then None
            else if event.Failed? && event.ws == ws && Since(log, ws).None? then Some(event.at)
            else Since(log, ws)
  {
    hide MayFollow;
    LawfulOne(log, event, timeout);
    PendingOne(log, event);
    SinceOne(log, event, ws);
  }

  predicate NoRepeats(order: seq<Workspace>) {
    forall i, j :: 0 <= i < j < |order| ==> order[i] != order[j]
  }

  /** The running workspaces in the order the cache lists them. */
  function RunningOf(order: seq<Workspace>, cache: map<Workspace, Info>): seq<Workspace> {
    if order == [] then []
    else if order[0] in cache && cache[order[0]].status == Running then [order[0]] + RunningOf(order[1..], cache)
    else RunningOf(order[1..], cache)
  }

  lemma {:induction false} RunningOfMembers(order: seq<Workspace>, cache: map<Workspace, Info>)
    requires NoRepeats(order)
    ensures NoRepeats(RunningOf(order, cache))
    ensures forall ws :: ws in RunningOf(order, cache) <==> ws in order && ws in cache && cache[ws].status == Running
  {
    if order != [] {
      assert NoRepeats(order[1..]) && order[0] !in order[1..];
      RunningOfMembers(order[1..], cache);
    }
  }

  function Asked(answers: seq<Answer>): seq<Workspace> {
    seq(|answers|, i requires 0 <= i < |answers| => answers[i].ws)
  }

  /** What a round adds to the trace: each answer against the timer the round started with. */
  function RoundEvents(
      cache: map<Workspace, Info>, timers: map<Workspace, int>, answers: seq<Answer>, timeout: int): seq<Event>
  {
    if answers == [] then []
    else
      var ws := answers[0].ws;
      (if ws in cache
       then CheckEvents(if ws in timers then Some(timers[ws]) else None, cache[ws], answers[0], timeout)
       else []) + RoundEvents(cache, timers, answers[1..], timeout)
  }

  lemma {:induction false} Join(a: seq<Event>, b: seq<Event>, c: seq<Event>)
    ensures a + (b + c) == a + b + c
  {
  }

  lemma {:induction false} RestOfRound(names: seq<Workspace>, i: nat)
    requires NoRepeats(names) && i < |names|
    ensures names[i] in Members(names[i..])
    ensures Members(names[i..]) - {names[i]} == Members(names[i + 1..])
  {
    assert names[i..] == [names[i]] + names[i + 1..];
  }

  lemma {:induction false} BoundsOfRound(names: seq<Workspace>)
    ensures names[0..] == names && Members(names[|names|..]) == {}
  {
  }

  class HealthCheck {
    const timeout: int
    var cache: map<Workspace, Info>
    var unreachableSince: map<Workspace, int>
    ghost var log: seq<Event>
    ghost var now: int

    constructor (timeout: int)
      ensures Valid() && Idle() && log == [] && this.timeout == timeout
    {
      this.timeout := timeout;
      cache, unreachableSince, log, now := map[], map[], [], 0;
    }

    function Timer(ws: Workspace): Option<int>
      reads this
    {
      if ws in unreachableSince then Some(unreachableSince[ws]) else None
    }

    /** No probe is outstanding. */
    ghost predicate Idle()
      reads this
    {
      Pending(log) == {}
    }

    /** The timers are what the trace says, and the trace is lawful and in time order. */
    ghost predicate Valid()
      reads this
    {
      && (forall ws :: Timer(ws) == Since(log, ws))
      && Lawful(log, timeout)
      && Ordered(log, now)
    }

    ghost method Record(event: Event)
      requires Lawful(log, timeout) && Ordered(log, now) && now <= event.at && MayFollow(log, event, timeout)
      requires forall ws :: Timer(ws) ==
                            if Clears(event, ws) then None
                            else if event.Failed? && event.ws == ws && Since(log, ws).None? then Some(event.at)
                            else Since(log, ws)
      modifies this`log, this`now
      ensures Valid() && log == old(log) + [event] && now == event.at
      ensures Pending(log) ==
              if event.Began? then Members(event.probed)
              else if IsProbe(event) then old(Pending(log)) - {event.ws}
              else old(Pending(log))
    {
      LawfulOne(log, event, timeout);
      PendingOne(log, event);
      OrderedOne(log, event);
      forall ws
        ensures Timer(ws) == Since(log + [event], ws)
      {
        SinceOne(log, event, ws);
      }
      log, now := log + [event], event.at;
    }

    /** A failed probe starts the timer unless it is running. */
    method NoteFailure(ws: Workspace, at: int) returns (first: int)
      requires Valid() && now <= at && ws in Pending(log)
      modifies this`unreachableSince, this`log, this`now
      ensures Valid() && now == at && log == old(log) + [Failed(ws, at)] && Pending(log) == old(Pending(log)) - {ws}
      ensures first == if old(Timer(ws)).Some? then old(Timer(ws)).value else at
      ensures Timer(ws) == Some(first) && forall w :: w != ws ==> Timer(w) == old(Timer(w))
    {
      if ws !in unreachableSince {
        unreachableSince := unreachableSince[ws := at];
      }
      Record(Failed(ws, at));
      first := unreachableSince[ws];
    }

    /** The restart of one workspace; a failed one keeps the timer. */
    method Heal(ws: Workspace, restart: Restart, second: int, end: int)
      requires Valid() && Timer(ws).Some? && second - Timer(ws).value >= timeout
      requires now <= second <= end && log != [] && log[|log| - 1].Failed? && log[|log| - 1].ws == ws
      modifies this
      ensures Valid() && now <= end && Pending(log) == old(Pending(log))
      ensures log == old(log) + [Restarting(ws, second)] + if restart.Done? then [Restarted(ws, end)] else []
      ensures unreachableSince == if restart.Done? then old(unreachableSince) - {ws} else old(unreachableSince)
      ensures cache == if restart.Done? && ws in restart.cache
                       then restart.cache[ws := restart.cache[ws].(status := Running)] else restart.cache
    {
      Record(Restarting(ws, second));
      cache := restart.cache;
      if restart.Raises? {
        return;
      }
      if ws in cache {
        cache := cache[ws := cache[ws].(status := Running)];
      }
      unreachableSince := unreachableSince - {ws};
      Record(Restarted(ws, end));
    }

    /** Restarts the workspace when the timer is old enough and there is something to restart. */
    method HealIfDue(info: Info, answer: Answer, first: int)
      requires Valid() && now == answer.first <= answer.second <= answer.end && Timer(answer.ws) == Some(first)
      requires log != [] && log[|log| - 1].Failed? && log[|log| - 1].ws == answer.ws
      modifies this
      ensures Valid() && now <= answer.end && Pending(log) == old(Pending(log))
      ensures log == old(log) + HealEvents(first, info, answer, timeout)
      ensures forall w :: w != answer.ws ==> Timer(w) == old(Timer(w))
    {
      var unreachableFor := answer.second - first;
      if unreachableFor >= timeout {
        if info.runtimeKnown && info.instanceId != "" {
          Heal(answer.ws, answer.restart, answer.second, answer.end);
        }
      }
    }

    /** Probes one workspace of the snapshot. */
    method Check(info: Info, answer: Answer)
      requires Valid() && Timed(answer, now) && answer.ws in Pending(log)
      modifies this
      ensures Valid() && now <= answer.end && Pending(log) == old(Pending(log)) - {answer.ws}
      ensures log == old(log) + CheckEvents(old(Timer(answer.ws)), info, answer, timeout)
      ensures forall w :: w != answer.ws ==> Timer(w) == old(Timer(w))
    {
      if answer.reachable {
        unreachableSince := unreachableSince - {answer.ws};
        Record(Reached(answer.ws, answer.first));
        return;
      }
      var first := NoteFailure(answer.ws, answer.first);
      HealIfDue(info, answer, first);
      Join(old(log), [Failed(answer.ws, answer.first)], HealEvents(first, info, answer, timeout));
    }

    ghost method BeginRound(probed: seq<Workspace>, at: int)
      requires Valid() && Idle() && now <= at
      modifies this`log, this`now
      ensures Valid() && log == old(log) + [Began(probed, at)] && Pending(log) == Members(probed) && now == at
    {
      Record(Began(probed, at));
    }

    /** One round over a snapshot of the running workspaces, in the order the cache lists them. */
    method Round(order: seq<Workspace>, answers: seq<Answer>, at: int)
      requires Valid() && Idle() && now <= at && AllTimed(answers, at)
      requires NoRepeats(order) && forall ws :: ws in order <==> ws in cache
      requires Asked(answers) == RunningOf(order, cache)
      modifies this
      ensures Valid() && Idle()
      ensures log ==
              old(log) + [Began(RunningOf(order, old(cache)), at)] +
              RoundEvents(old(cache), old(unreachableSince), answers, timeout)
      ensures forall w :: w !in Asked(answers) ==> Timer(w) == old(Timer(w))
    {
      hide Lawful, Since, Ordered, Pending, Members, MayFollow, Clears, CheckEvents, RunningOf, NoRepeats;
      var snapshot := cache;
      ghost var timers := unreachableSince;
      ghost var names := Asked(answers);
      RunningOfMembers(order, cache);
      BeginRound(names, at);
      BoundsOfRound(names);
      ghost var begun := log;
      var i := 0;
      while i < |answers|
        invariant 0 <= i <= |answers|
        invariant Valid() && AllTimed(answers[i..], now)
        invariant begun + RoundEvents(snapshot, timers, answers, timeout) ==
                  log + RoundEvents(snapshot, timers, answers[i..], timeout)
        invariant Pending(log) == Members(names[i..])
        invariant forall k :: i <= k < |names| ==> Timer(names[k]) == old(Timer(names[k]))
        invariant forall w :: w !in names ==> Timer(w) == old(Timer(w))
      {
        ghost var before := log;
        var answer := answers[i];
        assert names[i] == answer.ws && answer.ws in names;
        RestOfRound(names, i);
        assert answers[i..][0] == answer && answers[i..][1..] == answers[i + 1..];
        Check(snapshot[answer.ws], answer);
        Join(before, CheckEvents(old(Timer(answer.ws)), snapshot[answer.ws], answer, timeout),
             RoundEvents(snapshot, timers, answers[i + 1..], timeout));
        i := i + 1;
      }
    }

    /** Other handlers start and stop workspaces between the rounds; the timers are left alone. */
    method Store(ws: Workspace, info: Info)
      requires Valid()
      modifies this`cache
      ensures Valid() && cache == old(cache)[ws := info]
    {
      cache := cache[ws := info];
    }

    /** Cleaning up a workspace the backend does not know. */
    method Cleanup(ws: Workspace, at: int)
      requires Valid() && now <= at
      modifies this
      ensures Valid() && Pending(log) == old(Pending(log)) && log == old(log) + [Forgotten(ws, at)]
      ensures cache == old(cache) - {ws} && unreachableSince == old(unreachableSince) - {ws}
    {
      cache := cache - {ws};
      unreachableSince := unreachableSince - {ws};
      Record(Forgotten(ws, at));
    }
  }
}
