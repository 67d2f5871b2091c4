/** Which tools a run starts, and by whose permission. */
module RunPermissions {
  import opened ToolDispatch
  import opened ToolSchedules
  import opened RunLog
  import opened RunTools
  import opened RunTrace

  predicate IsRunAt(su: Setup, turns: seq<Turn>, k: nat)
    requires k < |turns|
  {
    IsRun(su.env, su.agent, su.opts, CallsAt(turns, k), ApprovedAfter(su, turns[..k]), turns[k].tools)
  }

  function ScenarioAt(su: Setup, turns: seq<Turn>, k: nat): Scenario
    requires k < |turns| && IsRunAt(su, turns, k)
  {
    ScenarioOf(su.env, su.agent, su.opts, CallsAt(turns, k), turns[k].tools.flags, turns[k].tools.moment)
  }

  function EndAt(su: Setup, turns: seq<Turn>, k: nat): State
    requires k < |turns| && IsRunAt(su, turns, k)
  {
    EndOfRun(su.env, su.agent, su.opts, CallsAt(turns, k), ApprovedAfter(su, turns[..k]), turns[k].tools)
  }

  /** In the turn at `k` a callback was asked about this key, and answered that it is approved once. */
  ghost predicate GrantedAt(su: Setup, turns: seq<Turn>, k: nat, key: Key)
    requires k < |turns|
  {
    IsRunAt(su, turns, k) && Granted(ScenarioAt(su, turns, k), EndAt(su, turns, k), key)
  }

  lemma {:induction false} GrantStays(su: Setup, turns: seq<Turn>, n: nat, k: nat, key: Key)
    requires k < n <= |turns|
    ensures GrantedAt(su, turns[..n], k, key) == GrantedAt(su, turns, k, key)
  {
    assert turns[..n][..k] == turns[..k] && turns[..n][k] == turns[k];
  }

  /** Every key in the cache was approved by a callback that was asked in some turn of this run. */
  lemma {:induction false} ApprovalsOfTheRun(su: Setup, turns: seq<Turn>, key: Key)
    requires key in ApprovedAfter(su, turns)
    ensures exists k :: 0 <= k < |turns| && GrantedAt(su, turns, k, key)
  {
    hide Granted, Exec, Legal, InOrder, ScenarioOf, OutputAt;
    var n := |turns| - 1;
    var approved := ApprovedAfter(su, turns[..n]);
    if key in approved {
      ApprovalsOfTheRun(su, turns[..n], key);
      var k :| 0 <= k < n && GrantedAt(su, turns[..n], k, key);
      GrantStays(su, turns, n, k, key);
    } else {
      ApprovalsAreGranted(ScenarioAt(su, turns, n), approved, turns[n].tools.schedule, key);
      assert GrantedAt(su, turns, n, key);
    }
  }

  /**
   * Call `i` of the turn at `k` was not rejected, and either needed no question, or its own callback was
   * asked and approved it for good, or a callback of this run was asked about the same key, no later
   * than in this turn, and approved it once.
   */
  ghost predicate PermittedAt(su: Setup, turns: seq<Turn>, k: nat, i: nat)
    requires k < |turns| && IsRunAt(su, turns, k) && i < |CallsAt(turns, k)|
  {
    var job := ScenarioAt(su, turns, k).jobs[i];
    && !job.gate.Rejected?
    && (|| job.gate.Free?
        || su.opts.autoApprove
        || Told(i, Always) in EndAt(su, turns, k).asks
        || exists j :: 0 <= j <= k && GrantedAt(su, turns, j, job.key))
  }

  /** Whatever the schedules, a tool that was started in a turn of a run was permitted. */
  lemma {:induction false} RunStartsOnlyPermittedTools(su: Setup, turns: seq<Turn>, k: nat, i: nat)
    requires k < |turns| && IsRunAt(su, turns, k) && i in EndAt(su, turns, k).executed
    ensures i < |CallsAt(turns, k)| && PermittedAt(su, turns, k, i)
    ensures forall ask :: ask in EndAt(su, turns, k).asks ==> AskOk(ScenarioAt(su, turns, k), EndAt(su, turns, k), ask)
  {
    hide Exec, Legal, InOrder, OutputAt, ApprovedAfter, Granted, AskOk, JobOf;
    var sc, s, approved := ScenarioAt(su, turns, k), EndAt(su, turns, k), ApprovedAfter(su, turns[..k]);
    OnlyPermittedToolsRun(sc, approved, turns[k].tools.schedule, i);
    var key := sc.jobs[i].key;
    if key in approved {
      ApprovalsOfTheRun(su, turns[..k], key);
      var j :| 0 <= j < k && GrantedAt(su, turns[..k], j, key);
      GrantStays(su, turns, k, j, key);
    } else if key in s.approved {
      ApprovalsAreGranted(sc, approved, turns[k].tools.schedule, key);
      assert GrantedAt(su, turns, k, key);
    }
  }

  /** The event announces that call `i` of the turn at `k` was started, and it was. */
  predicate StartedAt(su: Setup, turns: seq<Turn>, k: nat, i: nat, e: Event)
    requires k < |turns| && IsRunAt(su, turns, k)
  {
    && i < |CallsAt(turns, k)| && i in EndAt(su, turns, k).executed
    && e == ToolCallEvent(k + 1, StartEvent(CallsAt(turns, k)[i]))
  }

  lemma {:induction false} CallOfStart(su: Setup, turns: seq<Turn>, k: nat, e: Event) returns (i: nat)
    requires k < |turns| && e in StartsOfTurn(su, turns[..k], turns[k])
    ensures IsRunAt(su, turns, k) && StartedAt(su, turns, k, i, e)
  {
    hide Exec, Legal, InOrder, OutputAt, ApprovedAfter, StartsIn;
    assert IsRunAt(su, turns, k);
    var sc, s := ScenarioAt(su, turns, k), EndAt(su, turns, k);
    StartsAreAnnounced(sc, ApprovedAfter(su, turns[..k]), turns[k].tools.schedule);
    var n :| 0 <= n < |s.executed| && e == ToolCallEvent(k + 1, StartsIn(s.events)[n]);
    i := s.executed[n];
  }

  lemma {:induction false} TurnOfStart(su: Setup, turns: seq<Turn>, e: Event) returns (k: nat, i: nat)
    requires e in AllStarts(su, turns)
    ensures k < |turns| && IsRunAt(su, turns, k) && StartedAt(su, turns, k, i, e)
  {
    hide Exec, Legal, InOrder, OutputAt, ApprovedAfter, ScenarioOf, StartsIn;
    k := |turns| - 1;
    var init := turns[..k];
    if e in AllStarts(su, init) {
      k, i := TurnOfStart(su, init, e);
      assert turns[..|turns| - 1][..k] == turns[..k];
    } else {
      i := CallOfStart(su, turns, k, e);
    }
  }

  /**
   * Every tool start that the events of a run announce is that of a call of one of its turns, which was
   * permitted.
   */
  lemma {:induction false} EveryStartIsPermitted(su: Setup, turns: seq<Turn>, events: seq<Event>, e: Event)
    returns (k: nat, i: nat)
    requires Starts(events) == AllStarts(su, turns) && e in events && IsStart(e)
    ensures k < |turns| && IsRunAt(su, turns, k) && StartedAt(su, turns, k, i, e) && PermittedAt(su, turns, k, i)
  {
    hide IsRunAt, StartedAt, PermittedAt, AllStarts, Starts;
    StartsAreAll(events, e);
    k, i := TurnOfStart(su, turns, e);
    PermittedWhenStarted(su, turns, k, i, e);
  }

  lemma {:induction false} PermittedWhenStarted(su: Setup, turns: seq<Turn>, k: nat, i: nat, e: Event)
    requires k < |turns| && IsRunAt(su, turns, k) && StartedAt(su, turns, k, i, e)
    ensures i < |CallsAt(turns, k)| && PermittedAt(su, turns, k, i)
  {
    hide IsRunAt, EndAt, PermittedAt;
    RunStartsOnlyPermittedTools(su, turns, k, i);
  }
}
