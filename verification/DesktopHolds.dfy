/** A computer-use run's hold as the desktop service sees it: what is left of it when the run is over. */
module DesktopHolds {
  import opened RunIds
  import opened DesktopLeases
  import Loop = ComputerUse

  type Action = Loop.DesktopAction

  type Responses = nat -> Loop.Response

  /** What an action that takes effect does to the leases of the run's workspace. */
  function Served(leases: Leases, action: Action): Leases {
    match action
    case Hold(id) => leases.Add(ComputerUse(id))
    case Release(id) => leases.Remove(ComputerUse(id))
    case _ => leases
  }

  /** What the service makes of a hold or a release that reaches it. */
  method Serve(service: DesktopService, ws: Workspace, action: Action, outside: Outside) returns (landed: bool)
    requires service.Valid() && (action.Hold? || action.Release?) && AcceptedRunId(action.runId)
    modifies service, if ws in service.sessions then {service.sessions[ws]} else {}
    ensures service.Valid() && service.OthersKept(ws)
    ensures landed <==> action.Release? || Ensures(ws in old(service.sessions), outside)
    ensures landed ==> service.Held(ws) == Served(old(service.Held(ws)), action)
    ensures !landed ==>
              service.Held(ws) == if Loses(ws in old(service.sessions), outside) then NOBODY else old(service.Held(ws))
  {
    hide HeldAfter, Orderly, Emptied, WithoutRecordingsOf, AcceptedRunId, NormalKind, ValidKind, DesktopService.Valid;
    hide DesktopService.OthersKept;
    AcceptedCanHold(action.runId);
    LowerCaseIsNormal(COMPUTER_USE_KIND);
    match action {
      case Hold(id) =>
        var acquired := service.AcquireDesktop(ws, COMPUTER_USE_KIND, id, outside);
        landed := acquired.Success?;
      case Release(id) =>
        var released := service.ReleaseDesktop(ws, COMPUTER_USE_KIND, id);
        landed := true;
    }
  }

  /** The leases of a workspace after what others did. */
  function Changed(leases: Leases, changes: seq<Change>, ws: Workspace): Leases {
    if changes == [] then leases
    else After(Changed(leases, changes[..|changes| - 1], ws), changes[|changes| - 1], ws)
  }

  /**
   * The leases of a workspace after some actions, the first being the `n`-th. Action `k` takes effect or
   * not, as `landed(k)` says; `between(k)` is what others do since the action before it.
   */
  function LeasesAfter(
    leases: Leases, actions: seq<Action>, n: nat, landed: nat -> bool, between: nat -> seq<Change>, ws: Workspace)
    : Leases
  {
    var len := |actions|;
    if len == 0 then Changed(leases, between(n), ws)
    else
      var before := LeasesAfter(leases, actions[..len - 1], n, landed, between, ws);
      Changed(if landed(n + len - 1) then Served(before, actions[len - 1]) else before, between(n + len), ws)
  }

  /** Others take the lease back. */
  predicate TakenIn(changes: seq<Change>, ws: Workspace, id: string) {
    exists change :: change in changes && Takes(change, ws, ComputerUse(id))
  }

  /** Nobody else takes a lease under this id. */
  predicate OursAlone(changes: seq<Change>, ws: Workspace, id: string) {
    Acquired(ws, ComputerUse(id)) !in changes
  }

  lemma {:induction false} KeptUnlessTaken(leases: Leases, changes: seq<Change>, ws: Workspace, id: string)
    requires OursAlone(changes, ws, id)
    ensures Changed(leases, changes, ws).Has(ComputerUse(id)) <==>
            leases.Has(ComputerUse(id)) && !TakenIn(changes, ws, id)
  {
    if changes != [] {
      var init, last := changes[..|changes| - 1], changes[|changes| - 1];
      assert changes == init + [last];
      KeptUnlessTaken(leases, init, ws, id);
      if Takes(last, ws, ComputerUse(id)) {
        assert last in changes;
      }
    }
  }

  predicate TakenAfterHold(between: nat -> seq<Change>, n: nat, len: nat, ws: Workspace, id: string) {
    exists k :: n < k <= n + len && TakenIn(between(k), ws, id)
  }

  predicate GivesBack(actions: seq<Action>, n: nat, landed: nat -> bool) {
    exists i :: 0 <= i < |actions| && actions[i].Release? && landed(n + i)
  }

  /** A lease is held from its hold until a release takes effect or others take it back. */
  lemma {:induction false} HeldUntilTakenBack(
    leases: Leases, actions: seq<Action>, n: nat, landed: nat -> bool, between: nat -> seq<Change>, ws: Workspace,
    id: string)
    requires actions != [] && actions[0].Hold? && forall i :: 0 < i < |actions| ==> !actions[i].Hold?
    requires forall action :: action in actions ==> action.runId == id
    requires !leases.Has(ComputerUse(id)) && forall k :: OursAlone(between(k), ws, id)
    ensures LeasesAfter(leases, actions, n, landed, between, ws).Has(ComputerUse(id)) <==>
            landed(n) && !GivesBack(actions, n, landed) && !TakenAfterHold(between, n, |actions|, ws, id)
    decreases |actions|
  {
    hide TakenIn, OursAlone;
    var len := |actions|;
    var init, last := actions[..len - 1], actions[len - 1];
    var before := LeasesAfter(leases, init, n, landed, between, ws);
    if len == 1 {
      KeptUnlessTaken(leases, between(n), ws, id);
    } else {
      HeldUntilTakenBack(leases, init, n, landed, between, ws, id);
      assert last in actions;
      assert GivesBack(actions, n, landed) <==> GivesBack(init, n, landed) || (last.Release? && landed(n + len - 1));
    }
    KeptUnlessTaken(if landed(n + len - 1) then Served(before, last) else before, between(n + len), ws, id);
    assert TakenAfterHold(between, n, len, ws, id) <==>
           TakenAfterHold(between, n, len - 1, ws, id) || TakenIn(between(n + len), ws, id);
  }

  /** The run asks for its release: it got its hold, and stopping a recording was not interrupted. */
  predicate Asked(responses: Responses, n: nat) {
    responses(n).Replied? && !(Loop.Records(responses(n + 1)) && responses(n + 2).Interrupted?)
  }

  /** The number of the release, which is the last action. */
  function ReleaseOf(runId: string, responses: Responses, n: nat): nat {
    n + |Loop.DesktopTrace(runId, responses, n)| - 1
  }

  /**
   * After a run its id is still on the list exactly when the hold took effect, no release did, and
   * nobody else has taken the lease back since the hold.
   */
  lemma {:induction false} HeldAfterRun(
    runId: string, responses: Responses, n: nat, landed: nat -> bool, between: nat -> seq<Change>, leases: Leases,
    ws: Workspace)
    requires !leases.Has(ComputerUse(runId)) && forall k :: OursAlone(between(k), ws, runId)
    ensures var trace := Loop.DesktopTrace(runId, responses, n);
      LeasesAfter(leases, trace, n, landed, between, ws).Has(ComputerUse(runId)) <==>
      && landed(n)
      && !(Asked(responses, n) && landed(ReleaseOf(runId, responses, n)))
      && !TakenAfterHold(between, n, |trace|, ws, runId)
  {
    hide LeasesAfter, TakenAfterHold, OursAlone;
    var trace := Loop.DesktopTrace(runId, responses, n);
    HeldUntilTakenBack(leases, trace, n, landed, between, ws, runId);
    ReleaseIsLast(runId, responses, n, landed);
  }

  lemma {:induction false} ReleaseIsLast(runId: string, responses: Responses, n: nat, landed: nat -> bool)
    ensures GivesBack(Loop.DesktopTrace(runId, responses, n), n, landed) <==>
            Asked(responses, n) && landed(ReleaseOf(runId, responses, n))
  {
    var trace := Loop.DesktopTrace(runId, responses, n);
    assert forall i :: 0 <= i < |trace| ==> (trace[i].Release? <==> Asked(responses, n) && i == |trace| - 1);
    assert Asked(responses, n) ==> trace[|trace| - 1].Release?;
  }

  /** An action that was answered took effect; one that raised or was interrupted may have. */
  ghost predicate Consistent(responses: Responses, landed: nat -> bool) {
    forall k :: responses(k).Replied? ==> landed(k)
  }

  const NOTHING: nat -> seq<Change> := (k: nat) => []

  predicate LeavesALease(runId: string, responses: Responses, n: nat, landed: nat -> bool, ws: Workspace) {
    LeasesAfter(NOBODY, Loop.DesktopTrace(runId, responses, n), n, landed, NOTHING, ws).Has(ComputerUse(runId))
  }

  lemma {:induction false} LeavesWhat(runId: string, responses: Responses, n: nat, landed: nat -> bool, ws: Workspace)
    ensures LeavesALease(runId, responses, n, landed, ws) <==>
            landed(n) && !(Asked(responses, n) && landed(ReleaseOf(runId, responses, n)))
  {
    hide LeasesAfter;
    assert forall k :: NOTHING(k) == [];
    HeldAfterRun(runId, responses, n, landed, NOTHING, NOBODY, ws);
  }

  /**
   * With nobody else at the desktop, the run is sure to leave no lease behind exactly when its hold was
   * answered and its release was asked for and answered. A hold that raised or was interrupted may have
   * taken effect, and is never given back.
   */
  lemma {:induction false} SureToBeGone(runId: string, responses: Responses, n: nat, ws: Workspace)
    ensures (forall landed: nat -> bool :: Consistent(responses, landed) ==>
             !LeavesALease(runId, responses, n, landed, ws)) <==>
            Asked(responses, n) && responses(ReleaseOf(runId, responses, n)).Replied?
  {
    hide LeavesALease;
    forall landed: nat -> bool | Consistent(responses, landed)
      ensures LeavesALease(runId, responses, n, landed, ws) <==>
              landed(n) && !(Asked(responses, n) && landed(ReleaseOf(runId, responses, n)))
    {
      LeavesWhat(runId, responses, n, landed, ws);
    }
    var worst := (k: nat) => k == n || responses(k).Replied?;
    assert Consistent(responses, worst) && worst(n);
  }
}
