/** Leases on the shared desktop process of a workspace. */
module DesktopLeases {
  import opened Wrappers
  import opened RunIds

  type Workspace = string

  datatype Holder = Viewer | ComputerUse(runId: string)

  /** The holder a request names, or why it names none. */
  function ParseHolder(kind: string, runId: string): Result<Holder, LeaseError> {
    if !ValidKind(kind) then Failure(InvalidHolder)
    else if NormalKind(kind) == VIEWER_KIND then Success(Viewer)
    else if AcceptedRunId(runId) then Success(ComputerUse(runId))
    else Failure(InvalidRunId)
  }

  /** The id a computer-use run makes from its session id is one the runner grants a lease to. */
  lemma {:induction false} SanitizedRunCanHold(sessionId: string, token: string)
    requires token != "" && forall i :: 0 <= i < |token| ==> IsAlnum(token[i])
    ensures var id := SanitizeRunId(sessionId, token);
      ParseHolder(COMPUTER_USE_KIND, id) == Success(ComputerUse(id))
  {
    SanitizedIsAccepted(sessionId, token);
    AcceptedCanHold(SanitizeRunId(sessionId, token));
  }

  lemma {:induction false} AcceptedCanHold(id: string)
    requires AcceptedRunId(id)
    ensures ParseHolder(COMPUTER_USE_KIND, id) == Success(ComputerUse(id))
  {
    LowerCaseIsNormal(COMPUTER_USE_KIND);
    assert COMPUTER_USE_KIND[0] != VIEWER_KIND[0];
  }

  // ---------------------------------------------------------------- abstract leases

  /** Who holds one desktop: whether a viewer does, and which runs do. */
  datatype Leases = Leases(viewer: bool, runs: set<string>) {
    predicate Has(holder: Holder) {
      match holder
      case Viewer => viewer
      case ComputerUse(id) => id in runs
    }

    function Add(holder: Holder): Leases {
      match holder
      case Viewer => Leases(true, runs)
      case ComputerUse(id) => Leases(viewer, runs + {id})
    }

    function Remove(holder: Holder): Leases {
      match holder
      case Viewer => Leases(false, runs)
      case ComputerUse(id) => Leases(viewer, runs - {id})
    }
  }

  const NOBODY := Leases(false, {})

  /** What one request did. A process that cannot be restarted loses its leases; a stop ends them. */
  datatype Change =
    | Acquired(ws: Workspace, holder: Holder)
    | Released(ws: Workspace, holder: Holder)
    | Lost(ws: Workspace)
    | Stopped(ws: Workspace, forced: bool)

  function After(leases: Leases, change: Change, ws: Workspace): Leases {
    if change.ws != ws then leases
    else
      match change
      case Acquired(_, h) => leases.Add(h)
      case Released(_, h) => leases.Remove(h)
      case Lost(_) => NOBODY
      case Stopped(_, _) => NOBODY
  }

  /** The leases of a workspace after a history of changes. */
  function HeldAfter(history: seq<Change>, ws: Workspace): Leases {
    if history == [] then NOBODY
    else After(HeldAfter(history[..|history| - 1], ws), history[|history| - 1], ws)
  }

  lemma {:induction false} HeldAfterOne(history: seq<Change>, change: Change, ws: Workspace)
    ensures HeldAfter(history + [change], ws) == After(HeldAfter(history, ws), change, ws)
  {
    assert (history + [change])[..|history|] == history;
  }

  predicate Takes(change: Change, ws: Workspace, holder: Holder) {
    change == Released(ws, holder) || change == Lost(ws) || (change.Stopped? && change.ws == ws)
  }

  /** The change at `i` was an acquisition that nothing later has taken back. */
  ghost predicate StillHeld(history: seq<Change>, ws: Workspace, holder: Holder, i: nat) {
    && i < |history|
    && history[i] == Acquired(ws, holder)
    && forall j :: i < j < |history| ==> !Takes(history[j], ws, holder)
  }

  lemma {:induction false} StillHeldOne(history: seq<Change>, change: Change, ws: Workspace, holder: Holder, i: nat)
    requires i < |history|
    ensures StillHeld(history + [change], ws, holder, i) <==>
              StillHeld(history, ws, holder, i) && !Takes(change, ws, holder)
  {
    var longer := history + [change];
    assert longer[|history|] == change;
    if StillHeld(history, ws, holder, i) && !Takes(change, ws, holder) {
      assert forall j :: i < j < |history| ==> longer[j] == history[j];
    }
    if StillHeld(longer, ws, holder, i) {
      assert forall j :: i < j < |history| ==> longer[j] == history[j];
    }
  }

  /** Holders are exactly the acquired leases not taken back since. */
  lemma {:induction false} HoldersAreAcquiredMinusReleased(history: seq<Change>, ws: Workspace, holder: Holder)
    ensures HeldAfter(history, ws).Has(holder) <==> exists i :: StillHeld(history, ws, holder, i)
  {
    if history != [] {
      var n := |history| - 1;
      var init, last := history[..n], history[n];
      assert history == init + [last];
      HoldersAreAcquiredMinusReleased(init, ws, holder);
      forall i: nat | i < n
        ensures StillHeld(history, ws, holder, i) <==> StillHeld(init, ws, holder, i) && !Takes(last, ws, holder)
      {
        StillHeldOne(init, last, ws, holder, i);
      }
      if last == Acquired(ws, holder) {
        assert StillHeld(history, ws, holder, n);
      } else if HeldAfter(history, ws).Has(holder) {
        var i :| StillHeld(init, ws, holder, i);
        assert StillHeld(history, ws, holder, i);
      }
    }
  }

  /** The last change was a release that left nobody. */
  predicate Emptied(history: seq<Change>, ws: Workspace) {
    && history != [] && history[|history| - 1].Released? && history[|history| - 1].ws == ws
    && HeldAfter(history, ws) == NOBODY
  }

  predicate StopsUnforced(change: Change, ws: Workspace) {
    change == Stopped(ws, false)
  }

  /** An unforced stop comes exactly when the change before it was a release that left nobody. */
  ghost predicate Orderly(history: seq<Change>) {
    history == [] ||
    var init, last := history[..|history| - 1], history[|history| - 1];
    Orderly(init) && forall ws :: Emptied(init, ws) <==> StopsUnforced(last, ws)
  }

  lemma {:induction false} OrderlyOne(history: seq<Change>, change: Change)
    requires Orderly(history)
    requires forall ws :: Emptied(history, ws) <==> StopsUnforced(change, ws)
    ensures Orderly(history + [change])
  {
    assert (history + [change])[..|history|] == history;
  }

  /** The two directions for any position of an orderly history. */
  lemma {:induction false} StoppedExactlyWhenEmptied(history: seq<Change>, i: nat, ws: Workspace)
    requires Orderly(history) && i < |history|
    ensures history[i] == Stopped(ws, false) <==> Emptied(history[..i], ws)
  {
    var init, last := history[..|history| - 1], history[|history| - 1];
    if i < |init| {
      StoppedExactlyWhenEmptied(init, i, ws);
      assert init[..i] == history[..i];
    } else {
      assert history[..i] == init;
      assert Emptied(init, ws) <==> StopsUnforced(last, ws);
    }
  }

  // ---------------------------------------------------------------- the service

  /** What the environment answers: liveness probes may also raise, and starting may fail. */
  datatype Probe = Live | Dead | ProbeRaises

  datatype Outside = Outside(cachedProbe: Probe, probe: Probe, startSucceeds: bool)

  datatype LeaseError = InvalidHolder | InvalidRunId | ProbeFailed | StartFailed

  datatype ReleaseResult = ReleaseResult(stopped: bool, processAlive: bool, viewerHeld: bool, computerUseActive: bool)

  datatype Recording = Recording(pid: int, path: string)

  type Recordings = map<(Workspace, string), Recording>

  /** The recordings of every other workspace. */
  function WithoutRecordingsOf(recordings: Recordings, ws: Workspace): Recordings {
    map key | key in recordings && key.0 != ws :: recordings[key]
  }

  /** Whether the display process can be had. */
  predicate Ensures(cached: bool, outside: Outside) {
    || (cached && outside.cachedProbe.Live?)
    || ((!cached || outside.cachedProbe.Dead?) &&
        (outside.probe.Live? || (outside.probe.Dead? && outside.startSucceeds)))
  }

  /** A stale session is dropped before its replacement has been started. */
  predicate Loses(cached: bool, outside: Outside) {
    cached && outside.cachedProbe.Dead? && !Ensures(cached, outside)
  }

  class DesktopSession {
    var viewerHeld: bool
    var runIds: set<string>

    constructor (viewerHeld: bool, runIds: set<string>)
      ensures this.viewerHeld == viewerHeld && this.runIds == runIds
    {
      this.viewerHeld := viewerHeld;
      this.runIds := runIds;
    }

    function Held(): Leases
      reads this
    {
      Leases(viewerHeld, runIds)
    }

    method Take(holder: Holder)
      modifies this
      ensures Held() == old(Held()).Add(holder)
    {
      match holder
      case Viewer => viewerHeld := true;
      case ComputerUse(id) => runIds := runIds + {id};
    }

    method Drop(holder: Holder)
      modifies this
      ensures Held() == old(Held()).Remove(holder)
    {
      match holder
      case Viewer => viewerHeld := false;
      case ComputerUse(id) => runIds := runIds - {id};
    }
  }

  class DesktopService {
    var sessions: map<Workspace, DesktopSession>
    var recordings: Recordings
    ghost var history: seq<Change>

    constructor ()
      ensures Valid() && history == [] && sessions == map[] && recordings == map[]
    {
      sessions, recordings, history := map[], map[], [];
    }

    /** The leases cached for a workspace. */
    function Held(ws: Workspace): Leases
      reads this, sessions.Values
    {
      if ws in sessions then sessions[ws].Held() else NOBODY
    }

    /** Sessions are not shared. */
    ghost predicate Unshared()
      reads this
    {
      forall a, b :: a in sessions && b in sessions && a != b ==> sessions[a] != sessions[b]
    }

    /** The cached leases are what the history of requests says. */
    ghost predicate Refines()
      reads this, sessions.Values
    {
      forall ws :: Held(ws) == HeldAfter(history, ws)
    }

    ghost predicate Valid()
      reads this, sessions.Values
    {
      && Unshared()
      && Refines()
      && Orderly(history)
      && forall ws :: !Emptied(history, ws)
    }

    /** The sessions of the other workspaces are the same objects with the same leases. */
    twostate predicate OthersKept(ws: Workspace)
      reads this, sessions.Values
    {
      && sessions - {ws} == old(sessions) - {ws}
      && forall w :: w != ws ==> Held(w) == old(Held(w))
    }

    /** Records a change that is neither a release nor a stop. */
    ghost method Record(change: Change)
      requires forall ws :: !Emptied(history, ws)
      requires Orderly(history) && !StopsUnforced(change, change.ws) && !change.Released?
      requires forall ws :: Held(ws) == After(HeldAfter(history, ws), change, ws)
      modifies this`history
      ensures history == old(history) + [change]
      ensures Refines() && Orderly(history) && forall ws :: !Emptied(history, ws)
    {
      history := history + [change];
      OrderlyOne(old(history), change);
      forall ws
        ensures Held(ws) == HeldAfter(history, ws)
      {
        HeldAfterOne(old(history), change, ws);
      }
    }

    /** Reuses, recovers or starts the display process; leases of a stale session are carried over. */
    method EnsureDesktopProcess(ws: Workspace, outside: Outside) returns (r: Result<DesktopSession, LeaseError>)
      requires Valid()
      modifies this`sessions, this`history
      ensures Valid() && OthersKept(ws)
      ensures r.Success? <==> Ensures(ws in old(sessions), outside)
      ensures r.Success? ==>
                ws in sessions && sessions[ws] == r.value && Held(ws) == old(Held(ws)) && history == old(history)
      ensures r.Success? ==> fresh(r.value) || (ws in old(sessions) && r.value == old(sessions[ws]))
      ensures r.Failure? ==>
                var loses := Loses(ws in old(sessions), outside);
                && Held(ws) == (if loses then NOBODY else old(Held(ws)))
                && history == if loses then old(history) + [Lost(ws)] else old(history)
    {
      var preservedViewer, preservedRuns := false, {};
      if ws in sessions {
        var existing := sessions[ws];
        preservedViewer, preservedRuns := existing.viewerHeld, existing.runIds;
        if outside.cachedProbe.ProbeRaises? {
          return Failure(ProbeFailed);
        }
        if outside.cachedProbe.Live? {
          return Success(existing);
        }
        sessions := sessions - {ws};
      }
      if outside.probe.ProbeRaises? || (outside.probe.Dead? && !outside.startSucceeds) {
        if ws in old(sessions) {
          Record(Lost(ws));
        }
        return Failure(if outside.probe.ProbeRaises? then ProbeFailed else StartFailed);
      }
      var session := new DesktopSession(preservedViewer, preservedRuns);
      sessions := sessions[ws := session];
      return Success(session);
    }

    /** Adds one holder to the session of `ws`. */
    method Lease(ws: Workspace, holder: Holder)
      requires Valid() && ws in sessions
      modifies this`history, sessions[ws]
      ensures Valid() && OthersKept(ws) && sessions == old(sessions)
      ensures Held(ws) == old(Held(ws)).Add(holder)
      ensures history == old(history) + [Acquired(ws, holder)]
    {
      sessions[ws].Take(holder);
      Record(Acquired(ws, holder));
    }

    /** Acquires a viewer or computer-use lease. */
    method AcquireDesktop(ws: Workspace, kind: string, runId: string, outside: Outside)
      returns (r: Result<DesktopSession, LeaseError>)
      requires Valid()
      modifies this`sessions, this`history, if ws in sessions then {sessions[ws]} else {}
      ensures Valid() && OthersKept(ws)
      ensures r.Success? <==> ParseHolder(kind, runId).Success? && Ensures(ws in old(sessions), outside)
      ensures r.Success? ==>
                var holder := ParseHolder(kind, runId).value;
                && ws in sessions && sessions[ws] == r.value
                && Held(ws) == old(Held(ws)).Add(holder)
                && history == old(history) + [Acquired(ws, holder)]
      ensures r.Failure? ==>
                var loses := ValidKind(kind) && Loses(ws in old(sessions), outside);
                && Held(ws) == (if loses then NOBODY else old(Held(ws)))
                && history == if loses then old(history) + [Lost(ws)] else old(history)
    {
      if !ValidKind(kind) {
        return Failure(InvalidHolder);
      }
      r := EnsureDesktopProcess(ws, outside);
      if r.Failure? {
        return;
      }
      if NormalKind(kind) == VIEWER_KIND {
        Lease(ws, Viewer);
      } else {
        if !AcceptedRunId(runId) {
          return Failure(InvalidRunId);
        }
        Lease(ws, ComputerUse(runId));
      }
    }

    /** Kills the display, interrupts its recordings and drops its cached session. */
    method StopDesktopProcess(ws: Workspace, ghost forced: bool)
      requires Unshared() && Refines() && Orderly(history)
      requires forall w :: Emptied(history, w) <==> !forced && w == ws
      modifies this
      ensures Valid() && OthersKept(ws) && ws !in sessions
      ensures history == old(history) + [Stopped(ws, forced)]
      ensures recordings == WithoutRecordingsOf(old(recordings), ws)
    {
      recordings := WithoutRecordingsOf(recordings, ws);
      sessions := sessions - {ws};
      history := history + [Stopped(ws, forced)];
      OrderlyOne(old(history), Stopped(ws, forced));
      forall w
        ensures Held(w) == HeldAfter(history, w)
      {
        HeldAfterOne(old(history), Stopped(ws, forced), w);
      }
    }

    /** Records a release, which may leave nobody. */
    ghost method RecordRelease(ws: Workspace, holder: Holder)
      requires Orderly(history) && forall w :: !Emptied(history, w)
      requires forall w :: Held(w) == After(HeldAfter(history, w), Released(ws, holder), w)
      modifies this`history
      ensures history == old(history) + [Released(ws, holder)]
      ensures Refines() && Orderly(history)
      ensures forall w :: Emptied(history, w) <==> w == ws && Held(ws) == NOBODY
    {
      var change := Released(ws, holder);
      history := history + [change];
      OrderlyOne(old(history), change);
      forall w
        ensures Held(w) == HeldAfter(history, w)
      {
        HeldAfterOne(old(history), change, w);
      }
    }

    /** Takes one holder off the session of `ws`. */
    method Unlease(ws: Workspace, holder: Holder)
      requires Valid() && ws in sessions
      modifies this`history, sessions[ws]
      ensures Unshared() && Refines() && Orderly(history) && OthersKept(ws) && sessions == old(sessions)
      ensures Held(ws) == old(Held(ws)).Remove(holder)
      ensures history == old(history) + [Released(ws, holder)]
      ensures forall w :: Emptied(history, w) <==> w == ws && Held(ws) == NOBODY
    {
      sessions[ws].Drop(holder);
      RecordRelease(ws, holder);
    }

    /** Stops the display of a session that the last release left without a holder. */
    method StopWhenEmptied(ws: Workspace) returns (r: ReleaseResult)
      requires Unshared() && Refines() && Orderly(history) && ws in sessions
      requires forall w :: Emptied(history, w) <==> w == ws && Held(ws) == NOBODY
      modifies this
      ensures Valid() && OthersKept(ws)
      ensures var left := old(Held(ws));
        var stops := left == NOBODY;
        && Held(ws) == left
        && r == ReleaseResult(stops, !stops, left.viewer, left.runs != {})
        && (ws in sessions <==> !stops)
        && recordings == (if stops then WithoutRecordingsOf(old(recordings), ws) else old(recordings))
        && history == old(history) + if stops then [Stopped(ws, false)] else []
    {
      hide HeldAfter, Orderly, WithoutRecordingsOf;
      var session := sessions[ws];
      if session.viewerHeld || session.runIds != {} {
        return ReleaseResult(false, true, session.viewerHeld, session.runIds != {});
      }
      StopDesktopProcess(ws, false);
      return ReleaseResult(true, false, false, false);
    }

    /** Drops one lease; the display is stopped exactly when the release leaves no holder. */
    method ReleaseDesktop(ws: Workspace, kind: string, runId: string)
      returns (r: Result<ReleaseResult, LeaseError>)
      requires Valid()
      modifies this, if ws in sessions then {sessions[ws]} else {}
      ensures Valid() && OthersKept(ws)
      ensures r.Success? <==> ValidKind(kind) && (ws !in old(sessions) || ParseHolder(kind, runId).Success?)
      ensures r.Failure? || ws !in old(sessions) ==>
                Held(ws) == old(Held(ws)) && history == old(history) && recordings == old(recordings)
      ensures r.Success? && ws !in old(sessions) ==> r.value == ReleaseResult(false, false, false, false)
      ensures r.Success? && ws in old(sessions) ==>
                var holder := ParseHolder(kind, runId).value;
                var left := old(Held(ws)).Remove(holder);
                var stops := left == NOBODY;
                && Held(ws) == left
                && r.value == ReleaseResult(stops, !stops, left.viewer, left.runs != {})
                && (ws in sessions <==> !stops)
                && recordings == (if stops then WithoutRecordingsOf(old(recordings), ws) else old(recordings))
                && history == old(history) + [Released(ws, holder)] + if stops then [Stopped(ws, false)] else []
    {
      hide HeldAfter, Orderly, Emptied, WithoutRecordingsOf;
      if !ValidKind(kind) {
        return Failure(InvalidHolder);
      }
      if ws !in sessions {
        return Success(ReleaseResult(false, false, false, false));
      }
      if NormalKind(kind) == VIEWER_KIND {
        Unlease(ws, Viewer);
      } else {
        if !AcceptedRunId(runId) {
          return Failure(InvalidRunId);
        }
        Unlease(ws, ComputerUse(runId));
      }
      var result := StopWhenEmptied(ws);
      return Success(result);
    }

    /** Stops the display whoever holds it; nothing happens when there is neither session nor recording. */
    method ForceReleaseDesktop(ws: Workspace) returns (r: ReleaseResult)
      requires Valid()
      modifies this
      ensures Valid() && OthersKept(ws) && ws !in sessions
      ensures r == ReleaseResult(true, false, false, false)
      ensures recordings == WithoutRecordingsOf(old(recordings), ws)
      ensures history == old(history) + if ws in old(sessions) || (exists key :: key in old(recordings) && key.0 == ws)
                                        then [Stopped(ws, true)] else []
    {
      var hasRecordings := exists key :: key in recordings && key.0 == ws;
      if ws !in sessions && !hasRecordings {
        assert recordings == WithoutRecordingsOf(recordings, ws);
        return ReleaseResult(true, false, false, false);
      }
      StopDesktopProcess(ws, true);
      return ReleaseResult(true, false, false, false);
    }
  }
}
