/**
 Workspace revision tokens: the tracker as a state machine over what happens between awaits, and what a
 code query may conclude from two snapshots.
 */
module RevisionTracker {
  import opened Wrappers

  datatype State = INITIALIZING | HEALTHY | REBASELINING | UNCERTAIN

  // Epochs stand for fresh UUIDs, numbered in the order in which they are minted.
  datatype Token = Token(epoch: nat, generation: nat, fingerprint: int)

  // A rebaseline that awaits its fingerprint; `dirty` records, for the statement below only, that a tracked
  // change has been seen since its current attempt began.
  datatype Baseline = Running(attempt: nat, dirty: bool) | Over

  datatype Tracker = Tracker(state: State, token: Token, changed: bool, watching: bool, nextEpoch: nat, maxAttempts: nat, baselines: seq<Baseline>)

  datatype Action =
    | HostMutation
    | WatchEvent(ignored: bool)
    | Lost                               // markUncertain, also for a watcher error
    | Close
    | Rebaseline(opens: bool)            // `opens` tells whether a missing watcher can be opened
    | Arrives(b: nat, fingerprint: int)  // the fingerprint of a rebaseline is there
    | Fails(b: nat)                      // it could not be computed

  function NewTracker(maxAttempts: nat): Tracker {
    Tracker(INITIALIZING, Token(0, 0, 0), false, false, 1, maxAttempts, [])
  }

  predicate InFlight(t: Tracker, b: nat) {
    b < |t.baselines| && t.baselines[b].Running?
  }

  predicate Enabled(t: Tracker, a: Action) {
    match a
    case Arrives(b, _) => InFlight(t, b)
    case Fails(b) => InFlight(t, b)
    case WatchEvent(_) => t.watching
    case _ => true
  }

  function Uncertain(t: Tracker): Tracker {
    t.(state := UNCERTAIN, token := t.token.(epoch := t.nextEpoch), nextEpoch := t.nextEpoch + 1)
  }

  function Dirtied(baselines: seq<Baseline>): seq<Baseline> {
    seq(|baselines|, i requires 0 <= i < |baselines| => if baselines[i].Running? then Running(baselines[i].attempt, true) else Over)
  }

  /** A tracked change, seen by the watcher or announced by the host. */
  function Changed(t: Tracker): Tracker {
    var u := t.(baselines := Dirtied(t.baselines));
    match t.state
    case HEALTHY => u.(token := t.token.(generation := t.token.generation + 1))
    case REBASELINING => u.(changed := true)
    case _ => u
  }

  function Begun(t: Tracker, opens: bool): Tracker {
    if !t.watching && !opens then Uncertain(t)
    else
      var u := t.(watching := true, state := REBASELINING);
      if t.maxAttempts == 0 then Uncertain(u) else u.(changed := false, baselines := t.baselines + [Running(0, false)])
  }

  function Arrived(t: Tracker, b: nat, fingerprint: int): Tracker
    requires InFlight(t, b)
  {
    var over := t.(baselines := t.baselines[b := Over]);
    var attempt := t.baselines[b].attempt;
    if t.state == UNCERTAIN then over
    else if t.changed then
      if attempt + 1 < t.maxAttempts then t.(changed := false, baselines := t.baselines[b := Running(attempt + 1, false)])
      else Uncertain(over)
    else over.(state := HEALTHY, token := Token(t.nextEpoch, 0, fingerprint), nextEpoch := t.nextEpoch + 1)
  }

  function Apply(t: Tracker, a: Action): Tracker {
    if !Enabled(t, a) then t
    else match a
      case HostMutation => Changed(t)
      case WatchEvent(ignored) => if ignored then t else Changed(t)
      case Lost => Uncertain(t)
      case Close => Uncertain(t).(watching := false)
      case Rebaseline(opens) => Begun(t, opens)
      case Arrives(b, fingerprint) => Arrived(t, b, fingerprint)
      case Fails(b) => t.(baselines := t.baselines[b := Over])
  }

  function Run(t: Tracker, actions: seq<Action>): Tracker
    decreases |actions|
  {
    if actions == [] then t else Run(Apply(t, actions[0]), actions[1..])
  }

  // ----- snapshots and queries -----

  function Snapshot(t: Tracker): Option<Token> {
    if t.state == HEALTHY then Some(t.token) else None
  }

  /** What a query reports as `current`, from its snapshots before and after; None is the throw on an unhealthy tracker. */
  function QueryCurrent(before: Tracker, synchronized: bool, after: Tracker): Option<bool> {
    if Snapshot(before).None? then None else Some(synchronized && Snapshot(after) == Snapshot(before))
  }

  /** A tracked change, a host mutation, lost continuity, a close, or a rebaseline that starts or ends. */
  predicate Disturbs(t: Tracker, a: Action) {
    Enabled(t, a) &&
    match a
    case HostMutation => true
    case WatchEvent(ignored) => !ignored
    case Lost => true
    case Close => true
    case Rebaseline(_) => true
    case Arrives(b, _) => t.state != UNCERTAIN && (!t.changed || t.baselines[b].attempt + 1 >= t.maxAttempts)
    case Fails(_) => false
  }

  predicate Disturbed(t: Tracker, actions: seq<Action>)
    decreases |actions|
  {
    actions != [] && (Disturbs(t, actions[0]) || Disturbed(Apply(t, actions[0]), actions[1..]))
  }

  // ----- tokens never come back -----

  ghost predicate Inv(t: Tracker) {
    t.token.epoch < t.nextEpoch
  }

  // No token is current from now on that lies below this pair of epoch and generation.
  function Floor(t: Tracker): (nat, nat) {
    if t.state == HEALTHY then (t.token.epoch, t.token.generation) else (t.nextEpoch, 0)
  }

  predicate Below(a: (nat, nat), b: (nat, nat)) {
    a.0 < b.0 || (a.0 == b.0 && a.1 < b.1)
  }

  lemma StepRaises(t: Tracker, a: Action)
    requires Inv(t)
    ensures var u := Apply(t, a);
      && Inv(u) && (Floor(u) == Floor(t) || Below(Floor(t), Floor(u)))
      && (t.state == HEALTHY && Disturbs(t, a) ==> Below(Floor(t), Floor(u)))
      && (!Disturbs(t, a) ==> u.state == t.state && u.token == t.token)
  {
  }

  lemma {:induction false} RunRaises(t: Tracker, actions: seq<Action>)
    requires Inv(t)
    ensures var u := Run(t, actions);
      && Inv(u) && (Floor(u) == Floor(t) || Below(Floor(t), Floor(u)))
      && (t.state == HEALTHY && Disturbed(t, actions) ==> Below(Floor(t), Floor(u)))
      && (!Disturbed(t, actions) ==> u.state == t.state && u.token == t.token)
    decreases |actions|
  {
    if actions != [] {
      StepRaises(t, actions[0]);
      RunRaises(Apply(t, actions[0]), actions[1..]);
    }
  }

  ghost predicate Reachable(t: Tracker) {
    exists maxAttempts, actions :: t == Run(NewTracker(maxAttempts), actions)
  }

  lemma ReachableInv(t: Tracker)
    requires Reachable(t)
    ensures Inv(t)
  {
    var maxAttempts, actions :| t == Run(NewTracker(maxAttempts), actions);
    RunRaises(NewTracker(maxAttempts), actions);
  }

  /** A token that was current and has been left is never current again, rebaselines that overlap included. */
  lemma TokenNeverReturns(t: Tracker, actions: seq<Action>)
    requires Reachable(t) && t.state == HEALTHY && Disturbed(t, actions)
    ensures Snapshot(Run(t, actions)) != Some(t.token)
  {
    ReachableInv(t);
    RunRaises(t, actions);
  }

  /** A synchronized query reports `current` exactly if nothing has disturbed the workspace between its two snapshots. */
  lemma CurrentIffUndisturbed(t: Tracker, actions: seq<Action>)
    requires Reachable(t) && t.state == HEALTHY
    ensures QueryCurrent(t, true, Run(t, actions)) == Some(!Disturbed(t, actions))
    ensures QueryCurrent(t, false, Run(t, actions)) == Some(false)
  {
    ReachableInv(t);
    RunRaises(t, actions);
  }

  // ----- what a baseline is worth -----

  /** The rebaselines in flight. */
  function Flying(t: Tracker): set<nat> {
    set b | 0 <= b < |t.baselines| && t.baselines[b].Running?
  }

  // A rebaseline is started only when none is in flight.
  predicate OneAtATime(t: Tracker, actions: seq<Action>)
    decreases |actions|
  {
    actions != [] ==> (actions[0].Rebaseline? ==> Flying(t) == {}) && OneAtATime(Apply(t, actions[0]), actions[1..])
  }

  // While a rebaseline is in flight the tracker has either lost continuity or noted every change.
  ghost predicate Noted(t: Tracker) {
    && (forall b: nat, c: nat | InFlight(t, b) && InFlight(t, c) :: b == c)
    && (forall b: nat | InFlight(t, b) ::
          (t.state == UNCERTAIN || t.state == REBASELINING) && (t.state == REBASELINING && t.baselines[b].dirty ==> t.changed))
  }

  lemma NoneFlying(t: Tracker, b: nat)
    ensures b in Flying(t) <==> InFlight(t, b)
  {
  }

  lemma StepNotes(t: Tracker, a: Action)
    requires Noted(t) && (a.Rebaseline? ==> Flying(t) == {})
    ensures Noted(Apply(t, a))
  {
    var u := Apply(t, a);
    forall b: nat ensures b in Flying(t) <==> InFlight(t, b) { NoneFlying(t, b); }
    forall b: nat | InFlight(u, b) ensures if a.Rebaseline? then b == |t.baselines| else InFlight(t, b) {
      assert b < |t.baselines| && a.Rebaseline? ==> (InFlight(t, b) <==> InFlight(u, b));
    }
  }

  lemma {:induction false} RunNotes(t: Tracker, actions: seq<Action>)
    requires Noted(t) && OneAtATime(t, actions)
    ensures Noted(Run(t, actions))
    decreases |actions|
  {
    if actions != [] {
      StepNotes(t, actions[0]);
      RunNotes(Apply(t, actions[0]), actions[1..]);
    }
  }

  // The fingerprint, if it arrived now, would become the baseline under a fresh token.
  predicate Installs(t: Tracker, b: nat, fingerprint: int) {
    InFlight(t, b) && Snapshot(Apply(t, Arrives(b, fingerprint))) == Some(Token(t.nextEpoch, 0, fingerprint))
  }

  /** No fingerprint that could become the baseline now has missed a tracked change. */
  ghost predicate Clean(t: Tracker) {
    forall b: nat, fingerprint: int | Installs(t, b, fingerprint) :: !t.baselines[b].dirty
  }

  /** And none will, as long as no further rebaseline is started while one is in flight. */
  ghost predicate StaysClean(t: Tracker) {
    forall actions :: OneAtATime(t, actions) ==> Clean(Run(t, actions))
  }

  /** With one rebaseline at a time, a fingerprint becomes the baseline only if no tracked change was seen while it was computed. */
  lemma BaselineIsClean(t: Tracker, actions: seq<Action>)
    requires Noted(t) && OneAtATime(t, actions)
    ensures Clean(Run(t, actions))
  {
    RunNotes(t, actions);
  }

  /** A call of `rebaseline` gets as far as computing a fingerprint. */
  predicate Begins(t: Tracker, opens: bool) {
    t.maxAttempts > 0 && (t.watching || opens)
  }

  /**
   After a call of `rebaseline`, the baseline stays clean in every continuation with one rebaseline at a time
   exactly if the call came while none was in flight, or never got to a fingerprint.
   */
  lemma CleanIffNoneFlying(t: Tracker, opens: bool)
    requires Noted(t)
    ensures StaysClean(Apply(t, Rebaseline(opens))) <==> Flying(t) == {} || !Begins(t, opens)
  {
    var u := Apply(t, Rebaseline(opens));
    if Flying(t) == {} || !Begins(t, opens) {
      if Flying(t) == {} {
        StepNotes(t, Rebaseline(opens));
      } else {
        assert forall b: nat :: InFlight(u, b) <==> InFlight(t, b);
      }
      forall actions | OneAtATime(u, actions) ensures Clean(Run(u, actions)) { BaselineIsClean(u, actions); }
    } else {
      var b :| b in Flying(t);
      SecondHidesAChange(t, opens, b);
    }
  }

  // The second rebaseline ends first, a change comes, and the first one's fingerprint is taken all the same.
  lemma SecondHidesAChange(t: Tracker, opens: bool, b: nat)
    requires InFlight(t, b) && Begins(t, opens)
    ensures !StaysClean(Apply(t, Rebaseline(opens)))
  {
    var n := |t.baselines|;
    var u := Apply(t, Rebaseline(opens));
    var v := Apply(u, Arrives(n, 0));
    var w := Apply(v, HostMutation);
    var acts := [Arrives(n, 0), HostMutation];
    assert acts[1..] == [HostMutation] && acts[1..][1..] == [];
    assert Run(u, acts) == Run(v, acts[1..]) == Run(w, []) == w;
    assert OneAtATime(u, acts);
    assert Installs(w, b, 0) && w.baselines[b].dirty;
  }

  lemma NewNoted(maxAttempts: nat)
    ensures Noted(NewTracker(maxAttempts))
  {
  }

  /** When two overlap it is not so: the second one's start forgets a change that the first one's fingerprint missed. */
  lemma OverlappingBaselinesMissAChange(fingerprint: int)
    ensures var t := Run(NewTracker(3), [Rebaseline(true), WatchEvent(false), Rebaseline(true)]);
      Installs(t, 0, fingerprint) && t.baselines[0].dirty
  {
    var acts := [Rebaseline(true), WatchEvent(false), Rebaseline(true)];
    var t0 := NewTracker(3);
    var t1 := Apply(t0, acts[0]);
    var t2 := Apply(t1, acts[1]);
    var t3 := Apply(t2, acts[2]);
    assert t1.baselines == [Running(0, false)];
    assert t2.baselines == [Running(0, true)];
    assert t3.baselines == [Running(0, true), Running(0, false)];
    assert acts[1..] == [WatchEvent(false), Rebaseline(true)] && acts[1..][1..] == [Rebaseline(true)];
    assert Run(t0, acts) == Run(t1, acts[1..]) == Run(t2, acts[1..][1..]) == Run(t3, []) == t3;
  }

  // ----- the object -----

  class WorkspaceRevisionTracker {
    const maxRebaselineAttempts: nat
    var state: State
    var epoch: nat
    var generation: nat
    var fingerprint: int
    var changedDuringBaseline: bool
    var watching: bool
    ghost var nextEpoch: nat
    ghost var baselines: seq<Baseline>

    ghost function View(): Tracker
      reads this
    {
      Tracker(state, Token(epoch, generation, fingerprint), changedDuringBaseline, watching, nextEpoch, maxRebaselineAttempts, baselines)
    }

    constructor (maxRebaselineAttempts: nat, minted: nat)
      requires minted == 0
      ensures View() == NewTracker(maxRebaselineAttempts)
    {
      this.maxRebaselineAttempts := maxRebaselineAttempts;
      state, epoch, generation, fingerprint := INITIALIZING, minted, 0, 0;
      changedDuringBaseline, watching := false, false;
      nextEpoch, baselines := 1, [];
    }

    method SnapshotNow() returns (revision: Option<Token>)
      ensures revision == Snapshot(View())
    {
      if state == HEALTHY { return Some(Token(epoch, generation, fingerprint)); }
      revision := None;
    }

    method MarkHostMutation()
      modifies this
      ensures View() == Apply(old(View()), HostMutation)
    {
      baselines := Dirtied(baselines);
      if state == HEALTHY {
        generation := generation + 1;
      } else if state == REBASELINING {
        changedDuringBaseline := true;
      }
    }

    /** The watcher's callback. */
    method OnWatchEvent(ignored: bool)
      requires watching
      modifies this
      ensures View() == Apply(old(View()), WatchEvent(ignored))
    {
      if ignored { return; }
      baselines := Dirtied(baselines);
      if state == REBASELINING {
        changedDuringBaseline := true;
      } else if state == HEALTHY {
        generation := generation + 1;
      }
    }

    /** `minted` is the UUID minted for the new epoch. */
    method MarkUncertain(minted: nat)
      requires minted == nextEpoch
      modifies this
      ensures View() == Apply(old(View()), Lost)
    {
      state, epoch := UNCERTAIN, minted;
      nextEpoch := nextEpoch + 1;
    }

    method CloseTracker(minted: nat)
      requires minted == nextEpoch
      modifies this
      ensures View() == Apply(old(View()), Close)
    {
      watching := false;
      MarkUncertain(minted);
    }

    /** A call of `rebaseline` up to its first await, or to its throw. */
    method BeginRebaseline(opens: bool, minted: nat)
      requires minted == nextEpoch
      modifies this
      ensures View() == Apply(old(View()), Rebaseline(opens))
    {
      if !watching {
        if !opens {
          MarkUncertain(minted);
          return;
        }
        watching := true;
      }
      state := REBASELINING;
      if maxRebaselineAttempts == 0 {
        MarkUncertain(minted);
        return;
      }
      changedDuringBaseline := false;
      baselines := baselines + [Running(0, false)];
    }

    /** The fingerprint of rebaseline `b`, in its `attempt`-th turn of the loop, has arrived. */
    method FingerprintArrives(ghost b: nat, attempt: nat, computed: int, minted: nat) returns (again: bool)
      requires InFlight(View(), b) && attempt == baselines[b].attempt && minted == nextEpoch
      modifies this
      ensures View() == Apply(old(View()), Arrives(b, computed))
      ensures again <==> InFlight(View(), b)
    {
      again := false;
      if state == UNCERTAIN {
        baselines := baselines[b := Over];
        return;
      }
      if changedDuringBaseline {
        if attempt + 1 < maxRebaselineAttempts {
          changedDuringBaseline := false;
          baselines := baselines[b := Running(attempt + 1, false)];
          return true;
        }
        baselines := baselines[b := Over];
        MarkUncertain(minted);
        return;
      }
      baselines := baselines[b := Over];
      epoch, generation, fingerprint, state := minted, 0, computed, HEALTHY;
      nextEpoch := nextEpoch + 1;
    }
  }
}
