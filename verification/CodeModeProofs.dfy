/** What the dispatch bridge keeps, in every order of worker messages, host answers and failures. */
module CodeModeProofs {
  import opened Wrappers
  import opened CodeMode

  // ----- the invariant -----

  ghost predicate Capped(b: Bridge) {
    && ValidLimits(b.lim)
    && b.active == |b.inFlight| && b.active <= b.maxConcurrent <= b.lim.maxConcurrent
    && b.accepted <= b.toolCallCount && b.accepted <= b.lim.maxToolCalls
  }

  // Calls 0 .. issued-1 went to the host, in order; the queue holds the next ones unless a failure dropped them.
  ghost predicate Numbered(b: Bridge) {
    && b.issued + |b.queue| + b.dropped == b.accepted
    && (forall i | 0 <= i < |b.queue| :: b.queue[i] == b.issued + i)
    && (forall c | c in b.inFlight || c in b.answered :: c < b.issued)
    && (forall c | 0 <= c < b.issued :: c in b.inFlight || c in b.answered)
    && (b.failing.NotFailing? ==> b.dropped == 0)
  }

  ghost predicate Flags(b: Bridge) {
    && (b.finished <==> !b.accepting && !b.draining)
    && (b.finished && !b.failing.NotFailing? ==> b.queue == [])
    && (!b.finished ==> b.failing.NotFailing? && b.outcomes == [])
    && (!b.finished ==> b.queue == [] || b.active == b.lim.maxConcurrent)
    && (b.settling != [] ==> !b.accepting)
  }

  ghost predicate Graceful(b: Bridge, k: nat) {
    k < |b.settling| && b.settling[k].StopGracefully?
  }

  ghost predicate NoGraceful(b: Bridge) {
    forall k: nat :: !Graceful(b, k)
  }

  ghost predicate OneGraceful(b: Bridge) {
    && (exists k: nat :: Graceful(b, k))
    && (forall k: nat, j: nat :: Graceful(b, k) && Graceful(b, j) ==> k == j)
  }

  // Exactly one activation owns the settlement once the bridge is finished.
  ghost predicate OneEnd(b: Bridge) {
    if !b.finished then NoGraceful(b)
    else
      || (b.failing.NotFailing? && OneGraceful(b) && b.outcomes == [] && Quiet(b))
      || ((b.failing.StopWorker? || b.failing.DrainIssued?) && NoGraceful(b) && b.outcomes == [])
      || (b.failing.NotFailing? && NoGraceful(b) && |b.outcomes| == 1 && Quiet(b))
      || (b.failing.FailOver? && NoGraceful(b) && |b.outcomes| == 1 && b.outcomes[0].Rejected? && b.inFlight == {})
  }

  ghost predicate Quiet(b: Bridge) {
    b.queue == [] && b.inFlight == {}
  }

  ghost predicate Conserved(b: Bridge) {
    && b.posts.received == b.posts.replied + b.posts.unheard + |b.queue| + |b.inFlight - b.answered| + b.dropped
    && (b.posts.unheard > 0 ==> b.exited) && (b.exited ==> b.finished)
    && (b.outcomes != [] || b.failing.DrainIssued? ==> b.exited)
  }

  // Whoever awaits calls awaits calls that reached the host.
  ghost predicate Snapshots(b: Bridge) {
    && (forall k, c | 0 <= k < |b.settling| && b.settling[k].AwaitCalls? && c in b.settling[k].snapshot :: c < b.issued)
    && (b.failing.DrainIssued? ==> forall c | c in b.failing.snapshot :: c < b.issued)
  }

  ghost predicate Inv(b: Bridge) {
    Capped(b) && Numbered(b) && Flags(b) && OneEnd(b) && Conserved(b) && Snapshots(b)
  }

  // What holds in the middle of a turn, before the queue is pumped.
  ghost predicate Busy(b: Bridge) {
    Capped(b) && Numbered(b) && Conserved(b) && Snapshots(b) && !b.finished && b.failing.NotFailing? && b.outcomes == [] && NoGraceful(b)
      && (b.accepting || b.draining) && (b.settling != [] ==> !b.accepting)
  }

  lemma IssueKeeps(b: Bridge)
    requires Busy(b) && Pumping(b)
    ensures Busy(Issue(b))
  {
    var c := Issue(b);
    assert b.queue[0] == b.issued;
    assert b.issued !in b.inFlight && b.issued !in b.answered;
    assert c.inFlight - c.answered == (b.inFlight - b.answered) + {b.issued};
    assert forall k: nat :: Graceful(c, k) ==> Graceful(b, k);
  }

  lemma {:induction false} PumpKeeps(b: Bridge)
    requires Busy(b)
    ensures Busy(Pump(b)) && !Pumping(Pump(b))
    ensures Pump(b).settling == b.settling && Pump(b).accepting == b.accepting && Pump(b).draining == b.draining
    ensures Pump(b).lim == b.lim
    decreases |b.queue|
  {
    if Pumping(b) {
      IssueKeeps(b);
      PumpKeeps(Issue(b));
    }
  }

  lemma BusyInv(b: Bridge)
    requires Busy(b) && !Pumping(b)
    ensures Inv(b)
  {
  }

  lemma RefuseKeeps(b: Bridge, counted: bool)
    requires Inv(b)
    ensures Inv(Posted(Received(b).(toolCallCount := if counted then b.toolCallCount + 1 else b.toolCallCount)))
  {
    var r := Posted(Received(b).(toolCallCount := if counted then b.toolCallCount + 1 else b.toolCallCount));
    assert Graceless(b, r);
  }

  lemma AcceptKeeps(b: Bridge, q: Bridge)
    requires Inv(b) && b.accepting && b.toolCallCount + 1 <= b.lim.maxToolCalls
    requires q == Received(b).(toolCallCount := b.toolCallCount + 1,
                     queue := b.queue + [b.accepted], accepted := b.accepted + 1)
    ensures Inv(Pump(q))
  {
    assert Graceless(b, q);
    PumpKeeps(q);
    BusyInv(Pump(q));
  }

  lemma DispatchKeeps(b: Bridge, call: Call)
    requires Inv(b)
    ensures Inv(OnDispatch(b, call))
  {
    hide Inv;
    hide Pump;
    RefuseKeeps(b, b.accepting);
    if b.accepting && b.toolCallCount + 1 <= b.lim.maxToolCalls {
      AcceptKeeps(b, Received(b).(toolCallCount := b.toolCallCount + 1,
                        queue := b.queue + [b.accepted], accepted := b.accepted + 1));
    }
  }

  ghost predicate Graceless(b: Bridge, c: Bridge) {
    (forall k: nat :: Graceful(b, k) <==> Graceful(c, k))
  }

  lemma FailKeeps(b: Bridge, code: Code)
    requires Inv(b)
    ensures Inv(FailExternal(b, code))
  {
    assert Graceless(b, FailExternal(b, code));
  }

  // A success loop run on a pumped bridge suspends, finishes, or leaves because someone else finished.
  lemma LoopKeeps(b: Bridge, k: nat)
    requires k < |b.settling| && b.settling[k].AwaitCalls? && Inv(b)
    ensures Inv(SettleLoop(b, k))
  {
    var c := SettleLoop(b, k);
    if !b.finished && b.queue == [] && b.inFlight == {} {
      assert Graceful(c, k);
      forall j: nat | Graceful(c, j) ensures j == k { assert j != k ==> Graceful(b, j); }
    } else {
      assert Graceless(b, c);
    }
  }

  lemma SettledKeeps(b: Bridge, final: Final)
    requires Inv(b)
    ensures Inv(OnSettled(b, final))
  {
    if !b.finished {
      if !final.ok {
        FailKeeps(b, if final.code.Some? then final.code.value else LocalRuntimeError);
      } else {
        var c := b.(accepting := false, draining := true, settling := b.settling + [AwaitCalls(final, {})]);
        assert Graceless(b, c);
        PumpKeeps(c);
        BusyInv(Pump(c));
        LoopKeeps(Pump(c), |b.settling|);
      }
    }
  }

  lemma PumpIdle(b: Bridge)
    requires Inv(b)
    ensures Pump(b) == b
  {
  }

  // A slot has been freed and the queue has not been pumped yet.
  lemma FreedKeeps(b: Bridge, c: nat)
    requires Inv(b) && Enabled(b, Finally(c))
    ensures var d := b.(inFlight := b.inFlight - {c}, active := b.active - 1); if b.finished then Inv(d) && Pump(d) == d else Busy(d)
  {
    var d := b.(inFlight := b.inFlight - {c}, active := b.active - 1);
    assert d.inFlight - d.answered == b.inFlight - b.answered;
    assert Graceless(b, d);
  }

  lemma FinallyKeeps(b: Bridge, c: nat)
    requires Inv(b) && Enabled(b, Finally(c))
    ensures Inv(Effect(b, Finally(c)))
  {
    var d := b.(inFlight := b.inFlight - {c}, active := b.active - 1);
    FreedKeeps(b, c);
    hide Inv;
    hide Busy;
    if !b.finished {
      PumpKeeps(d);
      BusyInv(Pump(d));
    }
  }

  lemma AnswerKeeps(b: Bridge, c: nat)
    requires Inv(b) && Enabled(b, Answer(c))
    ensures Inv(Effect(b, Answer(c)))
  {
    var d := Effect(b, Answer(c));
    assert d.inFlight - d.answered == (b.inFlight - b.answered) - {c};
    assert Graceless(b, d);
  }

  lemma StoppedKeeps(b: Bridge, k: nat)
    requires Inv(b) && Enabled(b, GracefulStopped(k))
    ensures Inv(Effect(b, GracefulStopped(k)))
  {
    var c := Effect(b, GracefulStopped(k));
    assert Graceful(b, k);
    forall j: nat ensures !Graceful(c, j) { if Graceful(c, j) { assert Graceful(b, j); } }
  }

  lemma ExitKeeps(b: Bridge)
    requires Inv(b)
    ensures Inv(FailExternal(b.(exited := true), WorkerCrash))
  {
    assert Graceless(b, FailExternal(b.(exited := true), WorkerCrash));
  }

  lemma StopKeeps(b: Bridge)
    requires Inv(b) && b.finished
    ensures Inv(b.(exited := true))
  {
    assert Graceless(b, b.(exited := true));
  }

  lemma DrainKeeps(b: Bridge, code: Code)
    requires Inv(b) && b.exited && (b.failing.StopWorker? || b.failing.DrainIssued?)
    ensures Inv(DrainLoop(b, code))
  {
    assert Graceless(b, DrainLoop(b, code));
  }

  lemma StepKeeps(b: Bridge, e: Event)
    requires Inv(b)
    ensures Inv(Apply(b, e))
  {
    if Enabled(b, e) {
      match e
      case Dispatch(call) => DispatchKeeps(b, call);
      case Settled(final) => SettledKeeps(b, final);
      case External(code) => FailKeeps(b, code);
      case WorkerExited => ExitKeeps(b);
      case Answer(c) => AnswerKeeps(b, c);
      case Finally(c) => FinallyKeeps(b, c);
      case SettleResume(k) => PumpIdle(b); LoopKeeps(b, k);
      case GracefulStopped(k) => StoppedKeeps(b, k);
      case FailStopped => StopKeeps(b); DrainKeeps(b.(exited := true), b.failing.code);
      case FailResume => DrainKeeps(b, b.failing.code);
    }
  }

  lemma {:induction false} RunKeeps(b: Bridge, events: seq<Event>)
    requires Inv(b)
    ensures Inv(Run(b, events))
    decreases |events|
  {
    if events != [] {
      StepKeeps(b, events[0]);
      RunKeeps(Apply(b, events[0]), events[1..]);
    }
  }

  ghost predicate Reachable(b: Bridge) {
    exists lim, tools, events :: ValidLimits(lim) && b == Run(Start(lim, tools), events)
  }

  lemma ReachableInv(b: Bridge)
    requires Reachable(b)
    ensures Inv(b)
  {
    var lim, tools, events :| ValidLimits(lim) && b == Run(Start(lim, tools), events);
    assert Start(lim, tools).inFlight - Start(lim, tools).answered == {};
    assert NoGraceful(Start(lim, tools));
    RunKeeps(Start(lim, tools), events);
  }

  // ----- the promises -----

  /** Never more than the cap runs at once, and never more calls reach the host than the call limit. */
  lemma Bounded(b: Bridge)
    requires Reachable(b)
    ensures b.active == |b.inFlight| <= b.maxConcurrent <= b.lim.maxConcurrent
    ensures b.issued <= b.lim.maxToolCalls
  {
    ReachableInv(b);
  }

  /** No slot stays idle while an accepted call waits, so the drain loop of a success never spins. */
  lemma WorkConserving(b: Bridge, k: nat)
    requires Reachable(b) && !b.finished
    ensures b.queue == [] || |b.inFlight| == b.lim.maxConcurrent
    ensures b.inFlight == {} ==> b.queue == []
    ensures Pump(b) == b
    ensures k < |b.settling| && b.settling[k].AwaitCalls? ==>
      !SettleLoop(b, k).settling[k].AwaitCalls? || SettleLoop(b, k).settling[k].snapshot == b.inFlight != {}
  {
    ReachableInv(b);
    PumpIdle(b);
  }

  /** The promise settles at most once. */
  lemma SettlesOnce(b: Bridge)
    requires Reachable(b)
    ensures |b.outcomes| <= 1
    ensures b.outcomes != [] ==> b.finished
  {
    ReachableInv(b);
  }

  lemma AllBelow(s: set<nat>, n: nat)
    requires forall c :: c in s <==> 0 <= c < n
    ensures |s| == n
  {
    if n > 0 {
      AllBelow(s - {n - 1}, n - 1);
    } else {
      assert s == {};
    }
  }

  /** It resolves only when every accepted call was dispatched and answered. */
  lemma ResolvesWhenAnswered(b: Bridge)
    requires Reachable(b) && b.outcomes != [] && b.outcomes[0].Resolved?
    ensures b.issued == b.accepted && |b.answered| == b.accepted && b.inFlight == {} && b.dropped == 0
    ensures b.posts.received == b.posts.replied + b.posts.unheard && b.exited
  {
    ReachableInv(b);
    assert b.inFlight - b.answered == {};
    assert forall c :: c in b.answered <==> 0 <= c < b.issued;
    AllBelow(b.answered, b.issued);
  }

  /** It rejects only after every call that reached the host has settled; what never reached it was dropped. */
  lemma RejectsWhenSettled(b: Bridge)
    requires Reachable(b) && b.outcomes != [] && b.outcomes[0].Rejected?
    ensures b.inFlight == {} && |b.answered| == b.issued && b.issued + b.dropped == b.accepted && b.exited
  {
    ReachableInv(b);
    assert forall c :: c in b.answered <==> 0 <= c < b.issued;
    AllBelow(b.answered, b.issued);
  }

  /** After the bridge is finished no call reaches the host any more. */
  lemma {:induction false} NothingIssuedAfterFinish(b: Bridge, events: seq<Event>)
    requires Inv(b) && b.finished
    ensures Run(b, events).finished && Run(b, events).issued == b.issued
    decreases |events|
  {
    if events != [] {
      var e := events[0];
      StepKeeps(b, e);
      FinishedStays(b, e);
      NothingIssuedAfterFinish(Apply(b, e), events[1..]);
    }
  }

  lemma FinishedStays(b: Bridge, e: Event)
    requires Inv(b) && b.finished
    ensures Apply(b, e).finished && Apply(b, e).issued == b.issued
  {
  }

  /**
   Every dispatch message is replied to exactly once, was answered after the worker's exit, still waits for its host
   answer, or was dropped by a failure; nothing is posted too late before the bridge is finished.
   */
  lemma RepliesConserved(b: Bridge)
    requires Reachable(b)
    ensures b.posts.received == b.posts.replied + b.posts.unheard + |b.queue| + |b.inFlight - b.answered| + b.dropped
    ensures b.posts.unheard > 0 ==> b.exited && b.finished
    ensures b.dropped > 0 ==> b.finished && !b.failing.NotFailing?
  {
    ReachableInv(b);
  }

  // ----- progress -----

  ghost function SettleWeight(list: seq<Settling>): nat {
    if list == [] then 0
    else SettleWeight(list[..|list| - 1]) + StageWeight(list[|list| - 1])
  }

  ghost function StageWeight(s: Settling): nat {
    match s
    case AwaitCalls(_, _) => 2
    case StopGracefully(_) => 1
    case SettleOver => 0
  }

  ghost function FailWeight(f: Failing): nat {
    match f
    case StopWorker(_) => 2
    case DrainIssued(_, _) => 1
    case _ => 0
  }

  ghost function Measure(b: Bridge): nat {
    3 * |b.queue| + |b.inFlight - b.answered| + |b.inFlight| + SettleWeight(b.settling) + FailWeight(b.failing)
  }

  // The turns that settling waits for: the host answers, callbacks run, the worker stops.
  predicate Progresses(b: Bridge, e: Event) {
    Enabled(b, e) &&
    match e
    case Answer(_) => true
    case Finally(_) => true
    case GracefulStopped(_) => true
    case FailStopped => true
    case SettleResume(_) => b.finished || b.inFlight == {}
    case FailResume => b.inFlight == {}
    case _ => false
  }

  // A settlement has begun and has not been delivered.
  ghost predicate Ending(b: Bridge) {
    b.outcomes == [] &&
    (b.failing.StopWorker? || b.failing.DrainIssued? || exists k: nat :: k < |b.settling| && !b.settling[k].SettleOver?)
  }

  lemma {:induction false} SettleWeightUpdate(list: seq<Settling>, k: nat, x: Settling)
    requires k < |list|
    ensures SettleWeight(list[k := x]) == SettleWeight(list) - StageWeight(list[k]) + StageWeight(x)
    ensures SettleWeight(list) >= StageWeight(list[k])
  {
    var n := |list| - 1;
    if k == n {
      assert list[k := x][..n] == list[..n];
    } else {
      SettleWeightUpdate(list[..n], k, x);
      assert list[k := x][..n] == list[..n][k := x];
    }
  }

  lemma IssueLighter(b: Bridge)
    requires Busy(b) && Pumping(b)
    ensures Measure(Issue(b)) <= Measure(b)
  {
    var c := Issue(b);
    assert b.queue[0] == b.issued && b.issued !in b.inFlight && b.issued !in b.answered;
    assert c.inFlight - c.answered == (b.inFlight - b.answered) + {b.issued};
  }

  lemma {:induction false} PumpLighter(b: Bridge)
    requires Busy(b)
    ensures Measure(Pump(b)) <= Measure(b)
    decreases |b.queue|
  {
    if Pumping(b) {
      IssueKeeps(b);
      IssueLighter(b);
      PumpLighter(Issue(b));
    }
  }

  lemma FinallyLighter(b: Bridge, c: nat)
    requires Inv(b) && Enabled(b, Finally(c))
    ensures Measure(Effect(b, Finally(c))) < Measure(b)
  {
    var d := b.(inFlight := b.inFlight - {c}, active := b.active - 1);
    assert d.inFlight - d.answered == b.inFlight - b.answered;
    if b.finished {
      assert Pump(d) == d;
    } else {
      assert Graceless(b, d);
      PumpLighter(d);
    }
  }

  /** Every such turn lowers the measure. */
  lemma ProgressLowers(b: Bridge, e: Event)
    requires Inv(b) && Progresses(b, e)
    ensures Measure(Apply(b, e)) < Measure(b)
  {
    match e
    case Answer(c) => assert Effect(b, e).inFlight - Effect(b, e).answered == (b.inFlight - b.answered) - {c};
    case Finally(c) => FinallyLighter(b, c);
    case GracefulStopped(k) => SettleWeightUpdate(b.settling, k, SettleOver);
    case FailStopped =>
    case SettleResume(k) =>
      PumpIdle(b);
      SettleWeightUpdate(b.settling, k, SettleOver);
      SettleWeightUpdate(b.settling, k, StopGracefully(b.settling[k].final));
    case FailResume =>
  }

  /** While a settlement is under way some such turn is ready. */
  lemma SomeTurnReady(b: Bridge) returns (e: Event)
    requires Inv(b) && Ending(b)
    ensures Progresses(b, e)
  {
    if c :| c in b.inFlight {
      if c in b.answered { e := Finally(c); } else { e := Answer(c); }
    } else if b.failing.StopWorker? {
      e := FailStopped;
    } else if b.failing.DrainIssued? {
      e := FailResume;
    } else {
      var k: nat :| k < |b.settling| && !b.settling[k].SettleOver?;
      e := if b.settling[k].StopGracefully? then GracefulStopped(k) else SettleResume(k);
    }
  }

  lemma EndingStays(b: Bridge, e: Event)
    requires Inv(b) && Ending(b) && Progresses(b, e)
    ensures Ending(Apply(b, e)) || |Apply(b, e).outcomes| == 1
  {
    var c := Apply(b, e);
    StepKeeps(b, e);
    if c.outcomes == [] {
      if c.finished {
        if k: nat :| Graceful(c, k) { assert !c.settling[k].SettleOver?; }
      } else {
        var k: nat :| k < |b.settling| && !b.settling[k].SettleOver?;
        if e.Finally? { FinallySettling(b, e.c); }
        assert c.settling == b.settling;
      }
    }
  }

  lemma FinallySettling(b: Bridge, c: nat)
    requires Enabled(b, Finally(c))
    ensures Effect(b, Finally(c)).settling == b.settling
  {
    PumpSettling(b.(inFlight := b.inFlight - {c}, active := b.active - 1));
  }

  /** The turns of a run that settling waits for. */
  function Turns(b: Bridge, events: seq<Event>): nat
    decreases |events|
  {
    if events == [] then 0
    else (if Progresses(b, events[0]) then 1 else 0) + Turns(Apply(b, events[0]), events[1..])
  }

  // The worker's reports of an end; one that comes before the bridge is finished starts one more activation.
  function Reports(events: seq<Event>): nat {
    if events == [] then 0 else (if events[0].Settled? then 1 else 0) + Reports(events[1..])
  }

  // A failure can still come in and stop the worker.
  ghost function Budget(b: Bridge): nat {
    Measure(b) + if b.finished then 0 else 2
  }

  lemma {:induction false} SettleWeightAppend(list: seq<Settling>, x: Settling)
    ensures SettleWeight(list + [x]) == SettleWeight(list) + StageWeight(x)
  {
    assert (list + [x])[..|list|] == list;
  }

  lemma ReportHeavier(b: Bridge, final: Final)
    requires Inv(b) && !b.accepting
    ensures Budget(OnSettled(b, final)) <= Budget(b) + 2
  {
    if !b.finished && final.ok {
      var k := |b.settling|;
      var c := b.(accepting := false, draining := true, settling := b.settling + [AwaitCalls(final, {})]);
      SettleWeightAppend(b.settling, AwaitCalls(final, {}));
      assert Graceless(b, c);
      PumpIdle(b);
      assert Pump(c) == c;
      SettleWeightUpdate(c.settling, k, SettleOver);
      SettleWeightUpdate(c.settling, k, StopGracefully(final));
      SettleWeightUpdate(c.settling, k, AwaitCalls(final, c.inFlight));
    }
  }

  /** No other event raises the measure once the bridge has stopped accepting, a repeated report of the worker excepted. */
  lemma OtherEvents(b: Bridge, e: Event)
    requires Inv(b) && !b.accepting && !Progresses(b, e)
    ensures !Apply(b, e).accepting && Budget(Apply(b, e)) <= Budget(b) + (if e.Settled? then 2 else 0)
  {
    if Enabled(b, e) {
      match e
      case Settled(final) =>
        ReportHeavier(b, final);
        StepKeeps(b, e);
        NeverReopens(b, e);
      case SettleResume(k) =>
        PumpIdle(b);
        SettleWeightUpdate(b.settling, k, AwaitCalls(b.settling[k].final, b.inFlight));
      case _ =>
    }
  }

  lemma {:induction false} PumpFlags(b: Bridge)
    ensures Pump(b).accepting == b.accepting && Pump(b).finished == b.finished
    decreases |b.queue|
  {
    if Pumping(b) { PumpFlags(Issue(b)); }
  }

  lemma {:induction false} LoopFlags(b: Bridge, k: nat)
    requires k < |b.settling| && !b.settling[k].SettleOver? && !b.accepting
    ensures !SettleLoop(b, k).accepting && (b.finished ==> SettleLoop(b, k).finished)
    decreases |b.queue|
  {
    if !b.finished && !(b.queue == [] && b.inFlight == {}) && b.inFlight == {} && Pumping(b) {
      PumpSettling(b);
      PumpFlags(b);
      LoopFlags(Pump(b), k);
    }
  }

  lemma NeverReopens(b: Bridge, e: Event)
    requires !b.accepting
    ensures !Apply(b, e).accepting && (b.finished ==> Apply(b, e).finished)
  {
    hide Pump;
    hide SettleLoop;
    if Enabled(b, e) {
      match e
      case Settled(final) =>
        if !b.finished && final.ok {
          var c := b.(accepting := false, draining := true, settling := b.settling + [AwaitCalls(final, {})]);
          PumpSettling(c);
          PumpFlags(c);
          LoopFlags(Pump(c), |b.settling|);
        }
      case SettleResume(k) =>
        PumpSettling(b);
        PumpFlags(b);
        LoopFlags(Pump(b), k);
      case Finally(c) => PumpFlags(b.(inFlight := b.inFlight - {c}, active := b.active - 1));
      case _ =>
    }
  }

  /** In any interleaving a settlement takes at most as many turns as the measure says. */
  lemma {:induction false} BoundedTurns(b: Bridge, events: seq<Event>)
    requires Inv(b) && !b.accepting
    ensures Turns(b, events) + Budget(Run(b, events)) <= Budget(b) + 2 * Reports(events)
    decreases |events|
  {
    if events != [] {
      var e := events[0];
      if Progresses(b, e) { ProgressLowers(b, e); } else { OtherEvents(b, e); }
      NeverReopens(b, e);
      StepKeeps(b, e);
      BoundedTurns(Apply(b, e), events[1..]);
    }
  }

  lemma EndingOrDone(b: Bridge, e: Event)
    requires Inv(b) && (Ending(b) || |b.outcomes| == 1)
    ensures Ending(Apply(b, e)) || |Apply(b, e).outcomes| == 1
  {
    var c := Apply(b, e);
    StepKeeps(b, e);
    if Ending(b) && Progresses(b, e) {
      EndingStays(b, e);
    } else if Ending(b) && c.outcomes == [] && Enabled(b, e) && !(b.failing.StopWorker? || b.failing.DrainIssued?) {
      var k: nat :| k < |b.settling| && !b.settling[k].SettleOver?;
      PumpIdle(b);
      if e.Settled? && !b.finished && e.final.ok {
        var d := b.(accepting := false, draining := true, settling := b.settling + [AwaitCalls(e.final, {})]);
        assert Graceless(b, d);
        PumpKeeps(d);
      }
      assert Ending(c) by {
        if c.settling != b.settling { assert k < |c.settling| && !c.settling[k].SettleOver?; }
      }
    }
  }

  /**
   Whatever else happens in between and in whatever order, a settlement that has begun is delivered by the time it has
   taken as many turns as its budget says; until then it stays under way, with a turn that is ready.
   */
  lemma SettlesInAnyOrder(b: Bridge, events: seq<Event>)
    requires Inv(b) && (Ending(b) || |b.outcomes| == 1)
    ensures var r := Run(b, events);
      && (|r.outcomes| == 1 || (Ending(r) && exists e :: Progresses(r, e)))
      && (Turns(b, events) >= Budget(b) + 2 * Reports(events) ==> |r.outcomes| == 1)
  {
    var r := Run(b, events);
    AllEndingOrDone(b, events);
    BoundedTurns(b, events);
    RunKeeps(b, events);
    if |r.outcomes| != 1 {
      var e := SomeTurnReady(r);
      ProgressLowers(r, e);
    }
  }

  lemma {:induction false} AllEndingOrDone(b: Bridge, events: seq<Event>)
    requires Inv(b) && (Ending(b) || |b.outcomes| == 1)
    ensures Ending(Run(b, events)) || |Run(b, events).outcomes| == 1
    ensures !b.accepting
    decreases |events|
  {
    if events != [] {
      EndingOrDone(b, events[0]);
      StepKeeps(b, events[0]);
      AllEndingOrDone(Apply(b, events[0]), events[1..]);
    }
  }

  /** Once a settlement has begun, at most `Measure` such turns deliver it. */
  lemma {:induction false} Settles(b: Bridge) returns (events: seq<Event>)
    requires Inv(b) && Ending(b)
    ensures |events| <= Measure(b) && |Run(b, events).outcomes| == 1
    decreases Measure(b)
  {
    var e := SomeTurnReady(b);
    StepKeeps(b, e);
    ProgressLowers(b, e);
    EndingStays(b, e);
    var c := Apply(b, e);
    if |c.outcomes| == 1 {
      events := [e];
      assert Run(b, events) == Run(c, []);
    } else {
      var rest := Settles(c);
      events := [e] + rest;
      assert events[1..] == rest;
    }
  }
}
