/**
 The bounded dispatch bridge between a local program in a worker and the host's tools.
 One `Event` is one turn of the event loop; calls are numbered in the order in which the
 bridge accepts them into its queue.
 */
module CodeMode {
  import opened Wrappers

  datatype Limits = Limits(maxToolCalls: int, maxConcurrent: int, toolInputBytes: int, toolResultBytes: int, finalResultBytes: int)

  predicate ValidLimits(lim: Limits) {
    lim.maxToolCalls > 0 && lim.maxConcurrent > 0 && lim.toolInputBytes > 0 && lim.toolResultBytes > 0 && lim.finalResultBytes > 0
  }

  datatype Code =
    | ToolCallLimit | InvalidToolSnapshot | ToolInputTooLarge | ToolResultTooLarge | ToolDispatchFailed
    | FinalResultTooLarge | WallTimeLimit | Cancelled | LocalRuntimeError | WorkerCrash

  // A dispatch message; `bytes` is None when the arguments are no string.
  datatype Call = Call(tool: string, bytes: Option<int>, parses: bool)

  // A settled message of the worker; `bytes` is None when the result is no string.
  datatype Final = Final(ok: bool, code: Option<Code>, bytes: Option<int>, parses: bool)

  datatype Outcome = Resolved(calls: nat, concurrent: nat) | Rejected(code: Code)

  // Where one activation of `settleFromWorker` or `failExternal` is suspended.
  datatype Settling = AwaitCalls(final: Final, snapshot: set<nat>) | StopGracefully(final: Final) | SettleOver
  datatype Failing = NotFailing | StopWorker(code: Code) | DrainIssued(code: Code, snapshot: set<nat>) | FailOver

  // Dispatch messages received, replied to, and replied to after the worker's exit, when nothing is sent any more.
  datatype Posts = Posts(received: nat, replied: nat, unheard: nat)

  datatype Bridge = Bridge(
    lim: Limits, tools: set<string>,
    accepting: bool, draining: bool, finished: bool, exited: bool,
    toolCallCount: nat, active: int, maxConcurrent: int,
    queue: seq<nat>, inFlight: set<nat>,
    settling: seq<Settling>, failing: Failing,
    outcomes: seq<Outcome>,
    // history: dispatch messages and their replies, calls accepted, dispatched to the host, settled by it, dropped
    posts: Posts, accepted: nat, issued: nat, answered: set<nat>, dropped: nat)

  datatype Event =
    | Dispatch(call: Call)
    | Settled(final: Final)
    | External(code: Code)      // abort, wall timer, worker error, invalid message
    | WorkerExited
    | Answer(c: nat)            // the host's promise settles and the reply is posted
    | Finally(c: nat)           // the bookkeeping callback of a settled call
    | SettleResume(k: nat)
    | GracefulStopped(k: nat)
    | FailStopped
    | FailResume

  function Start(lim: Limits, tools: set<string>): Bridge {
    Bridge(lim, tools, true, false, false, false, 0, 0, 0, [], {}, [], NotFailing, [], Posts(0, 0, 0), 0, 0, {}, 0)
  }

  predicate Pumping(b: Bridge) {
    (b.accepting || b.draining) && b.active < b.lim.maxConcurrent && b.queue != []
  }

  function Issue(b: Bridge): Bridge
    requires b.queue != []
  {
    var active := b.active + 1;
    b.(queue := b.queue[1..], active := active, maxConcurrent := if b.maxConcurrent < active then active else b.maxConcurrent,
       inFlight := b.inFlight + {b.queue[0]}, issued := b.issued + 1)
  }

  function Pump(b: Bridge): (r: Bridge)
    ensures |r.queue| <= |b.queue|
    decreases |b.queue|
  {
    if Pumping(b) then Pump(Issue(b)) else b
  }

  /** `post`: after the worker's exit nothing is sent. */
  function Posted(b: Bridge): Bridge {
    b.(posts := if b.exited then b.posts.(unheard := b.posts.unheard + 1) else b.posts.(replied := b.posts.replied + 1))
  }

  function Received(b: Bridge): Bridge {
    b.(posts := b.posts.(received := b.posts.received + 1))
  }

  function OnDispatch(b0: Bridge, call: Call): Bridge {
    var b := Received(b0);
    if !b.accepting then Posted(b)
    else
      var c := b.(toolCallCount := b.toolCallCount + 1);
      if c.toolCallCount > c.lim.maxToolCalls then Posted(c)
      else if call.tool !in c.tools then Posted(c)
      else if call.bytes.None? || call.bytes.value > c.lim.toolInputBytes then Posted(c)
      else if !call.parses then Posted(c)
      else Pump(c.(queue := c.queue + [c.accepted], accepted := c.accepted + 1))
  }

  function FailExternal(b: Bridge, code: Code): Bridge {
    if b.finished then b
    else b.(finished := true, accepting := false, draining := false, dropped := b.dropped + |b.queue|, queue := [],
            failing := StopWorker(code))
  }

  /** The loop of a success up to its next await or its end. */
  function SettleLoop(b: Bridge, k: nat): Bridge
    requires k < |b.settling| && !b.settling[k].SettleOver?
    decreases |b.queue|
  {
    var final := b.settling[k].final;
    if b.finished then b.(settling := b.settling[k := SettleOver])
    else if b.queue == [] && b.inFlight == {} then
      b.(draining := false, finished := true, settling := b.settling[k := StopGracefully(final)])
    else if b.inFlight != {} then b.(settling := b.settling[k := AwaitCalls(final, b.inFlight)])
    else if Pumping(b) then PumpSettling(b); SettleLoop(Pump(b), k)
    else b
  }

  lemma PumpSettling(b: Bridge)
    ensures Pump(b).settling == b.settling && (Pumping(b) ==> |Pump(b).queue| < |b.queue|)
    decreases |b.queue|
  {
    if Pumping(b) { PumpSettling(Issue(b)); }
  }

  function OnSettled(b: Bridge, final: Final): Bridge {
    if b.finished then b
    else if !final.ok then FailExternal(b, if final.code.Some? then final.code.value else LocalRuntimeError)
    else
      var c := Pump(b.(accepting := false, draining := true, settling := b.settling + [AwaitCalls(final, {})]));
      PumpSettling(b.(accepting := false, draining := true, settling := b.settling + [AwaitCalls(final, {})]));
      SettleLoop(c, |b.settling|)
  }

  function FinalOutcome(b: Bridge, final: Final): Outcome {
    if final.bytes.None? then Rejected(LocalRuntimeError)
    else if final.bytes.value > b.lim.finalResultBytes then Rejected(FinalResultTooLarge)
    else if !final.parses then Rejected(LocalRuntimeError)
    else Resolved(b.toolCallCount, if b.maxConcurrent < 0 then 0 else b.maxConcurrent)
  }

  /** `drainIssued`: wait for what is in flight, or reject when nothing is. */
  function DrainLoop(b: Bridge, code: Code): Bridge {
    if b.inFlight == {} then b.(failing := FailOver, outcomes := b.outcomes + [Rejected(code)])
    else b.(failing := DrainIssued(code, b.inFlight))
  }

  predicate Enabled(b: Bridge, e: Event) {
    match e
    case Answer(c) => c in b.inFlight && c !in b.answered
    case Finally(c) => c in b.inFlight && c in b.answered
    case SettleResume(k) => k < |b.settling| && b.settling[k].AwaitCalls? && b.settling[k].snapshot <= b.answered
    case GracefulStopped(k) => k < |b.settling| && b.settling[k].StopGracefully?
    case FailStopped => b.failing.StopWorker?
    case FailResume => b.failing.DrainIssued? && b.failing.snapshot <= b.answered
    case _ => true
  }

  function Effect(b: Bridge, e: Event): Bridge
    requires Enabled(b, e)
  {
    match e
    case Dispatch(call) => OnDispatch(b, call)
    case Settled(final) => OnSettled(b, final)
    case External(code) => FailExternal(b, code)
    case WorkerExited => FailExternal(b.(exited := true), WorkerCrash)
    case Answer(c) => Posted(b.(answered := b.answered + {c}))
    case Finally(c) => Pump(b.(inFlight := b.inFlight - {c}, active := b.active - 1))
    case SettleResume(k) =>
      PumpSettling(b);
      SettleLoop(Pump(b), k)
    case GracefulStopped(k) =>
      b.(exited := true, settling := b.settling[k := SettleOver], outcomes := b.outcomes + [FinalOutcome(b, b.settling[k].final)])
    case FailStopped => DrainLoop(b.(exited := true), b.failing.code)
    case FailResume => DrainLoop(b, b.failing.code)
  }

  function Apply(b: Bridge, e: Event): Bridge {
    if Enabled(b, e) then Effect(b, e) else b
  }

  function Run(b: Bridge, events: seq<Event>): Bridge
    decreases |events|
  {
    if events == [] then b else Run(Apply(b, events[0]), events[1..])
  }
}
