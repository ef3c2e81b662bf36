/** The dispatch bridge as an object: flags, counters and queue change in place, with the loops of the original. */
module CodeModeBridge {
  import opened Wrappers
  import opened CodeMode
  import opened CodeModeProofs

  class CodeModeBridge {
    const lim: Limits
    const tools: set<string>
    var accepting: bool
    var draining: bool
    var finished: bool
    var exited: bool
    var toolCallCount: nat
    var active: int
    var maxConcurrent: int
    var queue: seq<nat>
    var inFlight: set<nat>
    var settling: seq<Settling>
    var failing: Failing
    var outcomes: seq<Outcome>
    var accepted: nat
    ghost var posts: Posts
    ghost var issued: nat
    ghost var answered: set<nat>
    ghost var dropped: nat

    ghost function View(): Bridge
      reads this
    {
      Bridge(lim, tools, accepting, draining, finished, exited, toolCallCount, active, maxConcurrent, queue, inFlight,
             settling, failing, outcomes, posts, accepted, issued, answered, dropped)
    }

    ghost predicate Valid()
      reads this
    {
      Inv(View())
    }

    constructor (lim: Limits, tools: set<string>)
      requires ValidLimits(lim)
      ensures View() == Start(lim, tools) && Valid()
    {
      this.lim, this.tools := lim, tools;
      accepting, draining, finished, exited := true, false, false, false;
      toolCallCount, active, maxConcurrent := 0, 0, 0;
      queue, inFlight, settling, failing, outcomes := [], {}, [], NotFailing, [];
      accepted, posts, issued, answered, dropped := 0, Posts(0, 0, 0), 0, {}, 0;
      new;
      assert View() == Run(Start(lim, tools), []);
      ReachableInv(View());
    }

    /** Start waiting calls while the bridge runs and a slot is free. */
    method Pump()
      modifies this
      ensures View() == CodeMode.Pump(old(View()))
    {
      while (accepting || draining) && active < lim.maxConcurrent && queue != []
        invariant CodeMode.Pump(View()) == CodeMode.Pump(old(View()))
        decreases |queue|
      {
        IssueFirst();
      }
    }

    method IssueFirst()
      requires queue != []
      modifies `queue, `active, `maxConcurrent, `inFlight, `issued
      ensures View() == Issue(old(View()))
    {
      var task := queue[0];
      queue := queue[1..];
      active := active + 1;
      if maxConcurrent < active { maxConcurrent := active; }
      inFlight := inFlight + {task};
      issued := issued + 1;
    }

    /** A dispatch message of the worker; None means the call was queued, otherwise the refusal that is posted. */
    method OnDispatch(call: Call) returns (refusal: Option<Code>)
      requires Valid()
      modifies this
      ensures View() == Apply(old(View()), Dispatch(call)) && Valid()
      ensures refusal ==
        if !old(accepting) then Some(Cancelled)
        else if old(toolCallCount) + 1 > lim.maxToolCalls then Some(ToolCallLimit)
        else if call.tool !in tools then Some(InvalidToolSnapshot)
        else if call.bytes.None? || call.bytes.value > lim.toolInputBytes then Some(ToolInputTooLarge)
        else if !call.parses then Some(ToolDispatchFailed)
        else None
    {
      hide Inv;
      StepKeeps(View(), Dispatch(call));
      assert Apply(View(), Dispatch(call)) == CodeMode.OnDispatch(View(), call);
      hide Apply;
      hide Effect;
      hide CodeMode.Pump;
      hide Posted;
      refusal := Screen(call);
      if refusal.Some? {
        ghost var seen := Received(View());
        PostRefusal();
        assert View() == Posted(seen);
      } else {
        Enqueue();
        Pump();
      }
    }

    // The checks of a dispatch message, in order; the first two count towards the call limit.
    method Screen(call: Call) returns (refusal: Option<Code>)
      modifies `toolCallCount
      ensures toolCallCount == if accepting then old(toolCallCount) + 1 else old(toolCallCount)
      ensures refusal ==
        if !accepting then Some(Cancelled)
        else if toolCallCount > lim.maxToolCalls then Some(ToolCallLimit)
        else if call.tool !in tools then Some(InvalidToolSnapshot)
        else if call.bytes.None? || call.bytes.value > lim.toolInputBytes then Some(ToolInputTooLarge)
        else if !call.parses then Some(ToolDispatchFailed)
        else None
    {
      if !accepting { return Some(Cancelled); }
      toolCallCount := toolCallCount + 1;
      if toolCallCount > lim.maxToolCalls { return Some(ToolCallLimit); }
      if call.tool !in tools { return Some(InvalidToolSnapshot); }
      if call.bytes.None? || call.bytes.value > lim.toolInputBytes { return Some(ToolInputTooLarge); }
      if !call.parses { return Some(ToolDispatchFailed); }
      return None;
    }

    method PostRefusal()
      modifies `posts
      ensures View() == Posted(Received(old(View())))
    {
      posts := posts.(received := posts.received + 1);
      Post();
    }

    // Sends one message, unless the worker is gone.
    method Post()
      modifies `posts
      ensures View() == Posted(old(View()))
    {
      if exited {
        posts := posts.(unheard := posts.unheard + 1);
        return;
      }
      posts := posts.(replied := posts.replied + 1);
    }

    method Enqueue()
      modifies `posts, `queue, `accepted
      ensures View() == Received(old(View())).(queue := old(queue) + [old(accepted)],
                                               accepted := old(accepted) + 1)
    {
      posts := posts.(received := posts.received + 1);
      queue := queue + [accepted];
      accepted := accepted + 1;
    }

    method FailExternal(code: Code)
      requires Valid()
      modifies this
      ensures View() == Apply(old(View()), External(code)) && Valid()
    {
      hide Inv;
      StepKeeps(View(), External(code));
      assert Apply(View(), External(code)) == CodeMode.FailExternal(View(), code);
      hide Apply;
      if !finished { Fail(code); }
    }

    method Fail(code: Code)
      modifies `finished, `accepting, `draining, `dropped, `queue, `failing
      ensures View() == old(View()).(finished := true, accepting := false, draining := false,
        dropped := old(dropped) + |old(queue)|, queue := [], failing := StopWorker(code))
    {
      finished, accepting, draining, dropped, queue, failing := true, false, false, dropped + |queue|, [], StopWorker(code);
    }

    /** The worker's exit; before a settlement it is a failure. */
    method OnExit()
      requires Valid()
      modifies this
      ensures View() == Apply(old(View()), WorkerExited) && Valid()
    {
      hide Inv;
      StepKeeps(View(), WorkerExited);
      assert Apply(View(), WorkerExited) == CodeMode.FailExternal(View().(exited := true), WorkerCrash);
      hide Apply;
      exited := true;
      if !finished { Fail(WorkerCrash); }
    }

    /** The worker reports the end of the program. */
    method SettleFromWorker(final: Final)
      requires Valid()
      modifies this
      ensures View() == Apply(old(View()), Settled(final)) && Valid()
    {
      hide Inv;
      StepKeeps(View(), Settled(final));
      assert Apply(View(), Settled(final)) == OnSettled(View(), final);
      hide Apply;
      hide Effect;
      hide CodeMode.Pump;
      hide SettleLoop;
      if finished { return; }
      if !final.ok {
        Fail(if final.code.Some? then final.code.value else LocalRuntimeError);
        return;
      }
      accepting, draining := false, true;
      settling := settling + [AwaitCalls(final, {})];
      PumpSettling(View());
      Pump();
      ContinueSettling(|settling| - 1);
    }

    // The drain loop of a success, up to its next suspension.
    method ContinueSettling(k: nat)
      requires k < |settling| && !settling[k].SettleOver?
      modifies this
      ensures View() == SettleLoop(old(View()), k)
    {
      var final := settling[k].final;
      while !finished && (queue != [] || inFlight != {})
        invariant k < |settling| && !settling[k].SettleOver? && settling[k].final == final
        invariant SettleLoop(View(), k) == SettleLoop(old(View()), k)
        decreases |queue|
      {
        if inFlight != {} {
          settling := settling[k := AwaitCalls(final, inFlight)];
          return;
        }
        if !((accepting || draining) && active < lim.maxConcurrent) { return; }
        PumpSettling(View());
        Pump();
      }
      if finished {
        settling := settling[k := SettleOver];
        return;
      }
      draining, finished := false, true;
      settling := settling[k := StopGracefully(final)];
    }

    /** `Promise.allSettled` of the snapshot resolves: pump and look again. */
    method SettleResume(k: nat)
      requires Valid() && Enabled(View(), Event.SettleResume(k))
      modifies this
      ensures View() == Apply(old(View()), Event.SettleResume(k)) && Valid()
    {
      hide Inv;
      StepKeeps(View(), Event.SettleResume(k));
      PumpIdle(View());
      Pump();
      ContinueSettling(k);
    }

    /** The worker has stopped after a success: deliver the checked result. */
    method OnGracefulStop(k: nat)
      requires Valid() && Enabled(View(), GracefulStopped(k))
      modifies this
      ensures View() == Apply(old(View()), GracefulStopped(k)) && Valid()
      ensures |outcomes| == 1
    {
      StepKeeps(View(), GracefulStopped(k));
      assert Graceful(View(), k);
      exited := true;
      var final := settling[k].final;
      settling := settling[k := SettleOver];
      if final.bytes.None? {
        outcomes := outcomes + [Rejected(LocalRuntimeError)];
      } else if final.bytes.value > lim.finalResultBytes {
        outcomes := outcomes + [Rejected(FinalResultTooLarge)];
      } else if !final.parses {
        outcomes := outcomes + [Rejected(LocalRuntimeError)];
      } else {
        outcomes := outcomes + [Resolved(toolCallCount, maxConcurrent)];
      }
    }

    /** The host's promise for call `c` has settled and the worker got its reply. */
    method OnAnswer(c: nat)
      requires Valid() && Enabled(View(), Answer(c))
      modifies this
      ensures View() == Apply(old(View()), Answer(c)) && Valid()
    {
      hide Inv;
      StepKeeps(View(), Answer(c));
      answered := answered + {c};
      Post();
    }

    /** The bookkeeping after a settled call frees its slot. */
    method OnFinally(c: nat)
      requires Valid() && Enabled(View(), Finally(c))
      modifies this
      ensures View() == Apply(old(View()), Finally(c)) && Valid()
    {
      hide Inv;
      StepKeeps(View(), Finally(c));
      inFlight := inFlight - {c};
      active := active - 1;
      Pump();
    }

    /** `drainIssued` of a failure: reject once nothing is in flight. */
    method DrainIssuedCalls()
      requires Valid() && (failing.StopWorker? || Enabled(View(), FailResume))
      modifies this
      ensures View() == Apply(old(View()), if old(failing).StopWorker? then FailStopped else FailResume) && Valid()
    {
      hide Inv;
      StepKeeps(View(), if failing.StopWorker? then FailStopped else FailResume);
      var code := failing.code;
      if failing.StopWorker? { exited := true; }
      if inFlight != {} {
        failing := DrainIssued(code, inFlight);
      } else {
        failing := FailOver;
        outcomes := outcomes + [Rejected(code)];
      }
    }
  }
}
