/** The behaviour registry as an object over a live `ScopeRuntime`. */
module ScopedAgentBehavior {
  import opened Wrappers
  import opened ScopeTree
  import opened ScopeInvariants
  import opened AgentBehavior
  import Scopes = ScopeRuntime

  datatype CallError = ContributionDisposed | ScopeNotOpen

  lemma {:induction false} OnlyActiveWithout(list: seq<nat>, entries: seq<Entry>, i: nat, k: nat)
    requires k < |list| && list[k] == i && i < |entries|
    requires forall a, b | 0 <= a < b < |list| :: list[a] != list[b]
    requires forall j | j in list && j != i :: Active(entries, j)
    requires !Active(entries, i)
    ensures OnlyActive(list, entries) == list[..k] + list[k + 1..]
  {
    if k == 0 {
      OnlyActiveAll(list[1..], entries);
    } else {
      assert list[0] in list && list[0] != list[k];
      OnlyActiveWithout(list[1..], entries, i, k - 1);
      WithoutHead(list, k);
    }
  }

  lemma WithoutHead(list: seq<nat>, k: nat)
    requires 0 < k < |list|
    ensures list[..k] + list[k + 1..] == [list[0]] + (list[1..][..k - 1] + list[1..][k..])
  {
  }

  lemma {:induction false} OnlyActiveAll(list: seq<nat>, entries: seq<Entry>)
    requires forall j | j in list :: Active(entries, j)
    ensures OnlyActive(list, entries) == list
  {
    if list != [] { OnlyActiveAll(list[1..], entries); }
  }

  ghost predicate Distinct(list: seq<nat>) {
    forall a, b | 0 <= a < b < |list| :: list[a] != list[b]
  }

  // The registration of `i` has been disposed and that of no other active entry.
  ghost predicate OthersPending(entries: seq<Entry>, regs: seq<Reg>, i: nat) {
    && i < |entries| && entries[i].reg.Some? && entries[i].reg.value < |regs| && !regs[entries[i].reg.value].status.Pending?
    && (forall j | 0 <= j < |entries| && j != i && entries[j].active && entries[j].reg.Some? ::
          entries[j].reg.value >= |regs| || regs[entries[j].reg.value].status.Pending?)
  }

  lemma OneDeactivated(was: seq<Entry>, now: seq<Entry>, regs: seq<Reg>, i: nat)
    requires OthersPending(was, regs, i) && now == was[i := was[i].(active := false)]
    ensures now == Deactivated(was, regs)
  {
  }

  class ScopedAgentBehavior {
    const runtime: Scopes.ScopeRuntime
    const scope: nat
    var entries: seq<Entry>
    var tools: seq<nat>
    var handlers: seq<nat>
    var calls: seq<Call>

    ghost function State(): Behavior
      reads this, runtime
    {
      Behavior(runtime.World(), scope, entries, tools, handlers, calls)
    }

    ghost predicate Valid()
      reads this, runtime
    {
      BehaviorInv(State()) && Distinct(tools) && Distinct(handlers)
    }

    constructor (runtime: Scopes.ScopeRuntime, scope: nat)
      requires runtime.Valid() && scope < |runtime.scopes|
      ensures this.runtime == runtime && this.scope == scope
      ensures State() == Mounted(runtime.World(), scope) && Valid()
    {
      this.runtime, this.scope := runtime, scope;
      entries, tools, handlers, calls := [], [], [], [];
    }

    /** `registerTool` and `onEvent`: the entry is listed first, then its disposer is registered. */
    method Contribute(tool: bool) returns (r: Result<nat, CallError>)
      requires Valid()
      modifies this, runtime
      ensures State() == Step(old(State()), AddEntry(tool)) && Valid()
      ensures r.Ok? <==> old(runtime.scopes[scope].at.Idle?)
    {
      hide Inv;
      StepKeeps(State(), AddEntry(tool));
      runtime.OpenByOwnState(scope);
      var i := |entries|;
      assert forall k | 0 <= k < |tools| :: tools[k] in tools;
      assert forall k | 0 <= k < |handlers| :: handlers[k] in handlers;
      entries := entries + [Entry(tool, None, true)];
      if tool { tools := tools + [i]; } else { handlers := handlers + [i]; }
      var reg := runtime.Register(scope);
      match reg
      case Err(_) => r := Err(ScopeNotOpen);
      case Ok(id) =>
        entries := entries[i := Entry(tool, Some(id), true)];
        r := Ok(i);
    }

    /** The guarded `execute` up to the await of the tool body. */
    method BeginToolCall(i: nat) returns (r: Result<nat, CallError>)
      requires Valid() && i < |entries| && entries[i].tool
      modifies this, runtime
      ensures State() == Step(old(State()), CallTool(i)) && Valid()
      ensures r == if !old(entries[i].active) then Err(ContributionDisposed)
                   else if old(runtime.scopes[scope].at.Idle?) then Ok(|old(calls)|) else Err(ScopeNotOpen)
    {
      StepKeeps(State(), CallTool(i));
      runtime.OpenByOwnState(scope);
      if !entries[i].active { return Err(ContributionDisposed); }
      var admission := runtime.Admit(scope);
      if admission.Err? { return Err(ScopeNotOpen); }
      calls := calls + [Call(admission.value, Some(i), [], false)];
      r := Ok(|calls| - 1);
    }

    /** `getTools`: it asserts that the scope is open, takes an admission and gives it back, and filters. */
    method GetTools() returns (r: Result<seq<nat>, CallError>)
      requires Valid()
      modifies runtime
      ensures State() == Step(old(State()), Move.GetTools) && Valid()
      ensures r == if ToolList(old(State())).Some? then Ok(ToolList(old(State())).value) else Err(ScopeNotOpen)
      ensures r.Ok? ==> forall i: nat :: i in r.value <==> Live(old(State()), i) && entries[i].tool
    {
      StepKeeps(State(), Move.GetTools);
      runtime.OpenByOwnState(scope);
      forall i: nat ensures ToolList(State()).Some? ==> (i in ToolList(State()).value <==> Live(State(), i) && entries[i].tool) {
        ToolsAreLive(State(), i);
      }
      hide Inv;
      if !runtime.scopes[scope].at.Idle? { return Err(ScopeNotOpen); }
      var admission := runtime.Admit(scope);
      if admission.Err? { return Err(ScopeNotOpen); }
      runtime.Release(admission.value);
      r := Ok(OnlyActive(tools, entries));
    }

    /** `emit` up to its handler loop: the snapshot is taken under the admission. */
    method BeginEmit() returns (r: Result<nat, CallError>)
      requires Valid()
      modifies this, runtime
      ensures State() == Step(old(State()), Emit) && Valid()
      ensures r == if old(runtime.scopes[scope].at.Idle?) then Ok(|old(calls)|) else Err(ScopeNotOpen)
    {
      hide Inv;
      StepKeeps(State(), Emit);
      runtime.OpenByOwnState(scope);
      var admission := runtime.Admit(scope);
      if admission.Err? { return Err(ScopeNotOpen); }
      var snapshot := OnlyActive(handlers, entries);
      calls := calls + [Call(admission.value, None, snapshot, false)];
      r := Ok(|calls| - 1);
    }

    /** One turn of the handler loop: skip a disposed entry, run an active one, or leave the loop. */
    method NextHandler(c: nat)
      requires Valid() && Allowed(State(), Move.NextHandler(c))
      modifies this, runtime
      ensures State() == Step(old(State()), Move.NextHandler(c)) && Valid()
    {
      StepKeeps(State(), Move.NextHandler(c));
      assert HoldsAdmission(runtime.World(), scope, calls[c]);
      var k := calls[c];
      if k.rest == [] {
        EndInvocation(c);
      } else {
        calls := calls[c := k.(rest := k.rest[1..], body := if Active(entries, k.rest[0]) then Some(k.rest[0]) else None)];
      }
    }

    /** The awaited body returns or throws; a throw leaves through the `finally`. */
    method BodySettles(c: nat, ok: bool)
      requires Valid() && Allowed(State(), Move.BodySettles(c, ok))
      modifies this, runtime
      ensures State() == Step(old(State()), Move.BodySettles(c, ok)) && Valid()
    {
      StepKeeps(State(), Move.BodySettles(c, ok));
      assert HoldsAdmission(runtime.World(), scope, calls[c]);
      var k := calls[c];
      if ok && k.rest != [] {
        calls := calls[c := k.(body := None)];
      } else {
        EndInvocation(c);
      }
    }

    method EndInvocation(c: nat)
      requires runtime.Valid() && c < |calls| && calls[c].admission < |runtime.adms|
      modifies this, runtime
      ensures State() == EndCall(old(State()), c) && runtime.Valid()
    {
      runtime.Release(calls[c].admission);
      calls := calls[c := calls[c].(body := None, rest := [], ended := true)];
    }

    /**
     The body of entry `i`'s disposer, run by the runtime as the disposer starts: it clears the
     flag and splices the entry out of its list, which is what the whole step does to the registry.
     */
    method RunDisposer(i: nat, ghost was: Behavior)
      requires was.entries == entries && was.tools == tools && was.handlers == handlers
      requires was.calls == calls && was.scope == scope
      requires Distinct(tools) && Distinct(handlers)
      requires forall k | k in tools :: Active(entries, k) && entries[k].tool
      requires forall k | k in handlers :: Active(entries, k) && !entries[k].tool
      requires i < |entries| && entries[i].active && i in (if entries[i].tool then tools else handlers)
      requires OthersPending(entries, runtime.regs, i)
      modifies this
      ensures State() == MoveTree(was, runtime.World())
      ensures Distinct(tools) && Distinct(handlers)
    {
      var tool := entries[i].tool;
      entries := entries[i := entries[i].(active := false)];
      OneDeactivated(was.entries, entries, runtime.regs, i);
      if tool {
        OnlyActiveAll(handlers, entries);
        tools := Splice(tools, i);
      } else {
        OnlyActiveAll(tools, entries);
        handlers := Splice(handlers, i);
      }
    }

    // `list.splice(list.indexOf(i), 1)`
    method Splice(list: seq<nat>, i: nat) returns (r: seq<nat>)
      requires Distinct(list) && i in list && i < |entries| && !entries[i].active
      requires forall k | k in list && k != i :: Active(entries, k)
      ensures r == OnlyActive(list, entries) && Distinct(r)
    {
      var k := 0;
      while list[k] != i
        invariant 0 <= k < |list| && i !in list[..k]
        decreases |list| - k
      {
        k := k + 1;
        assert i in list[k..];
      }
      OnlyActiveWithout(list, entries, i, k);
      r := list[..k] + list[k + 1..];
    }
  }
}
