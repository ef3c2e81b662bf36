/**
 The scope tree as an object whose methods update it in place.  Each method is one
 stretch of code between two awaits and is proved to be one action of `ScopeTree`.
 */
module ScopeRuntime {
  import opened Wrappers
  import opened ScopeTree
  import opened ScopeInvariants
  import opened ScopeTheorems

  datatype ScopeError = NotOpen | DuplicateBinding | ServiceNotFound

  lemma {:induction false} UnderBound(sc: seq<Scope>, i: nat, s: nat)
    requires Linked(sc) && Under(sc, i, s) && i < |sc|
    ensures s <= i
    decreases i
  {
    if i != s { UnderBound(sc, sc[i].parent.value, s); }
  }

  lemma {:induction false} UnderTrans(sc: seq<Scope>, i: nat, c: nat, s: nat)
    requires Under(sc, i, c) && Under(sc, c, s)
    ensures Under(sc, i, s)
    decreases i
  {
    if i != c { UnderTrans(sc, sc[i].parent.value, c, s); }
  }

  // Below `s`, and not at it, means below one of its children.
  lemma {:induction false} UnderChild(sc: seq<Scope>, i: nat, s: nat) returns (c: nat)
    requires Linked(sc) && i < |sc| && Under(sc, i, s) && i != s
    ensures c < |sc| && IsChild(sc, c, s) && Under(sc, i, c)
    decreases i
  {
    if sc[i].parent.value == s {
      c := i;
    } else {
      c := UnderChild(sc, sc[i].parent.value, s);
    }
  }

  lemma {:induction false} SiblingsDisjoint(sc: seq<Scope>, i: nat, c: nat, d: nat, s: nat)
    requires Linked(sc) && i < |sc| && IsChild(sc, c, s) && IsChild(sc, d, s) && Under(sc, i, c) && Under(sc, i, d)
    ensures c == d
    decreases i
  {
    if i == c || i == d {
      if i == c && i != d { UnderBound(sc, s, d); }
      if i == d && i != c { UnderBound(sc, s, c); }
    } else {
      SiblingsDisjoint(sc, sc[i].parent.value, c, d, s);
    }
  }

  lemma {:induction false} NotIdleBelow(sc: seq<Scope>, i: nat, s: nat)
    requires Linked(sc) && i < |sc| && s < |sc| && Under(sc, i, s) && !sc[s].at.Idle?
    ensures !sc[i].at.Idle?
    decreases i
  {
    if i != s {
      assert Link(sc[sc[i].parent.value], sc[i], i);
      NotIdleBelow(sc, sc[i].parent.value, s);
    }
  }

  ghost function Flipped(x: Scope): Scope {
    if x.at.Idle? then Begun(x) else x
  }

  ghost predicate Visited(sc: seq<Scope>, i: nat, done: set<nat>) {
    exists c :: c in done && Under(sc, i, c)
  }

  lemma BelowChild(sc: seq<Scope>, c: nat, s: nat)
    requires Linked(sc) && s < |sc| && c in sc[s].children
    ensures IsChild(sc, c, s)
    ensures forall i | 0 <= i < |sc| && Under(sc, i, c) :: Under(sc, i, s) && i != s
  {
    assert IsChild(sc, c, s);
    forall i | 0 <= i < |sc| && Under(sc, i, c) ensures Under(sc, i, s) && i != s {
      UnderTrans(sc, i, c, s);
      UnderBound(sc, i, c);
    }
  }

  class ScopeRuntime {
    var scopes: seq<Scope>
    var regs: seq<Reg>
    var adms: seq<Admission>
    ghost var starts: seq<Start>

    ghost function World(): World
      reads this
    {
      ScopeTree.World(scopes, regs, adms, starts)
    }

    ghost predicate Valid()
      reads this
    {
      Inv(World())
    }

    constructor ()
      ensures World() == InitialWorld && Valid()
    {
      scopes, regs, adms, starts := [NewScope], [], [], [];
      new;
      assert World() == Run(InitialWorld, []);
      ReachableInv(World());
    }

    method AssertHierarchyOpen(s: nat) returns (ok: bool)
      requires Valid() && s < |scopes|
      ensures ok <==> HierarchyOpen(scopes, s)
    {
      var cursor: Option<nat> := Some(s);
      ok := true;
      while cursor.Some?
        invariant cursor.Some? ==> cursor.value < |scopes|
        invariant HierarchyOpen(scopes, s) <==> (cursor.Some? ==> HierarchyOpen(scopes, cursor.value))
        decreases if cursor.Some? then cursor.value + 1 else 0
      {
        if !scopes[cursor.value].at.Idle? { return false; }
        cursor := scopes[cursor.value].parent;
      }
    }

    /** The binding of the nearest scope at or above `s`, provided the whole path to the root is open. */
    method Resolve(s: nat, key: nat) returns (r: Result<nat, ScopeError>)
      requires Valid() && s < |scopes|
      ensures !scopes[s].at.Idle? ==> r == Err(NotOpen)
      ensures scopes[s].at.Idle? ==>
        r == if Nearest(scopes, s, key).Some? then Ok(Nearest(scopes, s, key).value) else Err(ServiceNotFound)
    {
      OpenByOwnState(s);
      var open := AssertHierarchyOpen(s);
      if !open { return Err(NotOpen); }
      var cursor: Option<nat> := Some(s);
      while cursor.Some?
        invariant cursor.Some? ==> cursor.value < |scopes| && HierarchyOpen(scopes, cursor.value)
        invariant Nearest(scopes, s, key) == if cursor.Some? then Nearest(scopes, cursor.value, key) else None
        decreases if cursor.Some? then cursor.value + 1 else 0
      {
        var x := scopes[cursor.value];
        if !x.at.Idle? { return Err(NotOpen); }
        if key in x.services { return Ok(x.services[key]); }
        cursor := x.parent;
      }
      return Err(ServiceNotFound);
    }

    lemma {:induction false} OpenByOwnState(s: nat)
      requires Valid() && s < |scopes|
      ensures HierarchyOpen(scopes, s) <==> scopes[s].at.Idle?
      decreases s
    {
      if scopes[s].parent.Some? {
        assert Link(scopes[scopes[s].parent.value], scopes[s], s);
        OpenByOwnState(scopes[s].parent.value);
      }
    }

    method Register(s: nat) returns (r: Result<nat, ScopeError>)
      requires Valid() && s < |scopes|
      modifies this
      ensures World() == Apply(old(World()), Action.Register(s)) && Valid()
      ensures r == if old(scopes[s].at.Idle?) then Ok(|old(regs)|) else Err(NotOpen)
    {
      InvApply(World(), Action.Register(s));
      OpenByOwnState(s);
      var open := AssertHierarchyOpen(s);
      if !open { return Err(NotOpen); }
      r := Ok(|regs|);
      scopes := scopes[s := scopes[s].(registrations := scopes[s].registrations + [|regs|])];
      regs := regs + [Reg(s, Callback, Pending)];
    }

    method Provide(s: nat, key: nat) returns (r: Result<nat, ScopeError>)
      requires Valid() && s < |scopes|
      modifies this
      ensures World() == Apply(old(World()), Action.Provide(s, key)) && Valid()
      ensures r == if !old(scopes[s].at.Idle?) then Err(NotOpen)
                   else if key in old(scopes[s].services) then Err(DuplicateBinding)
                   else Ok(|old(regs)|)
    {
      InvApply(World(), Action.Provide(s, key));
      OpenByOwnState(s);
      var open := AssertHierarchyOpen(s);
      if !open { return Err(NotOpen); }
      if key in scopes[s].services { return Err(DuplicateBinding); }
      r := Ok(|regs|);
      scopes := scopes[s := scopes[s].(registrations := scopes[s].registrations + [|regs|],
                                       services := scopes[s].services[key := |regs|])];
      regs := regs + [Reg(s, Binding(key), Pending)];
    }

    method Child(s: nat) returns (r: Result<nat, ScopeError>)
      requires Valid() && s < |scopes|
      modifies this
      ensures World() == Apply(old(World()), Action.Child(s)) && Valid()
      ensures r == if old(scopes[s].at.Idle?) then Ok(|old(scopes)|) else Err(NotOpen)
    {
      InvApply(World(), Action.Child(s));
      OpenByOwnState(s);
      var open := AssertHierarchyOpen(s);
      if !open { return Err(NotOpen); }
      var c := |scopes|;
      scopes := scopes[s := scopes[s].(children := scopes[s].children + {c})] + [NewScope.(parent := Some(s))];
      r := Ok(c);
    }

    method Admit(s: nat) returns (r: Result<nat, ScopeError>)
      requires Valid() && s < |scopes|
      modifies this
      ensures World() == Apply(old(World()), Action.Admit(s)) && Valid()
      ensures r == if old(scopes[s].at.Idle?) then Ok(|old(adms)|) else Err(NotOpen)
    {
      InvApply(World(), Action.Admit(s));
      OpenByOwnState(s);
      var open := AssertHierarchyOpen(s);
      if !open { return Err(NotOpen); }
      scopes := scopes[s := scopes[s].(active := scopes[s].active + 1)];
      r := Ok(|adms|);
      adms := adms + [Admission(s, false)];
    }

    /** Releasing twice is harmless; the last release of a closing scope wakes its disposal. */
    method Release(a: nat)
      requires Valid() && a < |adms|
      modifies this
      ensures World() == Apply(old(World()), Action.Release(a)) && Valid()
    {
      InvApply(World(), Action.Release(a));
      if adms[a].released { return; }
      var s := adms[a].scope;
      adms := adms[a := adms[a].(released := true)];
      if scopes[s].active == 0 { return; }
      scopes := scopes[s := scopes[s].(active := scopes[s].active - 1)];
      if scopes[s].active != 0 { return; }
      if scopes[s].at.Draining? {
        scopes := scopes[s := scopes[s].(at := scopes[s].at.(drained := true))];
      }
    }

    /** One call of `dispose`: the whole open part of the subtree is closing before it returns. */
    method Dispose(s: nat)
      requires Valid() && s < |scopes|
      modifies this
      ensures World() == Apply(old(World()), Action.Dispose(s)) && Valid()
    {
      InvApply(World(), Action.Dispose(s));
      ApplyDispose(World(), s);
      hide Apply;
      hide Registered;
      hide Bound;
      hide StartsOk;
      hide Reported;
      hide Counted;
      ghost var was := scopes;
      var started := DisposeFrom(s, was);
      if was[s].at.Idle? {
        assert scopes == Flip(was, s);
      } else {
        forall i | 0 <= i < |was| && Under(was, i, s) ensures scopes[i] == was[i] { NotIdleBelow(was, i, s); }
        assert scopes == was;
      }
    }

    // The recursive call under a dispose in progress: `was` is the tree as the outermost call found it,
    // and nothing at or below `s` has been touched since.
    method DisposeFrom(s: nat, ghost was: seq<Scope>) returns (started: bool)
      requires Linked(was) && s < |scopes| == |was|
      requires forall i | 0 <= i < |was| && Under(was, i, s) :: scopes[i] == was[i]
      modifies `scopes
      ensures |scopes| == |was| && started == was[s].at.Idle?
      ensures forall i | 0 <= i < |was| && Under(was, i, s) :: scopes[i] == Flipped(was[i])
      ensures forall i | 0 <= i < |was| && !Under(was, i, s) :: scopes[i] == old(scopes[i])
      decreases |scopes| - s
    {
      if !scopes[s].at.Idle? {
        forall i | 0 <= i < |was| && Under(was, i, s) ensures !was[i].at.Idle? { NotIdleBelow(was, i, s); }
        return false;
      }
      started := true;
      var children := scopes[s].children;
      scopes := scopes[s := scopes[s].(at := Draining(children, false), awaited := children)];
      var left := children;
      while left != {}
        invariant left <= children == was[s].children && |scopes| == |was|
        invariant scopes[s] == Begun(was[s]).(at := Draining(children, false))
        invariant forall i | 0 <= i < |was| && i != s && !Visited(was, i, children - left) :: scopes[i] == old(scopes[i])
        invariant forall i, c | 0 <= i < |was| && c in children - left && Under(was, i, c) :: scopes[i] == Flipped(was[i])
        decreases left
      {
        var c :| c in left;
        BelowChild(was, c, s);
        forall i | 0 <= i < |was| && Under(was, i, c) ensures !Visited(was, i, children - left) {
          if d :| d in children - left && Under(was, i, d) {
            assert IsChild(was, d, s);
            SiblingsDisjoint(was, i, c, d, s);
          }
        }
        ghost var mid := scopes;
        var _ := DisposeFrom(c, was);
        forall i | 0 <= i < |was| && i != s && !Visited(was, i, children - (left - {c})) ensures scopes[i] == old(scopes[i]) {
          assert !Under(was, i, c) && !Visited(was, i, children - left);
        }
        forall i, d | 0 <= i < |was| && d in children - (left - {c}) && Under(was, i, d) ensures scopes[i] == Flipped(was[i]) {
          if d != c && Under(was, i, c) { }
        }
        left := left - {c};
      }
      forall i | 0 <= i < |was| && Under(was, i, s) && i != s ensures scopes[i] == Flipped(was[i]) {
        var c := UnderChild(was, i, s);
        if c !in children {
          assert Link(was[s], was[c], c);
          NotIdleBelow(was, i, c);
          if d :| d in children && Under(was, i, d) {
            assert IsChild(was, d, s);
            SiblingsDisjoint(was, i, c, d, s);
          }
          assert !Visited(was, i, children - left);
        }
      }
      forall i | 0 <= i < |was| && !Under(was, i, s) ensures scopes[i] == old(scopes[i]) {
        if c :| c in children - left && Under(was, i, c) { BelowChild(was, c, s); }
      }
      scopes := scopes[s := scopes[s].(at := scopes[s].at.(drained := scopes[s].active == 0))];
    }

    /** `RegistrationImpl.dispose` called by its holder: only the first call starts the disposer. */
    method DisposeRegistration(r: nat)
      requires Valid() && r < |regs|
      modifies this
      ensures World() == Apply(old(World()), DisposeReg(r)) && Valid()
    {
      InvApply(World(), DisposeReg(r));
      if !regs[r].status.Pending? { return; }
      StartDisposer(r, false);
    }

    // The synchronous part of a disposer; a service binding is removed if it is still this registration's.
    method StartDisposer(r: nat, ghost byScope: bool)
      requires r < |regs| && regs[r].owner < |scopes|
      modifies this
      ensures World() == StartReg(old(World()), r, byScope)
    {
      var reg := regs[r];
      regs := regs[r := reg.(status := Started)];
      starts := starts + [Start(r, byScope)];
      if reg.kind.Binding? {
        var x := scopes[reg.owner];
        if reg.kind.key in x.services && x.services[reg.kind.key] == r {
          scopes := scopes[reg.owner := x.(services := x.services - {reg.kind.key})];
        }
      }
    }

    /** The promise of a running disposer settles, by return or by throw. */
    method OnDisposerSettled(r: nat, ok: bool)
      requires Valid() && Enabled(World(), Settle(r, ok))
      modifies this
      ensures World() == Apply(old(World()), Settle(r, ok)) && Valid()
    {
      hide Inv;
      InvApply(World(), Settle(r, ok));
      regs := regs[r := regs[r].(status := Settled(ok))];
    }

    /** A child's disposal that this scope awaits has settled; a rejection is kept. */
    method OnChildSettled(s: nat, c: nat)
      requires Valid() && Enabled(World(), ChildSettled(s, c))
      modifies this
      ensures World() == Apply(old(World()), ChildSettled(s, c)) && Valid()
    {
      hide Inv;
      InvApply(World(), ChildSettled(s, c));
      var x := scopes[s];
      if scopes[c].errors != [] { x := x.(errors := x.errors + [ChildFailed(c)]); }
      scopes := scopes[s := x.(at := x.at.(awaiting := x.at.awaiting - {c}))];
    }

    /** All children and admissions are gone: snapshot the registrations in reverse. */
    method OnQuiet(s: nat)
      requires Valid() && Enabled(World(), BeginDisposers(s))
      modifies this
      ensures World() == Apply(old(World()), BeginDisposers(s)) && Valid()
    {
      hide Inv;
      InvApply(World(), BeginDisposers(s));
      scopes := scopes[s := scopes[s].(children := {}, at := Disposing(Reversed(scopes[s].registrations)))];
    }

    /** The walk reaches a registration nobody disposed yet. */
    method DisposeNext(s: nat)
      requires Valid() && Enabled(World(), StartNext(s))
      modifies this
      ensures World() == Apply(old(World()), StartNext(s)) && Valid()
    {
      hide Inv;
      InvApply(World(), StartNext(s));
      StartDisposer(scopes[s].at.todo[0], true);
    }

    /** The awaited disposer is settled: keep its error and go on. */
    method OnDisposerAwaited(s: nat)
      requires Valid() && Enabled(World(), Advance(s))
      modifies this
      ensures World() == Apply(old(World()), Advance(s)) && Valid()
    {
      hide Inv;
      InvApply(World(), Advance(s));
      var x := scopes[s];
      var r := x.at.todo[0];
      if !regs[r].status.ok { x := x.(errors := x.errors + [DisposerFailed(r)]); }
      scopes := scopes[s := x.(at := Disposing(x.at.todo[1..]))];
    }

    /** The end of the disposal; `rejected` tells whether the promise rejects. */
    method FinishDispose(s: nat) returns (rejected: bool)
      requires Valid() && Enabled(World(), Finish(s))
      modifies this
      ensures World() == Apply(old(World()), Finish(s)) && Valid()
      ensures rejected <==> scopes[s].errors != []
    {
      InvApply(World(), Finish(s));
      scopes := scopes[s := scopes[s].(registrations := [], services := map[], at := Done)];
      if scopes[s].parent.Some? {
        var p := scopes[s].parent.value;
        scopes := scopes[p := scopes[p].(children := scopes[p].children - {s})];
      }
      rejected := scopes[s].errors != [];
    }
  }
}
