/** What the scope tree promises its users, for every reachable interleaving. */
module ScopeTheorems {
  import opened Wrappers
  import opened ScopeTree
  import opened ScopeInvariants

  // ----- safety: closing is downward closed and admits nothing -----

  lemma {:induction false} DownwardClosed(w: World, i: nat, s: nat)
    requires Inv(w) && i < |w.scopes| && s < |w.scopes| && Under(w.scopes, i, s)
    ensures w.scopes[s].State() != Open ==> w.scopes[i].State() != Open
    ensures w.scopes[s].State() == Closed ==> w.scopes[i].State() == Closed
    decreases i
  {
    if i != s { DownwardClosed(w, w.scopes[i].parent.value, s); }
  }

  lemma {:induction false} HeldCounts(adms: seq<Admission>, a: nat)
    requires a < |adms| && !adms[a].released
    ensures Held(adms, adms[a].scope) > 0
  {
    if a < |adms| - 1 { HeldCounts(adms[..|adms| - 1], a); }
  }

  /** A closed scope holds no unreleased admission, and neither does anything below it. */
  lemma ClosedIsQuiet(w: World, s: nat, a: nat)
    requires Reachable(w) && s < |w.scopes| && w.scopes[s].State() == Closed
    requires a < |w.adms| && Under(w.scopes, w.adms[a].scope, s)
    ensures w.adms[a].released && w.scopes[w.adms[a].scope].State() == Closed
  {
    ReachableInv(w);
    DownwardClosed(w, w.adms[a].scope, s);
    if !w.adms[a].released { HeldCounts(w.adms, a); }
  }

  /** The walk over the ancestors decides nothing that the scope's own state does not. */
  lemma {:induction false} OwnStateDecides(w: World, i: nat)
    requires Inv(w) && i < |w.scopes|
    ensures HierarchyOpen(w.scopes, i) <==> w.scopes[i].State() == Open
    decreases i
  {
    if w.scopes[i].parent.Some? {
      assert Link(w.scopes[w.scopes[i].parent.value], w.scopes[i], i);
      OwnStateDecides(w, w.scopes[i].parent.value);
    }
  }

  predicate Adds(a: Action) {
    a.Register? || a.Provide? || a.Child? || a.Admit?
  }

  /** Nothing is registered, provided, created or admitted at or below a disposing scope. */
  lemma NothingAddedBelow(w: World, a: Action, s: nat)
    requires Reachable(w) && Adds(a) && s < |w.scopes| && w.scopes[s].State() != Open
    requires a.s < |w.scopes| && Under(w.scopes, a.s, s)
    ensures Apply(w, a) == w
  {
    ReachableInv(w);
    DownwardClosed(w, a.s, s);
  }

  lemma ClosedStays(w: World, a: Action, s: nat)
    requires Inv(w) && s < |w.scopes| && w.scopes[s].State() == Closed
    ensures s < |Apply(w, a).scopes| && Apply(w, a).scopes[s].State() == Closed
  {
    if Enabled(w, a) { DoneIsFinal(w, a, s); }
  }

  /** Closed is for ever: whatever happens later, no admission is held at a closed scope. */
  lemma {:induction false} ClosedForever(w: World, actions: seq<Action>, s: nat)
    requires Inv(w) && s < |w.scopes| && w.scopes[s].State() == Closed
    ensures var v := Run(w, actions);
            s < |v.scopes| && v.scopes[s].State() == Closed &&
            forall a | 0 <= a < |v.adms| && v.adms[a].scope == s :: v.adms[a].released
    decreases |actions|
  {
    if actions == [] {
      forall a | 0 <= a < |w.adms| && w.adms[a].scope == s ensures w.adms[a].released {
        if !w.adms[a].released { HeldCounts(w.adms, a); }
      }
    } else {
      ClosedStays(w, actions[0], s);
      InvApply(w, actions[0]);
      ClosedForever(Apply(w, actions[0]), actions[1..], s);
    }
  }

  // ----- disposers -----

  /** Once a scope is closed each of its disposers has run exactly once and has settled. */
  lemma ExactlyOnce(w: World, r: nat)
    requires Reachable(w) && r < |w.regs|
    ensures w.regs[r].owner < |w.scopes|
    ensures w.scopes[w.regs[r].owner].State() == Closed ==>
      w.regs[r].status.Settled? && exists i :: 0 <= i < |w.starts| && w.starts[i].reg == r
    ensures forall i, j | 0 <= i < |w.starts| && 0 <= j < |w.starts| && w.starts[i].reg == w.starts[j].reg :: i == j
  {
    ReachableInv(w);
    assert Owns(w.scopes[w.regs[r].owner], w.regs, w.regs[r].owner);
    assert !w.regs[r].status.Pending? <==> HasStarted(w.starts, r);
  }

  /** The disposers a scope runs itself go in reverse order of registration. */
  lemma ReverseRegistrationOrder(w: World, i: nat, j: nat)
    requires Reachable(w) && i < j < |w.starts| && w.starts[i].byScope && w.starts[j].byScope
    requires w.starts[i].reg < |w.regs| && w.starts[j].reg < |w.regs|
    requires w.regs[w.starts[i].reg].owner == w.regs[w.starts[j].reg].owner
    ensures w.starts[i].reg > w.starts[j].reg
  {
    ReachableInv(w);
  }

  lemma {:induction false} BelowDisposing(w: World, i: nat, s: nat)
    requires Inv(w) && i < |w.scopes| && s < |w.scopes| && Under(w.scopes, i, s) && w.scopes[s].at.Disposing?
    ensures w.scopes[i].active == 0 && (i != s ==> w.scopes[i].at.Done?)
    decreases i
  {
    if i != s {
      var p := w.scopes[i].parent.value;
      assert Link(w.scopes[p], w.scopes[i], i);
      BelowDisposing(w, p, s);
    }
  }

  /** A scope starts a disposer only with all descendants closed and no admission held at or below it. */
  lemma StartsWhenQuiet(w: World, a: Action, i: nat)
    requires Reachable(w) && |Apply(w, a).starts| > |w.starts| && Apply(w, a).starts[|w.starts|].byScope
    requires i < |w.scopes| && Under(w.scopes, i, a.s)
    ensures a.StartNext? && (i != a.s ==> w.scopes[i].State() == Closed)
    ensures forall k | 0 <= k < |w.adms| && w.adms[k].scope == i :: w.adms[k].released
  {
    ReachableInv(w);
    BelowDisposing(w, i, a.s);
    forall k | 0 <= k < |w.adms| && w.adms[k].scope == i ensures w.adms[k].released {
      if !w.adms[k].released { HeldCounts(w.adms, k); }
    }
  }

  // ----- errors -----

  /** `dispose` of a closed scope rejects exactly when one of its own disposers threw or an awaited child rejected. */
  lemma RejectsIff(w: World, s: nat)
    requires Reachable(w) && s < |w.scopes| && w.scopes[s].State() == Closed
    ensures w.scopes[s].errors != [] <==>
      (exists r :: 0 <= r < |w.regs| && w.regs[r].owner == s && w.regs[r].status == Settled(false)) ||
      (exists c :: c in w.scopes[s].awaited && c < |w.scopes| && w.scopes[c].errors != [])
    ensures forall r | 0 <= r < |w.regs| && w.regs[r].owner == s && w.regs[r].status == Settled(false) ::
      DisposerFailed(r) in w.scopes[s].errors
  {
    ReachableInv(w);
    var x := w.scopes[s];
    assert Sound(w, x, s) && ChildrenReported(w, x) && DisposersReported(w, x, s);
    if x.errors != [] {
      assert x.errors[0] in x.errors;
    }
    if c :| c in x.awaited && c < |w.scopes| && w.scopes[c].errors != [] {
      assert ChildReported(w, x, c);
    }
  }

  // `d` is awaited by its parent, that one by its own parent, and so on up to `s`.
  ghost predicate AwaitedUp(sc: seq<Scope>, d: nat, s: nat)
    decreases d
  {
    d == s || (d < |sc| && sc[d].parent.Some? && sc[d].parent.value < d &&
               d in sc[sc[d].parent.value].awaited && AwaitedUp(sc, sc[d].parent.value, s))
  }

  lemma {:induction false} FlipAwaits(sc: seq<Scope>, d: nat, s: nat)
    requires Linked(sc) && d < |sc| && s < |sc| && sc[s].at.Idle? && Under(sc, d, s) && !sc[d].at.Done?
    ensures AwaitedUp(Flip(sc, s), d, s)
    decreases d
  {
    if d != s {
      var p := sc[d].parent.value;
      assert Link(sc[p], sc[d], d);
      FlipAwaits(sc, p, s);
    }
  }

  lemma AwaitedFixed(w: World, a: Action, p: nat)
    requires Linked(w.scopes) && Enabled(w, a) && p < |w.scopes|
    ensures p < |Effect(w, a).scopes| && Effect(w, a).scopes[p].parent == w.scopes[p].parent
    ensures w.scopes[p].awaited <= Effect(w, a).scopes[p].awaited
  {
  }

  lemma {:induction false} AwaitedKept(w: World, a: Action, d: nat, s: nat)
    requires Inv(w) && AwaitedUp(w.scopes, d, s) && d < |w.scopes|
    ensures AwaitedUp(Apply(w, a).scopes, d, s) && d < |Apply(w, a).scopes|
    decreases d
  {
    if d != s {
      var p := w.scopes[d].parent.value;
      AwaitedKept(w, a, p, s);
      if Enabled(w, a) {
        AwaitedFixed(w, a, d);
        AwaitedFixed(w, a, p);
      }
    }
  }

  lemma {:induction false} AwaitedRun(w: World, actions: seq<Action>, d: nat, s: nat)
    requires Inv(w) && AwaitedUp(w.scopes, d, s) && d < |w.scopes|
    ensures AwaitedUp(Run(w, actions).scopes, d, s) && d < |Run(w, actions).scopes|
    decreases |actions|
  {
    hide Inv;
    hide Apply;
    if actions != [] {
      AwaitedKept(w, actions[0], d, s);
      InvApply(w, actions[0]);
      AwaitedRun(Apply(w, actions[0]), actions[1..], d, s);
    }
  }

  lemma {:induction false} ErrorsPropagate(w: World, d: nat, s: nat)
    requires Inv(w) && d < |w.scopes| && s < |w.scopes| && w.scopes[s].at.Done? && AwaitedUp(w.scopes, d, s)
    ensures w.scopes[d].at.Done?
    ensures w.scopes[d].errors != [] ==> w.scopes[s].errors != []
    decreases d
  {
    if d != s {
      var p := w.scopes[d].parent.value;
      ErrorsPropagate(w, p, s);
      assert Link(w.scopes[p], w.scopes[d], d);
      assert ChildrenReported(w, w.scopes[p]);
      assert ChildReported(w, w.scopes[p], d);
    }
  }

  lemma ApplyDispose(w: World, s: nat)
    requires s < |w.scopes|
    ensures Apply(w, Dispose(s)) == if w.scopes[s].at.Idle? then w.(scopes := Flip(w.scopes, s)) else w
  {
  }

  lemma FailureReported(w: World, d: nat, s: nat, r: nat)
    requires Inv(w) && d < |w.scopes| && s < |w.scopes| && w.scopes[s].at.Done? && AwaitedUp(w.scopes, d, s)
    requires r < |w.regs| && w.regs[r].owner == d && w.regs[r].status == Settled(false)
    ensures w.scopes[s].errors != []
  {
    ErrorsPropagate(w, d, s);
    assert DisposersReported(w, w.scopes[d], d);
  }

  lemma FailureAfter(u: World, actions: seq<Action>, d: nat, s: nat, r: nat)
    requires Inv(u) && d < |u.scopes| && AwaitedUp(u.scopes, d, s)
    requires var v := Run(u, actions);
      s < |v.scopes| && v.scopes[s].State() == Closed &&
      r < |v.regs| && v.regs[r].owner == d && v.regs[r].status == Settled(false)
    ensures Run(u, actions).scopes[s].errors != []
  {
    AwaitedRun(u, actions, d, s);
    InvRun(u, actions);
    FailureReported(Run(u, actions), d, s, r);
  }

  /** A disposer that throws anywhere in the subtree being disposed makes the outermost `dispose` reject. */
  lemma FailureReachesDisposer(w: World, u: World, actions: seq<Action>, s: nat, d: nat, r: nat)
    requires Reachable(w) && s < |w.scopes| && w.scopes[s].State() == Open && u == Apply(w, Dispose(s))
    requires d < |w.scopes| && Under(w.scopes, d, s) && w.scopes[d].State() != Closed
    requires var v := Run(u, actions);
      s < |v.scopes| && v.scopes[s].State() == Closed &&
      r < |v.regs| && v.regs[r].owner == d && v.regs[r].status == Settled(false)
    ensures Run(u, actions).scopes[s].errors != []
  {
    hide Run;
    hide Apply;
    ReachableInv(w);
    FlipAwaits(w.scopes, d, s);
    ApplyDispose(w, s);
    InvApply(w, Dispose(s));
    FailureAfter(u, actions, d, s, r);
  }
}
