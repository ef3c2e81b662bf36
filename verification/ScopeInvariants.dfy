/** What every interleaving of the scope tree keeps. */
module ScopeInvariants {
  import opened Wrappers
  import opened ScopeTree

  // ----- what a step leaves alone -----

  // Owners are fixed and a settled registration stays settled.
  ghost predicate RegsKept(regs: seq<Reg>, next: seq<Reg>) {
    && |regs| <= |next|
    && (forall r | 0 <= r < |regs| :: next[r].owner == regs[r].owner && (regs[r].status.Settled? ==> next[r] == regs[r]))
  }

  lemma RegsStep(w: World, a: Action)
    requires Enabled(w, a)
    ensures RegsKept(w.regs, Effect(w, a).regs) && |w.scopes| <= |Effect(w, a).scopes|
    ensures forall r | |w.regs| <= r < |Effect(w, a).regs| ::
      Effect(w, a).regs[r].owner < |w.scopes| && w.scopes[Effect(w, a).regs[r].owner].at.Idle?
  {
  }

  // The steps of the scope's own disposal.
  predicate OwnStep(a: Action, s: nat) {
    (a.ChildSettled? || a.BeginDisposers? || a.Advance? || a.Finish?) && a.s == s
  }

  lemma OthersStep(w: World, a: Action, s: nat)
    requires Enabled(w, a) && s < |w.scopes| && !w.scopes[s].at.Idle? && !OwnStep(a, s)
    ensures s < |Effect(w, a).scopes|
    ensures var x, y := w.scopes[s], Effect(w, a).scopes[s];
      && y.registrations == x.registrations && y.awaited == x.awaited && y.errors == x.errors
      && (y.at == x.at || (x.at.Draining? && y.at.Draining? && y.at.awaiting == x.at.awaiting))
  {
  }

  lemma StartsStep(w: World, a: Action)
    requires Enabled(w, a)
    ensures Effect(w, a).starts == w.starts ||
      exists r: nat, b :: Effect(w, a).starts == w.starts + [Start(r, b)] && r < |w.regs| && w.regs[r].status.Pending? &&
                     (b ==> a.StartNext? && r == w.scopes[a.s].at.todo[0])
  {
    match a
    case DisposeReg(r) => assert Effect(w, a).starts == w.starts + [Start(r, false)];
    case StartNext(s) => assert Effect(w, a).starts == w.starts + [Start(w.scopes[s].at.todo[0], true)];
    case _ =>
  }

  // ----- links between a scope and its parent -----

  ghost predicate Link(px: Scope, x: Scope, i: nat) {
    && (x.at.Done? || i in px.children)
    && (!px.at.Idle? ==> !x.at.Idle?)
    && (px.at.Disposing? || px.at.Done? ==> x.at.Done?)
    && (px.at.Draining? && !x.at.Done? ==> i in px.at.awaiting)
  }

  ghost predicate IsChild(sc: seq<Scope>, c: nat, i: nat) {
    c < |sc| && i < c && sc[c].parent == Some(i)
  }

  ghost predicate Linked(sc: seq<Scope>) {
    && (forall i | 0 <= i < |sc| && sc[i].parent.Some? :: sc[i].parent.value < i && Link(sc[sc[i].parent.value], sc[i], i))
    && (forall i, c | 0 <= i < |sc| && c in sc[i].children :: IsChild(sc, c, i))
    && (forall i, c | 0 <= i < |sc| && c in sc[i].awaited :: IsChild(sc, c, i))
    && (forall i, c | 0 <= i < |sc| && sc[i].at.Draining? && c in sc[i].at.awaiting :: c in sc[i].awaited)
    && (forall i | 0 <= i < |sc| && sc[i].at.Idle? :: sc[i].awaited == {} && sc[i].errors == [])
  }

  // Replacing one scope keeps the links when it still fits its parent and its children.
  lemma LinkedUpdate(sc: seq<Scope>, s: nat, x: Scope)
    requires Linked(sc) && s < |sc| && x.parent == sc[s].parent
    requires x.parent.Some? ==> Link(sc[x.parent.value], x, s)
    requires forall i | 0 <= i < |sc| && sc[i].parent == Some(s) :: Link(x, sc[i], i)
    requires x.children <= sc[s].children && x.awaited == sc[s].awaited
    requires x.at.Draining? ==> x.at.awaiting <= x.awaited
    requires x.at.Idle? ==> sc[s].at.Idle? && x.errors == []
    ensures Linked(sc[s := x])
  {
    var t := sc[s := x];
    forall i | 0 <= i < |t| && t[i].parent.Some?
      ensures t[i].parent.value < i && Link(t[t[i].parent.value], t[i], i)
    {
      assert t[i].parent == sc[i].parent;
      assert sc[i].parent.value < i;
    }
    forall i, c | 0 <= i < |t| && c in t[i].children ensures IsChild(t, c, i) {
      assert c in sc[i].children;
      assert IsChild(sc, c, i);
    }
    forall i, c | 0 <= i < |t| && c in t[i].awaited ensures IsChild(t, c, i) {
      assert c in sc[i].awaited;
      assert IsChild(sc, c, i);
    }
  }

  // A scope that keeps its place in the tree and its progress.
  lemma LinkedSame(sc: seq<Scope>, s: nat, x: Scope)
    requires Linked(sc) && s < |sc| && x == sc[s].(registrations := x.registrations, services := x.services, active := x.active)
    ensures Linked(sc[s := x])
  {
    LinkedUpdate(sc, s, x);
  }

  lemma LinkedChild(w: World, s: nat)
    requires Linked(w.scopes) && s < |w.scopes| && w.scopes[s].at.Idle?
    ensures Linked(AddChild(w, s).scopes)
  {
    var sc, t := w.scopes, AddChild(w, s).scopes;
    forall i | 0 <= i < |t| && t[i].parent.Some?
      ensures t[i].parent.value < i && Link(t[t[i].parent.value], t[i], i)
    {
      if i < |sc| {
        assert t[i].parent == sc[i].parent && sc[i].parent.value < i && Link(sc[sc[i].parent.value], sc[i], i);
      }
    }
    forall i, c | 0 <= i < |t| && c in t[i].children ensures IsChild(t, c, i) {
      if c < |sc| {
        assert i < |sc| && c in sc[i].children;
        assert IsChild(sc, c, i);
      }
    }
    forall i, c | 0 <= i < |t| && c in t[i].awaited ensures IsChild(t, c, i) {
      assert i < |sc| && c in sc[i].awaited;
      assert IsChild(sc, c, i);
    }
  }

  lemma LinkedFlip(sc: seq<Scope>, s: nat)
    requires Linked(sc) && s < |sc|
    ensures Linked(Flip(sc, s))
  {
    var t := Flip(sc, s);
    forall i | 0 <= i < |t| && t[i].parent.Some?
      ensures t[i].parent.value < i && Link(t[t[i].parent.value], t[i], i)
    {
      assert sc[i].parent.value < i && Link(sc[sc[i].parent.value], sc[i], i);
    }
    forall i, c | 0 <= i < |t| && c in t[i].children ensures IsChild(t, c, i) {
      assert IsChild(sc, c, i);
    }
    forall i, c | 0 <= i < |t| && c in t[i].awaited ensures IsChild(t, c, i) {
      if c in sc[i].awaited { assert IsChild(sc, c, i); } else { assert IsChild(sc, c, i); }
    }
  }

  lemma LinkedFinish(sc: seq<Scope>, s: nat)
    requires Linked(sc) && s < |sc| && sc[s].at.Disposing?
    ensures (sc[s].parent.Some? ==> sc[s].parent.value < s) && Linked(FinishScope(sc, s))
  {
    var closed := sc[s := sc[s].(at := Done, registrations := [], services := map[])];
    LinkedUpdate(sc, s, closed[s]);
    if sc[s].parent.Some? {
      var p := sc[s].parent.value;
      LinkedUpdate(closed, p, closed[p].(children := closed[p].children - {s}));
    }
  }

  lemma LinkedStep(w: World, a: Action)
    requires Linked(w.scopes) && Enabled(w, a)
    ensures Linked(Effect(w, a).scopes)
  {
    var sc := w.scopes;
    match a
    case Register(s) => LinkedSame(sc, s, AddReg(w, s, Callback).scopes[s]);
    case Provide(s, key) => LinkedSame(sc, s, AddReg(w, s, Binding(key)).scopes[s]);
    case Child(s) => LinkedChild(w, s);
    case Admit(s) => LinkedSame(sc, s, AddAdmission(w, s).scopes[s]);
    case Release(k) => LinkedUpdate(sc, w.adms[k].scope, Released(sc[w.adms[k].scope]));
    case Dispose(s) => LinkedFlip(sc, s);
    case DisposeReg(r) => LinkedSame(sc, w.regs[r].owner, Unbind(sc[w.regs[r].owner], w.regs[r].kind, r));
    case Settle(r, ok) =>
    case ChildSettled(s, c) => LinkedUpdate(sc, s, SettleChild(sc[s], c, sc[c].errors != []));
    case BeginDisposers(s) => LinkedUpdate(sc, s, Effect(w, a).scopes[s]);
    case StartNext(s) => LinkedSame(sc, s, StartReg(w, sc[s].at.todo[0], true).scopes[s]);
    case Advance(s) => LinkedUpdate(sc, s, Effect(w, a).scopes[s]);
    case Finish(s) => LinkedFinish(sc, s);
  }

  // ----- the admission counter -----

  ghost function Held(adms: seq<Admission>, s: nat): nat {
    if adms == [] then 0
    else Held(adms[..|adms| - 1], s) + (if adms[|adms| - 1] == Admission(s, false) then 1 else 0)
  }

  lemma {:induction false} HeldAdd(adms: seq<Admission>, x: Admission, s: nat)
    ensures Held(adms + [x], s) == Held(adms, s) + (if x == Admission(s, false) then 1 else 0)
  {
    assert (adms + [x])[..|adms|] == adms;
  }

  lemma {:induction false} HeldRelease(adms: seq<Admission>, a: nat, s: nat)
    requires a < |adms| && !adms[a].released
    ensures Held(adms[a := adms[a].(released := true)], s) == Held(adms, s) - (if adms[a].scope == s then 1 else 0)
    ensures adms[a].scope == s ==> Held(adms, s) > 0
  {
    var n := |adms| - 1;
    var upd := adms[a := adms[a].(released := true)];
    if a < n {
      assert upd[..n] == adms[..n][a := adms[a].(released := true)];
      HeldRelease(adms[..n], a, s);
    } else {
      assert upd[..n] == adms[..n];
    }
  }

  ghost predicate Counted(w: World) {
    && (forall a | 0 <= a < |w.adms| :: w.adms[a].scope < |w.scopes|)
    && (forall s | 0 <= s < |w.scopes| :: w.scopes[s].active == Held(w.adms, s))
    && (forall s | 0 <= s < |w.scopes| && w.scopes[s].at.Draining? :: w.scopes[s].at.drained <==> w.scopes[s].active == 0)
    && (forall s | 0 <= s < |w.scopes| && (w.scopes[s].at.Disposing? || w.scopes[s].at.Done?) :: w.scopes[s].active == 0)
  }

  lemma HeldNone(adms: seq<Admission>, s: nat)
    requires forall a | 0 <= a < |adms| :: adms[a].scope != s
    ensures Held(adms, s) == 0
  {
  }

  lemma CountedUpdate(w: World, s: nat, x: Scope)
    requires Counted(w) && s < |w.scopes| && x.active == w.scopes[s].active
    requires x.at.Draining? ==> x.at.drained == (x.active == 0)
    requires x.at.Disposing? || x.at.Done? ==> x.active == 0
    ensures Counted(w.(scopes := w.scopes[s := x]))
  {
  }

  lemma CountedAdmit(w: World, s: nat)
    requires Counted(w) && s < |w.scopes| && w.scopes[s].at.Idle?
    ensures Counted(AddAdmission(w, s))
  {
    var v := AddAdmission(w, s);
    forall t | 0 <= t < |v.scopes| ensures v.scopes[t].active == Held(v.adms, t) { HeldAdd(w.adms, Admission(s, false), t); }
  }

  lemma CountedRelease(w: World, k: nat)
    requires Counted(w) && Enabled(w, Action.Release(k))
    ensures Counted(ReleaseAdmission(w, k))
  {
    var v := ReleaseAdmission(w, k);
    forall t | 0 <= t < |v.scopes| ensures v.scopes[t].active == Held(v.adms, t) { HeldRelease(w.adms, k, t); }
  }

  lemma CountedChild(w: World, s: nat)
    requires Counted(w) && s < |w.scopes|
    ensures Counted(AddChild(w, s))
  {
    HeldNone(w.adms, |w.scopes|);
  }

  lemma CountedFinish(w: World, s: nat)
    requires Counted(w) && Enabled(w, Action.Finish(s))
    ensures Counted(Effect(w, Action.Finish(s)))
  {
    var v := w.(scopes := w.scopes[s := w.scopes[s].(at := Done, registrations := [], services := map[])]);
    CountedUpdate(w, s, v.scopes[s]);
    if w.scopes[s].parent.Some? {
      var p := w.scopes[s].parent.value;
      CountedUpdate(v, p, v.scopes[p].(children := v.scopes[p].children - {s}));
    }
  }

  lemma CountedStep(w: World, a: Action)
    requires Counted(w) && Enabled(w, a)
    ensures Counted(Effect(w, a))
  {
    match a
    case Admit(s) => CountedAdmit(w, s);
    case Release(k) => CountedRelease(w, k);
    case Child(s) => CountedChild(w, s);
    case Finish(s) => CountedFinish(w, s);
    case Register(s) => CountedUpdate(w, s, AddReg(w, s, Callback).scopes[s]);
    case Provide(s, key) => CountedUpdate(w, s, AddReg(w, s, Binding(key)).scopes[s]);
    case DisposeReg(r) => CountedUpdate(w, w.regs[r].owner, Effect(w, a).scopes[w.regs[r].owner]);
    case StartNext(s) => CountedUpdate(w, s, Effect(w, a).scopes[s]);
    case _ =>
  }

  // ----- registrations and the reverse walk -----

  ghost predicate Increasing(s: seq<nat>) {
    forall i, j | 0 <= i < j < |s| :: s[i] < s[j]
  }

  ghost predicate Walk(x: Scope, regs: seq<Reg>) {
    x.at.Disposing? ==>
      && |x.at.todo| <= |x.registrations|
      && (forall k | 0 <= k < |x.at.todo| :: x.at.todo[k] == x.registrations[|x.at.todo| - 1 - k])
      && (forall j | |x.at.todo| <= j < |x.registrations| ::
            x.registrations[j] < |regs| && regs[x.registrations[j]].status.Settled?)
  }

  ghost predicate Owns(x: Scope, regs: seq<Reg>, s: nat) {
    if x.at.Done? then forall r | 0 <= r < |regs| && regs[r].owner == s :: regs[r].status.Settled?
    else
      && Increasing(x.registrations)
      && (forall r | r in x.registrations :: r < |regs| && regs[r].owner == s)
      && (forall r | 0 <= r < |regs| && regs[r].owner == s :: r in x.registrations)
  }

  ghost predicate Registered(w: World) {
    && (forall r | 0 <= r < |w.regs| :: w.regs[r].owner < |w.scopes|)
    && (forall s | 0 <= s < |w.scopes| :: Owns(w.scopes[s], w.regs, s) && Walk(w.scopes[s], w.regs))
  }

  lemma RegisteredAdd(w: World, s: nat, kind: Kind)
    requires Registered(w) && s < |w.scopes| && w.scopes[s].at.Idle?
    ensures Registered(AddReg(w, s, kind))
  {
    var v := AddReg(w, s, kind);
    forall t | 0 <= t < |v.scopes|
      ensures Owns(v.scopes[t], v.regs, t) && Walk(v.scopes[t], v.regs)
    {
      var was, now := w.scopes[t].registrations, v.scopes[t].registrations;
      assert Owns(w.scopes[t], w.regs, t) && Walk(w.scopes[t], w.regs);
      assert forall k | 0 <= k < |was| :: was[k] in was;
      assert forall r | r in now :: r in was || (t == s && r == |w.regs|);
      assert t == s ==> now[|was|] == |w.regs|;
      assert forall r | r in was :: r in now;
    }
  }

  lemma RegisteredFrame(x: Scope, y: Scope, regs: seq<Reg>, next: seq<Reg>, s: nat)
    requires Owns(x, regs, s) && Walk(x, regs) && RegsKept(regs, next) && |regs| == |next|
    requires y.registrations == x.registrations && (x.at.Done? <==> y.at.Done?)
    requires y.at.Disposing? ==> y.at == x.at
    ensures Owns(y, next, s) && Walk(y, next)
  {
  }

  lemma RegisteredUpdate(w: World, s: nat, x: Scope)
    requires Registered(w) && s < |w.scopes| && Owns(x, w.regs, s) && Walk(x, w.regs)
    ensures Registered(w.(scopes := w.scopes[s := x]))
  {
  }

  lemma RegisteredBegin(w: World, s: nat)
    requires Registered(w) && Enabled(w, BeginDisposers(s))
    ensures Registered(Effect(w, BeginDisposers(s)))
  {
    assert Owns(w.scopes[s], w.regs, s);
    RegisteredUpdate(w, s, Effect(w, BeginDisposers(s)).scopes[s]);
  }

  lemma RegisteredAdvance(w: World, s: nat)
    requires Registered(w) && Enabled(w, Advance(s))
    ensures Registered(Effect(w, Advance(s)))
  {
    assert Owns(w.scopes[s], w.regs, s) && Walk(w.scopes[s], w.regs);
    RegisteredUpdate(w, s, Effect(w, Advance(s)).scopes[s]);
  }

  lemma RegisteredFinish(w: World, s: nat)
    requires Registered(w) && Enabled(w, Finish(s))
    ensures Registered(Effect(w, Finish(s)))
  {
    var x := w.scopes[s];
    assert Owns(x, w.regs, s) && Walk(x, w.regs);
    forall r | 0 <= r < |w.regs| && w.regs[r].owner == s ensures w.regs[r].status.Settled? {
      var j :| 0 <= j < |x.registrations| && x.registrations[j] == r;
    }
    var y := x.(at := Done, registrations := [], services := map[]);
    RegisteredUpdate(w, s, y);
    if x.parent.Some? {
      var p, v := x.parent.value, w.(scopes := w.scopes[s := y]);
      assert Owns(v.scopes[p], v.regs, p) && Walk(v.scopes[p], v.regs);
      RegisteredUpdate(v, p, v.scopes[p].(children := v.scopes[p].children - {s}));
    }
  }

  lemma ListsKept(w: World, a: Action, t: nat)
    requires Enabled(w, a) && t < |w.scopes|
    requires !a.Register? && !a.Provide? && !a.BeginDisposers? && !a.Advance? && !a.Finish?
    ensures t < |Effect(w, a).scopes| && |Effect(w, a).regs| == |w.regs|
    ensures var x, y := w.scopes[t], Effect(w, a).scopes[t];
      y.registrations == x.registrations && (x.at.Done? <==> y.at.Done?) && (y.at.Disposing? ==> y.at == x.at)
  {
  }

  lemma NewScopesEmpty(w: World, a: Action)
    requires Enabled(w, a)
    ensures forall t | |w.scopes| <= t < |Effect(w, a).scopes| ::
      Effect(w, a).scopes[t].registrations == [] && Effect(w, a).scopes[t].at.Idle? && Effect(w, a).regs == w.regs
  {
    if a.Child? {
      var v := AddChild(w, a.s);
      assert Effect(w, a) == v && v.scopes[|w.scopes|] == NewScope.(parent := Some(a.s)) && |v.scopes| == |w.scopes| + 1;
    } else {
      assert |Effect(w, a).scopes| == |w.scopes|;
    }
  }

  lemma RegisteredOther(w: World, a: Action)
    requires Registered(w) && Enabled(w, a)
    requires !a.Register? && !a.Provide? && !a.BeginDisposers? && !a.Advance? && !a.Finish?
    ensures Registered(Effect(w, a))
  {
    hide Effect;
    var v := Effect(w, a);
    RegsStep(w, a);
    NewScopesEmpty(w, a);
    forall r | 0 <= r < |v.regs| ensures v.regs[r].owner < |v.scopes| { }
    forall t | 0 <= t < |v.scopes|
      ensures Owns(v.scopes[t], v.regs, t) && Walk(v.scopes[t], v.regs)
    {
      if t < |w.scopes| {
        ListsKept(w, a, t);
        RegisteredFrame(w.scopes[t], v.scopes[t], w.regs, v.regs, t);
      }
    }
  }

  lemma RegisteredStep(w: World, a: Action)
    requires Registered(w) && Enabled(w, a)
    ensures Registered(Effect(w, a))
  {
    match a
    case Register(s) => RegisteredAdd(w, s, Callback);
    case Provide(s, key) => RegisteredAdd(w, s, Binding(key));
    case BeginDisposers(s) => RegisteredBegin(w, s);
    case Advance(s) => RegisteredAdvance(w, s);
    case Finish(s) => RegisteredFinish(w, s);
    case _ => RegisteredOther(w, a);
  }

  // ----- service bindings -----

  ghost predicate BindingOk(w: World, s: nat, key: nat) {
    s < |w.scopes| && key in w.scopes[s].services &&
    var r := w.scopes[s].services[key]; r < |w.regs| && w.regs[r] == Reg(s, Binding(key), Pending)
  }

  ghost predicate Bound(w: World) {
    && (forall s, key | 0 <= s < |w.scopes| && key in w.scopes[s].services :: BindingOk(w, s, key))
    && (forall r | 0 <= r < |w.regs| && w.regs[r].kind.Binding? && w.regs[r].status.Pending? ::
          w.regs[r].owner < |w.scopes| &&
          var x := w.scopes[w.regs[r].owner];
          x.at.Done? || (w.regs[r].kind.key in x.services && x.services[w.regs[r].kind.key] == r))
  }

  lemma BoundAdd(w: World, s: nat, kind: Kind)
    requires Bound(w) && s < |w.scopes| && !w.scopes[s].at.Done?
    requires kind.Binding? ==> kind.key !in w.scopes[s].services
    ensures Bound(AddReg(w, s, kind))
  {
    var v := AddReg(w, s, kind);
    forall t, key | 0 <= t < |v.scopes| && key in v.scopes[t].services ensures BindingOk(v, t, key) {
      if key in w.scopes[t].services { assert BindingOk(w, t, key); }
    }
  }

  lemma BoundStart(w: World, r: nat, byScope: bool)
    requires Bound(w) && r < |w.regs| && w.regs[r].owner < |w.scopes|
    ensures Bound(StartReg(w, r, byScope))
  {
    var v := StartReg(w, r, byScope);
    forall s, key | 0 <= s < |v.scopes| && key in v.scopes[s].services ensures BindingOk(v, s, key) {
      assert BindingOk(w, s, key);
    }
  }

  // The other actions add no binding and touch no service table but that of a finished scope.
  lemma BoundFrame(w: World, v: World)
    requires Bound(w) && |w.scopes| <= |v.scopes| && |w.regs| == |v.regs|
    requires forall s | 0 <= s < |w.scopes| ::
      (w.scopes[s].at.Done? ==> v.scopes[s].at.Done?) &&
      (v.scopes[s].services == w.scopes[s].services || (v.scopes[s].at.Done? && v.scopes[s].services == map[]))
    requires forall s | |w.scopes| <= s < |v.scopes| :: v.scopes[s].services == map[]
    requires forall r | 0 <= r < |w.regs| ::
      v.regs[r] == w.regs[r] || (!w.regs[r].status.Pending? && !v.regs[r].status.Pending?)
    ensures Bound(v)
  {
    forall s, key | 0 <= s < |v.scopes| && key in v.scopes[s].services ensures BindingOk(v, s, key) {
      assert BindingOk(w, s, key);
    }
  }

  lemma BoundFinish(w: World, s: nat)
    requires Bound(w) && Enabled(w, ScopeTree.Finish(s))
    ensures Bound(w.(scopes := FinishScope(w.scopes, s)))
  {
    BoundFrame(w, w.(scopes := FinishScope(w.scopes, s)));
  }

  lemma BoundOther(w: World, a: Action)
    requires Bound(w) && Enabled(w, a)
    requires a.Child? || a.Admit? || a.Release? || a.Dispose? || a.ChildSettled? || a.BeginDisposers? || a.Advance?
    ensures Bound(Effect(w, a))
  {
    var v := Effect(w, a);
    assert v.regs == w.regs;
    BoundFrame(w, v);
  }

  lemma BoundStep(w: World, a: Action)
    requires Bound(w) && Registered(w) && Enabled(w, a)
    ensures Bound(Effect(w, a))
  {
    match a
    case Register(s) => BoundAdd(w, s, Callback);
    case Provide(s, key) => BoundAdd(w, s, Binding(key));
    case DisposeReg(r) => BoundStart(w, r, false);
    case StartNext(s) => BoundStart(w, w.scopes[s].at.todo[0], true);
    case Finish(s) => BoundFinish(w, s);
    case Settle(r, ok) => BoundFrame(w, Effect(w, a));
    case _ => BoundOther(w, a);
  }

  // ----- the history of disposer starts -----

  ghost predicate HasStarted(starts: seq<Start>, r: nat) {
    exists i :: 0 <= i < |starts| && starts[i].reg == r
  }

  // Every start of the scope's own walk lies above what the walk has still to start.
  ghost predicate AboveTodo(x: Scope, r: nat) {
    x.at.Done? || (x.at.Disposing? &&
      forall k | 0 <= k < |x.at.todo| :: r > x.at.todo[k] || (k == 0 && r == x.at.todo[0]))
  }

  ghost predicate StartedOnce(w: World) {
    && (forall i | 0 <= i < |w.starts| :: w.starts[i].reg < |w.regs|)
    && (forall i, j | 0 <= i < j < |w.starts| :: w.starts[i].reg != w.starts[j].reg)
    && (forall r | 0 <= r < |w.regs| :: !w.regs[r].status.Pending? <==> HasStarted(w.starts, r))
  }

  ghost predicate ReverseOrder(w: World) {
    forall i, j | 0 <= i < j < |w.starts| && w.starts[i].byScope && w.starts[j].byScope &&
      w.starts[i].reg < |w.regs| && w.starts[j].reg < |w.regs| &&
      w.regs[w.starts[i].reg].owner == w.regs[w.starts[j].reg].owner :: w.starts[i].reg > w.starts[j].reg
  }

  ghost predicate WalkAbove(w: World) {
    forall i | 0 <= i < |w.starts| && w.starts[i].byScope ::
      w.starts[i].reg < |w.regs| && w.regs[w.starts[i].reg].owner < |w.scopes| &&
      AboveTodo(w.scopes[w.regs[w.starts[i].reg].owner], w.starts[i].reg)
  }

  ghost predicate StartsOk(w: World) {
    StartedOnce(w) && ReverseOrder(w) && WalkAbove(w)
  }

  lemma StartedOnceStep(w: World, a: Action)
    requires StartedOnce(w) && Registered(w) && Enabled(w, a)
    ensures StartedOnce(Effect(w, a))
  {
    hide Walk;
    hide Owns;
    var v := Effect(w, a);
    forall r | 0 <= r < |v.regs|
      ensures !v.regs[r].status.Pending? <==> HasStarted(v.starts, r)
    {
      if r < |w.regs| {
        assert !w.regs[r].status.Pending? <==> HasStarted(w.starts, r);
        if HasStarted(w.starts, r) {
          var i :| 0 <= i < |w.starts| && w.starts[i].reg == r;
          assert v.starts[i] == w.starts[i];
        }
        if |v.starts| > |w.starts| { assert v.starts[|w.starts|].reg < |w.regs|; }
        if HasStarted(v.starts, r) {
          var i :| 0 <= i < |v.starts| && v.starts[i].reg == r;
          assert i < |w.starts| ==> w.starts[i].reg == r;
        }
      }
    }
  }

  // What AboveTodo says survives every step of any scope.
  lemma AboveKept(w: World, a: Action, s: nat, r: nat)
    requires Enabled(w, a) && s < |w.scopes| && AboveTodo(w.scopes[s], r)
    requires a.Advance? && a.s == s ==> Walk(w.scopes[s], w.regs) && Increasing(w.scopes[s].registrations)
    ensures s < |Effect(w, a).scopes| && AboveTodo(Effect(w, a).scopes[s], r)
  {
    if !OwnStep(a, s) {
      OthersStep(w, a, s);
    }
  }

  lemma WalkAboveStep(w: World, a: Action)
    requires StartsOk(w) && Registered(w) && Enabled(w, a)
    ensures WalkAbove(Effect(w, a))
  {
    hide Effect;
    var v := Effect(w, a);
    RegsStep(w, a);
    StartsStep(w, a);
    forall i | 0 <= i < |v.starts| && v.starts[i].byScope
      ensures v.starts[i].reg < |v.regs| && v.regs[v.starts[i].reg].owner < |v.scopes|
      ensures AboveTodo(v.scopes[v.regs[v.starts[i].reg].owner], v.starts[i].reg)
    {
      var r := v.starts[i].reg;
      var s := w.regs[r].owner;
      assert Owns(w.scopes[s], w.regs, s) && Walk(w.scopes[s], w.regs);
      if i < |w.starts| {
        assert v.starts[i] == w.starts[i];
        AboveKept(w, a, s, r);
      } else {
        assert a.StartNext? && r == w.scopes[a.s].at.todo[0] && s == a.s;
        OthersStep(w, a, s);
      }
    }
  }

  lemma ReverseOrderStep(w: World, a: Action)
    requires StartsOk(w) && Registered(w) && Enabled(w, a)
    ensures ReverseOrder(Effect(w, a))
  {
    hide Effect;
    RegsStep(w, a);
    StartsStep(w, a);
    if a.StartNext? {
      var r := w.scopes[a.s].at.todo[0];
      forall i | 0 <= i < |w.starts| && w.starts[i].byScope && w.regs[w.starts[i].reg].owner == a.s
        ensures w.starts[i].reg > r
      {
        assert AboveTodo(w.scopes[a.s], w.starts[i].reg);
        assert !HasStarted(w.starts, r);
      }
    }
  }

  // ----- what is reported -----

  ghost predicate Sound(w: World, x: Scope, s: nat) {
    forall e | e in x.errors ::
      match e
      case DisposerFailed(r) => r < |w.regs| && w.regs[r].owner == s && w.regs[r].status == Settled(false)
      case ChildFailed(c) => c in x.awaited && c < |w.scopes| && w.scopes[c].at.Done? && w.scopes[c].errors != []
  }

  ghost predicate ChildReported(w: World, x: Scope, c: nat) {
    c < |w.scopes| && w.scopes[c].at.Done? && (w.scopes[c].errors != [] ==> ChildFailed(c) in x.errors)
  }

  ghost predicate ChildrenReported(w: World, x: Scope) {
    !x.at.Idle? ==> forall c | c in x.awaited && !(x.at.Draining? && c in x.at.awaiting) :: ChildReported(w, x, c)
  }

  ghost predicate DisposersReported(w: World, x: Scope, s: nat) {
    && (x.at.Disposing? ==> forall j | |x.at.todo| <= j < |x.registrations| ::
          var r := x.registrations[j]; r < |w.regs| && w.regs[r].status == Settled(false) ==> DisposerFailed(r) in x.errors)
    && (x.at.Done? ==> forall r | 0 <= r < |w.regs| && w.regs[r].owner == s && w.regs[r].status == Settled(false) ::
          DisposerFailed(r) in x.errors)
  }

  ghost predicate Reported(w: World) {
    forall s | 0 <= s < |w.scopes| ::
      Sound(w, w.scopes[s], s) && ChildrenReported(w, w.scopes[s]) && DisposersReported(w, w.scopes[s], s)
  }

  // A finished scope is never touched again.
  lemma DoneIsFinal(w: World, a: Action, c: nat)
    requires Enabled(w, a) && c < |w.scopes| && w.scopes[c].at.Done?
    ensures c < |Effect(w, a).scopes|
    ensures Effect(w, a).scopes[c].at.Done? && Effect(w, a).scopes[c].errors == w.scopes[c].errors
  {
    hide Effect;
    OthersStep(w, a, c);
  }

  lemma SoundAt(w: World, a: Action, s: nat)
    requires Linked(w.scopes) && Registered(w) && Enabled(w, a)
    requires s < |w.scopes| && Sound(w, w.scopes[s], s)
    ensures s < |Effect(w, a).scopes| && Sound(Effect(w, a), Effect(w, a).scopes[s], s)
  {
    hide Registered;
    var v := Effect(w, a);
    RegsStep(w, a);
    forall c | c in w.scopes[s].awaited && c < |w.scopes| && w.scopes[c].at.Done?
      ensures c < |v.scopes| && v.scopes[c].at.Done? && v.scopes[c].errors == w.scopes[c].errors
    {
      DoneIsFinal(w, a, c);
    }
    if OwnStep(a, s) {
      SoundOwn(w, a);
    } else if !w.scopes[s].at.Idle? {
      hide Effect;
      OthersStep(w, a, s);
    } else {
      assert v.scopes[s].errors == [];
    }
  }

  lemma SoundOwn(w: World, a: Action)
    requires Linked(w.scopes) && Registered(w) && Enabled(w, a)
    requires a.ChildSettled? || a.BeginDisposers? || a.Advance? || a.Finish?
    requires Sound(w, w.scopes[a.s], a.s)
    requires forall c | c in w.scopes[a.s].awaited && c < |w.scopes| && w.scopes[c].at.Done? ::
      c < |Effect(w, a).scopes| && Effect(w, a).scopes[c].at.Done? && Effect(w, a).scopes[c].errors == w.scopes[c].errors
    ensures Sound(Effect(w, a), Effect(w, a).scopes[a.s], a.s)
  {
    hide Linked;
    var s := a.s;
    assert Owns(w.scopes[s], w.regs, s) && Walk(w.scopes[s], w.regs);
    if a.ChildSettled? {
      assert a.c in w.scopes[s].awaited by { AwaitingAwaited(w.scopes, s); }
    }
    if a.Advance? {
      var r := w.scopes[s].at.todo[0];
      assert r == w.scopes[s].registrations[|w.scopes[s].at.todo| - 1];
      assert r in w.scopes[s].registrations;
    }
  }

  lemma AwaitingAwaited(sc: seq<Scope>, s: nat)
    requires Linked(sc) && s < |sc| && sc[s].at.Draining?
    ensures sc[s].at.awaiting <= sc[s].awaited
  {
  }

  lemma ChildrenReportedAt(w: World, a: Action, s: nat)
    requires Enabled(w, a) && s < |w.scopes| && ChildrenReported(w, w.scopes[s])
    ensures s < |Effect(w, a).scopes| && ChildrenReported(Effect(w, a), Effect(w, a).scopes[s])
  {
    var v := Effect(w, a);
    var x, y := w.scopes[s], v.scopes[s];
    if !y.at.Idle? {
      forall c | c in y.awaited && !(y.at.Draining? && c in y.at.awaiting)
        ensures ChildReported(v, y, c)
      {
        if !x.at.Idle? {
          if OwnStep(a, s) {
            if !(a.ChildSettled? && a.c == c) { assert ChildReported(w, x, c); }
            DoneIsFinal(w, a, c);
          } else {
            OthersStep(w, a, s);
            hide Effect;
            assert ChildReported(w, x, c);
            DoneIsFinal(w, a, c);
          }
        }
      }
    }
  }

  // A step other than those of the scope's own walk.
  lemma DisposersFrame(w: World, v: World, s: nat)
    requires s < |w.scopes| && s < |v.scopes| && DisposersReported(w, w.scopes[s], s)
    requires !w.scopes[s].at.Idle?
    requires v.scopes[s].at.Disposing? || v.scopes[s].at.Done? ==>
      v.scopes[s].at == w.scopes[s].at && v.scopes[s].errors == w.scopes[s].errors &&
      v.scopes[s].registrations == w.scopes[s].registrations
    requires Walk(w.scopes[s], w.regs) && RegsKept(w.regs, v.regs)
    requires Owns(w.scopes[s], w.regs, s)
    requires forall r | |w.regs| <= r < |v.regs| :: v.regs[r].owner != s || w.scopes[s].at.Idle?
    ensures DisposersReported(v, v.scopes[s], s)
  {
  }

  lemma DisposersReportedAt(w: World, a: Action, s: nat)
    requires Registered(w) && Enabled(w, a)
    requires s < |w.scopes| && DisposersReported(w, w.scopes[s], s)
    ensures s < |Effect(w, a).scopes| && DisposersReported(Effect(w, a), Effect(w, a).scopes[s], s)
  {
    assert Owns(w.scopes[s], w.regs, s) && Walk(w.scopes[s], w.regs);
    if OwnStep(a, s) && !a.ChildSettled? {
      DisposersWalk(w, a);
    } else {
      RegsStep(w, a);
      if OwnStep(a, s) || w.scopes[s].at.Idle? {
        assert !Effect(w, a).scopes[s].at.Disposing? && !Effect(w, a).scopes[s].at.Done?;
      } else {
        OthersStep(w, a, s);
        hide Effect;
        DisposersFrame(w, Effect(w, a), s);
      }
    }
  }

  lemma DisposersWalk(w: World, a: Action)
    requires Registered(w) && Enabled(w, a) && (a.BeginDisposers? || a.Advance? || a.Finish?)
    requires DisposersReported(w, w.scopes[a.s], a.s)
    ensures DisposersReported(Effect(w, a), Effect(w, a).scopes[a.s], a.s)
  {
    assert Owns(w.scopes[a.s], w.regs, a.s) && Walk(w.scopes[a.s], w.regs);
    if a.Finish? {
      var x := w.scopes[a.s];
      forall r | 0 <= r < |w.regs| && w.regs[r].owner == a.s && w.regs[r].status == Settled(false)
        ensures DisposerFailed(r) in x.errors
      {
        var j :| 0 <= j < |x.registrations| && x.registrations[j] == r;
      }
    }
  }

  lemma ReportedStep(w: World, a: Action)
    requires Linked(w.scopes) && Counted(w) && Registered(w) && Bound(w) && Reported(w) && Enabled(w, a)
    ensures Reported(Effect(w, a))
  {
    var v := Effect(w, a);
    forall s | 0 <= s < |v.scopes|
      ensures Sound(v, v.scopes[s], s) && ChildrenReported(v, v.scopes[s]) && DisposersReported(v, v.scopes[s], s)
    {
      if s < |w.scopes| {
        hide Effect;
        SoundAt(w, a, s);
        ChildrenReportedAt(w, a, s);
        DisposersReportedAt(w, a, s);
      } else {
        assert v.scopes[s] == NewScope.(parent := Some(a.s)) && v.regs == w.regs;
      }
    }
  }

  // ----- every reachable interleaving -----

  ghost predicate Inv(w: World) {
    Linked(w.scopes) && Counted(w) && Registered(w) && Bound(w) && StartsOk(w) && Reported(w)
  }

  lemma InvApply(w: World, a: Action)
    requires Inv(w)
    ensures Inv(Apply(w, a))
  {
    if Enabled(w, a) {
      LinkedStep(w, a);
      CountedStep(w, a);
      RegisteredStep(w, a);
      BoundStep(w, a);
      StartedOnceStep(w, a);
      ReverseOrderStep(w, a);
      WalkAboveStep(w, a);
      ReportedStep(w, a);
    }
  }

  lemma {:induction false} InvRun(w: World, actions: seq<Action>)
    requires Inv(w)
    ensures Inv(Run(w, actions))
    decreases |actions|
  {
    if actions != [] {
      InvApply(w, actions[0]);
      InvRun(Apply(w, actions[0]), actions[1..]);
    }
  }

  ghost predicate Reachable(w: World) {
    exists actions :: w == Run(InitialWorld, actions)
  }

  lemma ReachableInv(w: World)
    requires Reachable(w)
    ensures Inv(w)
  {
    var actions :| w == Run(InitialWorld, actions);
    InvRun(InitialWorld, actions);
  }
}
