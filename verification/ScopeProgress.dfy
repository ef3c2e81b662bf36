/**
 Disposal ends: while a scope is closing some step below it is ready, every such step
 lowers a measure, and no step of anyone raises it.  Holders are trusted only to release
 their admissions and to let a disposer that has started settle.
 */
module ScopeProgress {
  import opened Wrappers
  import opened ScopeTree
  import opened ScopeInvariants
  import opened ScopeTheorems

  // ----- the measure -----

  ghost function RegRank(st: RegState): nat {
    match st
    case Pending => 3
    case Started => 2
    case Settled(_) => 1
  }

  ghost function RegWork(regs: seq<Reg>, list: seq<nat>): nat {
    if list == [] then 0
    else (if list[0] < |regs| then RegRank(regs[list[0]].status) else 0) + RegWork(regs, list[1..])
  }

  ghost function Weight(x: Scope, regs: seq<Reg>): nat {
    match x.at
    case Idle => 0
    case Draining(awaiting, _) => |awaiting| + x.active + RegWork(regs, x.registrations) + 2
    case Disposing(todo) => RegWork(regs, todo) + 1
    case Done => 0
  }

  ghost function Total(w: World, t: nat, n: nat): nat
    requires n <= |w.scopes|
  {
    if n == 0 then 0
    else Total(w, t, n - 1) + (if Under(w.scopes, n - 1, t) then Weight(w.scopes[n - 1], w.regs) else 0)
  }

  ghost function Measure(w: World, t: nat): nat {
    Total(w, t, |w.scopes|)
  }

  // ----- steps that the subtree of `t` waits for -----

  predicate Progresses(w: World, a: Action, t: nat) {
    Enabled(w, a) &&
    match a
    case Release(k) => Under(w.scopes, w.adms[k].scope, t)
    case Settle(r, _) => Under(w.scopes, w.regs[r].owner, t)
    case ChildSettled(s, _) => Under(w.scopes, s, t)
    case BeginDisposers(s) => Under(w.scopes, s, t)
    case StartNext(s) => Under(w.scopes, s, t)
    case Advance(s) => Under(w.scopes, s, t)
    case Finish(s) => Under(w.scopes, s, t)
    case _ => false
  }

  // ----- sums -----

  ghost predicate Faster(regs: seq<Reg>, next: seq<Reg>) {
    && |regs| <= |next|
    && forall r | 0 <= r < |regs| :: RegRank(next[r].status) <= RegRank(regs[r].status)
  }

  lemma {:induction false} RegWorkFaster(regs: seq<Reg>, next: seq<Reg>, list: seq<nat>)
    requires Faster(regs, next) && forall r | r in list :: r < |regs|
    ensures RegWork(next, list) <= RegWork(regs, list)
    ensures (exists r :: r in list && RegRank(next[r].status) < RegRank(regs[r].status)) ==> RegWork(next, list) < RegWork(regs, list)
  {
    if list != [] {
      forall r | r in list[1..] ensures r in list { }
      RegWorkFaster(regs, next, list[1..]);
      assert list[0] in list;
      if r :| r in list && RegRank(next[r].status) < RegRank(regs[r].status) {
        assert r == list[0] || r in list[1..];
      }
    }
  }

  lemma {:induction false} RegWorkSnoc(regs: seq<Reg>, list: seq<nat>, r: nat)
    ensures RegWork(regs, list + [r]) == RegWork(regs, list) + RegWork(regs, [r])
  {
    if list == [] {
      assert list + [r] == [r];
    } else {
      assert (list + [r])[1..] == list[1..] + [r];
      RegWorkSnoc(regs, list[1..], r);
    }
  }

  lemma {:induction false} RegWorkReversed(regs: seq<Reg>, list: seq<nat>)
    ensures RegWork(regs, Reversed(list)) == RegWork(regs, list)
  {
    if list != [] {
      var n := |list| - 1;
      RegWorkReversed(regs, list[..n]);
      RegWorkSnoc(regs, list[..n], list[n]);
      assert list == list[..n] + [list[n]];
      assert Reversed(list)[1..] == Reversed(list[..n]);
    }
  }

  // ----- one scope under one step -----

  lemma TodoOwned(w: World, s: nat)
    requires Inv(w) && s < |w.scopes| && w.scopes[s].at.Disposing?
    ensures forall r | r in w.scopes[s].at.todo :: r < |w.regs|
  {
    var x := w.scopes[s];
    assert Owns(x, w.regs, s) && Walk(x, w.regs);
    forall k | 0 <= k < |x.at.todo| ensures x.at.todo[k] < |w.regs| {
      assert x.registrations[|x.at.todo| - 1 - k] in x.registrations;
    }
  }

  // A step that leaves the scope's list and progress alone and moves no registration back.
  lemma WeightFaster(w: World, v: World, s: nat)
    requires Inv(w) && s < |w.scopes| && s < |v.scopes| && Faster(w.regs, v.regs)
    requires !w.scopes[s].at.Idle?
    requires v.scopes[s].at == w.scopes[s].at && v.scopes[s].registrations == w.scopes[s].registrations
    requires v.scopes[s].active <= w.scopes[s].active
    ensures Weight(v.scopes[s], v.regs) <= Weight(w.scopes[s], w.regs)
  {
    var x := w.scopes[s];
    assert Owns(x, w.regs, s);
    if x.at.Draining? { RegWorkFaster(w.regs, v.regs, x.registrations); }
    if x.at.Disposing? { TodoOwned(w, s); RegWorkFaster(w.regs, v.regs, x.at.todo); }
  }

  // A registration that starts or settles before its turn.
  lemma WeightEarly(w: World, v: World, s: nat, r: nat)
    requires Inv(w) && s < |w.scopes| && s < |v.scopes| && Faster(w.regs, v.regs) && !w.scopes[s].at.Idle?
    requires v.scopes[s].at == w.scopes[s].at && v.scopes[s].registrations == w.scopes[s].registrations
    requires v.scopes[s].active == w.scopes[s].active
    requires r < |w.regs| && w.regs[r].owner == s && !w.regs[r].status.Settled?
    requires RegRank(v.regs[r].status) < RegRank(w.regs[r].status)
    ensures Weight(v.scopes[s], v.regs) < Weight(w.scopes[s], w.regs)
  {
    var x := w.scopes[s];
    assert Owns(x, w.regs, s) && Walk(x, w.regs);
    assert r in x.registrations;
    if x.at.Draining? { RegWorkFaster(w.regs, v.regs, x.registrations); }
    if x.at.Disposing? {
      TodoOwned(w, s);
      var j :| 0 <= j < |x.registrations| && x.registrations[j] == r;
      assert j < |x.at.todo|;
      assert x.at.todo[|x.at.todo| - 1 - j] == r;
      RegWorkFaster(w.regs, v.regs, x.at.todo);
    }
  }

  // The steps of a scope's own disposal.
  lemma WeightOwn(w: World, a: Action)
    requires Inv(w) && Enabled(w, a)
    requires a.ChildSettled? || a.BeginDisposers? || a.Advance? || a.Finish?
    ensures a.s < |Effect(w, a).scopes|
    ensures Weight(Effect(w, a).scopes[a.s], Effect(w, a).regs) < Weight(w.scopes[a.s], w.regs)
  {
    var x := w.scopes[a.s];
    if a.Finish? {
      assert Effect(w, a).scopes[a.s].at.Done?;
    } else {
      hide Inv;
      if a.BeginDisposers? { RegWorkReversed(w.regs, x.registrations); }
    }
  }

  lemma WeightRelease(w: World, k: nat)
    requires Inv(w) && Enabled(w, Release(k)) && !w.scopes[w.adms[k].scope].at.Idle?
    ensures Weight(Effect(w, Release(k)).scopes[w.adms[k].scope], Effect(w, Release(k)).regs) < Weight(w.scopes[w.adms[k].scope], w.regs)
  {
    HeldRelease(w.adms, k, w.adms[k].scope);
  }

  /** Which scope a step works for. */
  ghost function Target(w: World, a: Action): nat
    requires Enabled(w, a)
  {
    match a
    case Release(k) => w.adms[k].scope
    case Settle(r, _) => w.regs[r].owner
    case DisposeReg(r) => w.regs[r].owner
    case Register(s) => s
    case Provide(s, _) => s
    case Child(s) => s
    case Admit(s) => s
    case Dispose(s) => s
    case ChildSettled(s, _) => s
    case BeginDisposers(s) => s
    case StartNext(s) => s
    case Advance(s) => s
    case Finish(s) => s
  }

  lemma StepFaster(w: World, a: Action)
    requires Inv(w) && Enabled(w, a)
    ensures Faster(w.regs, Effect(w, a).regs)
  {
    hide Inv;
  }

  lemma OtherScope(w: World, a: Action, i: nat)
    requires Enabled(w, a) && i < |w.scopes| && !w.scopes[i].at.Idle? && i != Target(w, a)
    ensures i < |Effect(w, a).scopes|
    ensures Effect(w, a).scopes[i].at == w.scopes[i].at && Effect(w, a).scopes[i].registrations == w.scopes[i].registrations
    ensures Effect(w, a).scopes[i].active == w.scopes[i].active
  {
  }

  // The scope of a registration that starts or settles.
  lemma OwnerScope(w: World, a: Action)
    requires Enabled(w, a) && (a.Settle? || a.DisposeReg? || a.StartNext?)
    requires Target(w, a) < |w.scopes| && !w.scopes[Target(w, a)].at.Idle?
    ensures var i, r := Target(w, a), if a.StartNext? then w.scopes[a.s].at.todo[0] else a.r;
      && i < |Effect(w, a).scopes| && r < |w.regs| == |Effect(w, a).regs| && w.regs[r].owner == i && !w.regs[r].status.Settled?
      && RegRank(Effect(w, a).regs[r].status) < RegRank(w.regs[r].status)
      && Effect(w, a).scopes[i].at == w.scopes[i].at && Effect(w, a).scopes[i].registrations == w.scopes[i].registrations
      && Effect(w, a).scopes[i].active == w.scopes[i].active
  {
  }

  lemma WeightStep(w: World, a: Action, i: nat)
    requires Inv(w) && Enabled(w, a) && i < |w.scopes| && !w.scopes[i].at.Idle?
    ensures i < |Effect(w, a).scopes|
    ensures Weight(Effect(w, a).scopes[i], Effect(w, a).regs) <= Weight(w.scopes[i], w.regs)
    ensures i == Target(w, a) && (a.Release? || a.Settle? || a.ChildSettled? || a.BeginDisposers? || a.StartNext? || a.Advance? || a.Finish?)
      ==> Weight(Effect(w, a).scopes[i], Effect(w, a).regs) < Weight(w.scopes[i], w.regs)
  {
    hide Inv;
    hide Effect;
    ParentsKept(w, a);
    var v := Effect(w, a);
    StepFaster(w, a);
    if i != Target(w, a) {
      OtherScope(w, a, i);
      WeightFaster(w, v, i);
    } else {
      match a
      case Release(k) => WeightRelease(w, k);
      case Settle(r, _) => OwnerScope(w, a); WeightEarly(w, v, i, r);
      case DisposeReg(r) => OwnerScope(w, a); WeightEarly(w, v, i, r);
      case StartNext(s) => OwnerScope(w, a); WeightEarly(w, v, i, w.scopes[s].at.todo[0]);
      case ChildSettled(_, _) => WeightOwn(w, a);
      case BeginDisposers(_) => WeightOwn(w, a);
      case Advance(_) => WeightOwn(w, a);
      case Finish(_) => WeightOwn(w, a);
      case _ =>
    }
  }

  // ----- the whole subtree under one step -----

  lemma {:induction false} UnderKept(sc: seq<Scope>, next: seq<Scope>, i: nat, t: nat)
    requires |sc| <= |next| && forall k | 0 <= k < |sc| :: next[k].parent == sc[k].parent
    requires i < |sc| || i == t
    ensures i < |sc| ==> (Under(next, i, t) <==> Under(sc, i, t))
    decreases i
  {
    if i != t && i < |sc| && sc[i].parent.Some? && sc[i].parent.value < i { UnderKept(sc, next, sc[i].parent.value, t); }
  }

  lemma ParentsKept(w: World, a: Action)
    requires Enabled(w, a)
    ensures |w.scopes| <= |Effect(w, a).scopes|
    ensures forall k | 0 <= k < |w.scopes| :: Effect(w, a).scopes[k].parent == w.scopes[k].parent
  {
  }

  lemma {:induction false} TotalStep(w: World, a: Action, t: nat, n: nat)
    requires Inv(w) && Enabled(w, a) && t < |w.scopes| && !w.scopes[t].at.Idle? && n <= |w.scopes|
    ensures |w.scopes| <= |Effect(w, a).scopes|
    ensures Total(Effect(w, a), t, n) <= Total(w, t, n)
    ensures Progresses(w, a, t) && Target(w, a) < n ==> Total(Effect(w, a), t, n) < Total(w, t, n)
  {
    hide Inv;
    hide Effect;
    ParentsKept(w, a);
    if n > 0 {
      TotalStep(w, a, t, n - 1);
      UnderKept(w.scopes, Effect(w, a).scopes, n - 1, t);
      if Under(w.scopes, n - 1, t) {
        DownwardClosed(w, n - 1, t);
        WeightStep(w, a, n - 1);
      }
    }
  }

  lemma MeasureStep(w: World, a: Action, t: nat)
    requires Inv(w) && Enabled(w, a) && t < |w.scopes| && !w.scopes[t].at.Idle?
    ensures Measure(Effect(w, a), t) <= Measure(w, t)
    ensures Progresses(w, a, t) ==> Measure(Effect(w, a), t) < Measure(w, t)
  {
    hide Inv;
    var v := Effect(w, a);
    TotalStep(w, a, t, |w.scopes|);
    if a.Child? {
      var n := |w.scopes|;
      if Under(v.scopes, n, t) {
        ParentsKept(w, a);
        UnderKept(w.scopes, v.scopes, a.s, t);
        DownwardClosed(w, a.s, t);
      }
    } else {
      assert |v.scopes| == |w.scopes|;
    }
  }

  // ----- someone can always move -----

  lemma {:induction false} HeldWitness(adms: seq<Admission>, s: nat) returns (a: nat)
    requires Held(adms, s) > 0
    ensures a < |adms| && adms[a] == Admission(s, false)
  {
    if adms[|adms| - 1] == Admission(s, false) {
      a := |adms| - 1;
    } else {
      a := HeldWitness(adms[..|adms| - 1], s);
    }
  }

  lemma NextInWalk(w: World, t: nat, i: nat) returns (a: Action)
    requires Inv(w) && i < |w.scopes| && Under(w.scopes, i, t) && w.scopes[i].at.Disposing?
    ensures Progresses(w, a, t)
  {
    var x := w.scopes[i];
    assert Owns(x, w.regs, i) && Walk(x, w.regs);
    if x.at.todo == [] {
      a := Finish(i);
      assert x.parent.Some? ==> x.parent.value < i;
    } else {
      var r := x.at.todo[0];
      assert r == x.registrations[|x.at.todo| - 1];
      assert r in x.registrations;
      match w.regs[r].status
      case Pending => a := StartNext(i);
      case Started => a := Settle(r, true);
      case Settled(_) => a := Advance(i);
    }
  }

  lemma NextAdmission(w: World, t: nat, i: nat) returns (a: Action)
    requires Inv(w) && i < |w.scopes| && Under(w.scopes, i, t) && w.scopes[i].active > 0
    ensures Progresses(w, a, t)
  {
    var k := HeldWitness(w.adms, i);
    a := Release(k);
  }

  lemma {:induction false} NextStep(w: World, t: nat, i: nat) returns (a: Action)
    requires Inv(w) && t < |w.scopes| && i < |w.scopes| && Under(w.scopes, i, t)
    requires w.scopes[i].at.Draining? || w.scopes[i].at.Disposing?
    ensures Progresses(w, a, t)
    decreases |w.scopes| - i
  {
    var x := w.scopes[i];
    if x.at.Disposing? {
      a := NextInWalk(w, t, i);
    } else if c :| c in x.at.awaiting {
      assert IsChild(w.scopes, c, i);
      if w.scopes[c].at.Done? {
        a := ChildSettled(i, c);
      } else {
        assert Link(x, w.scopes[c], c);
        a := NextStep(w, t, c);
      }
    } else if x.active > 0 {
      a := NextAdmission(w, t, i);
    } else {
      a := BeginDisposers(i);
    }
  }

  /** While `t` is closing some step of its subtree is ready: no lost wake-up and no deadlock. */
  lemma SomeoneCanMove(w: World, t: nat) returns (a: Action)
    requires Reachable(w) && t < |w.scopes| && w.scopes[t].State() == Closing
    ensures Progresses(w, a, t)
  {
    ReachableInv(w);
    a := NextStep(w, t, t);
  }

  // ----- whole runs -----

  ghost function ProgressSteps(w: World, actions: seq<Action>, t: nat): nat
    decreases |actions|
  {
    if actions == [] then 0
    else (if Progresses(w, actions[0], t) then 1 else 0) + ProgressSteps(Apply(w, actions[0]), actions[1..], t)
  }

  lemma DisposingStays(w: World, a: Action, t: nat)
    requires t < |w.scopes| && !w.scopes[t].at.Idle?
    ensures t < |Apply(w, a).scopes| && !Apply(w, a).scopes[t].at.Idle?
  {
  }

  /** However the rest of the program interleaves, a disposing subtree takes at most `Measure` steps. */
  lemma {:induction false} BoundedWork(w: World, actions: seq<Action>, t: nat)
    requires Inv(w) && t < |w.scopes| && !w.scopes[t].at.Idle?
    ensures ProgressSteps(w, actions, t) + Measure(Run(w, actions), t) <= Measure(w, t)
    decreases |actions|
  {
    if actions != [] {
      var u := Apply(w, actions[0]);
      InvApply(w, actions[0]);
      DisposingStays(w, actions[0], t);
      if Enabled(w, actions[0]) { MeasureStep(w, actions[0], t); }
      BoundedWork(u, actions[1..], t);
    }
  }

  /** From any state with a dispose in progress the scope can be driven to closed in at most `Measure` steps. */
  lemma {:induction false} ReachesClosed(w: World, t: nat) returns (actions: seq<Action>)
    requires Inv(w) && t < |w.scopes| && !w.scopes[t].at.Idle?
    ensures |actions| <= Measure(w, t) && ProgressSteps(w, actions, t) == |actions|
    ensures t < |Run(w, actions).scopes| && Run(w, actions).scopes[t].State() == Closed
    decreases Measure(w, t)
  {
    if w.scopes[t].at.Done? {
      actions := [];
    } else {
      var a := NextStep(w, t, t);
      InvApply(w, a);
      DisposingStays(w, a, t);
      MeasureStep(w, a, t);
      var rest := ReachesClosed(Apply(w, a), t);
      actions := [a] + rest;
      assert actions[1..] == rest;
    }
  }
}
