/**
 The tree of runtime scopes and its asynchronous, recursive disposal.

 Scopes, registrations and admissions live in an arena: the index of an entry
 stands for the object reference, and entries are numbered in the order in which
 they are created.  One `Action` is one stretch of code between two awaits, so a
 run is any list of actions and every interleaving is a run.
 */
module ScopeTree {
  import opened Wrappers

  datatype State = Open | Closing | Closed

  // A registration either wraps a caller's disposer or the removal of a service binding.
  datatype Kind = Callback | Binding(key: nat)
  datatype RegState = Pending | Started | Settled(ok: bool)
  datatype Reg = Reg(owner: nat, kind: Kind, status: RegState)

  datatype Admission = Admission(scope: nat, released: bool)

  datatype Cause = DisposerFailed(reg: nat) | ChildFailed(child: nat)

  // Where `performDispose` stands: not called, waiting for the child disposals in
  // `awaiting` and for the drain promise, walking `todo`, or returned.
  datatype Progress =
    | Idle
    | Draining(awaiting: set<nat>, drained: bool)
    | Disposing(todo: seq<nat>)
    | Done

  datatype Scope = Scope(
    parent: Option<nat>, at: Progress, children: set<nat>, registrations: seq<nat>,
    services: map<nat, nat>, active: nat, awaited: set<nat>, errors: seq<Cause>)
  {
    function State(): State {
      match at
      case Idle => Open
      case Done => Closed
      case _ => Closing
    }
  }

  // History of disposer starts; `byScope` tells the scope's own walk from an early dispose.
  datatype Start = Start(reg: nat, byScope: bool)

  datatype World = World(scopes: seq<Scope>, regs: seq<Reg>, adms: seq<Admission>, starts: seq<Start>)

  datatype Action =
    | Register(s: nat)
    | Provide(s: nat, key: nat)
    | Child(s: nat)
    | Admit(s: nat)
    | Release(a: nat)
    | Dispose(s: nat)
    | DisposeReg(r: nat)
    | Settle(r: nat, ok: bool)
    | ChildSettled(s: nat, c: nat)
    | BeginDisposers(s: nat)
    | StartNext(s: nat)
    | Advance(s: nat)
    | Finish(s: nat)

  // ----- the tree -----

  /** `i` is `s` or lies below it. */
  predicate Under(sc: seq<Scope>, i: nat, s: nat)
    decreases i
  {
    i == s || (i < |sc| && sc[i].parent.Some? && sc[i].parent.value < i && Under(sc, sc[i].parent.value, s))
  }

  /** What the walk of `assertHierarchyOpen` checks: `i` and all its ancestors are open. */
  predicate HierarchyOpen(sc: seq<Scope>, i: nat)
    decreases i
  {
    i < |sc| && sc[i].at.Idle? &&
    (sc[i].parent.Some? ==> sc[i].parent.value < i && HierarchyOpen(sc, sc[i].parent.value))
  }

  /** The nearest scope at or above `i` that binds `key`. */
  function Nearest(sc: seq<Scope>, i: nat, key: nat): Option<nat>
    decreases i
  {
    if i >= |sc| then None
    else if key in sc[i].services then Some(sc[i].services[key])
    else if sc[i].parent.Some? && sc[i].parent.value < i then Nearest(sc, sc[i].parent.value, key)
    else None
  }

  // ----- the actions -----

  const NewScope := Scope(None, Idle, {}, [], map[], 0, {}, [])

  const InitialWorld := World([NewScope], [], [], [])

  predicate Enabled(w: World, a: Action) {
    match a
    case Register(s) => HierarchyOpen(w.scopes, s)
    case Provide(s, key) => HierarchyOpen(w.scopes, s) && key !in w.scopes[s].services
    case Child(s) => HierarchyOpen(w.scopes, s)
    case Admit(s) => HierarchyOpen(w.scopes, s)
    case Release(a) => a < |w.adms| && !w.adms[a].released && w.adms[a].scope < |w.scopes|
    case Dispose(s) => s < |w.scopes| && w.scopes[s].at.Idle?
    case DisposeReg(r) => r < |w.regs| && w.regs[r].status.Pending? && w.regs[r].owner < |w.scopes|
    case Settle(r, ok) => r < |w.regs| && w.regs[r].status.Started? && (w.regs[r].kind.Binding? ==> ok)
    case ChildSettled(s, c) =>
      s < |w.scopes| && w.scopes[s].at.Draining? && c in w.scopes[s].at.awaiting && c < |w.scopes| && w.scopes[c].at.Done?
    case BeginDisposers(s) =>
      s < |w.scopes| && w.scopes[s].at.Draining? && w.scopes[s].at.awaiting == {} && w.scopes[s].at.drained
    case StartNext(s) =>
      s < |w.scopes| && w.scopes[s].at.Disposing? && w.scopes[s].at.todo != [] &&
      var r := w.scopes[s].at.todo[0]; r < |w.regs| && w.regs[r].owner == s && w.regs[r].status.Pending?
    case Advance(s) =>
      s < |w.scopes| && w.scopes[s].at.Disposing? && w.scopes[s].at.todo != [] &&
      var r := w.scopes[s].at.todo[0]; r < |w.regs| && w.regs[r].status.Settled?
    case Finish(s) =>
      s < |w.scopes| && w.scopes[s].at == Disposing([]) &&
      (w.scopes[s].parent.Some? ==> w.scopes[s].parent.value < s)
  }

  function AddReg(w: World, s: nat, kind: Kind): World
    requires s < |w.scopes|
  {
    var r := |w.regs|;
    var x := w.scopes[s].(registrations := w.scopes[s].registrations + [r],
                          services := if kind.Binding? then w.scopes[s].services[kind.key := r] else w.scopes[s].services);
    w.(regs := w.regs + [Reg(s, kind, Pending)], scopes := w.scopes[s := x])
  }

  function AddChild(w: World, s: nat): World
    requires s < |w.scopes|
  {
    var c := |w.scopes|;
    var x := w.scopes[s].(children := w.scopes[s].children + {c});
    w.(scopes := w.scopes[s := x] + [NewScope.(parent := Some(s))])
  }

  function AddAdmission(w: World, s: nat): World
    requires s < |w.scopes|
  {
    var x := w.scopes[s].(active := w.scopes[s].active + 1);
    w.(scopes := w.scopes[s := x], adms := w.adms + [Admission(s, false)])
  }

  /** The counter side of a release: the last one resolves the drain promise. */
  function Released(x: Scope): Scope {
    if x.active == 0 then x
    else if x.active == 1 && x.at.Draining? then x.(active := 0, at := x.at.(drained := true))
    else x.(active := x.active - 1)
  }

  function ReleaseAdmission(w: World, a: nat): World
    requires a < |w.adms| && w.adms[a].scope < |w.scopes|
  {
    var s := w.adms[a].scope;
    w.(adms := w.adms[a := w.adms[a].(released := true)], scopes := w.scopes[s := Released(w.scopes[s])])
  }

  function Begun(x: Scope): Scope {
    x.(at := Draining(x.children, x.active == 0), awaited := x.children)
  }

  /** One synchronous `dispose`: every open scope at or below `s` starts closing. */
  function Flip(sc: seq<Scope>, s: nat): seq<Scope> {
    seq(|sc|, i requires 0 <= i < |sc| => if Under(sc, i, s) && sc[i].at.Idle? then Begun(sc[i]) else sc[i])
  }

  function Unbind(x: Scope, kind: Kind, r: nat): Scope {
    if kind.Binding? && kind.key in x.services && x.services[kind.key] == r
    then x.(services := x.services - {kind.key}) else x
  }

  function StartReg(w: World, r: nat, byScope: bool): World
    requires r < |w.regs| && w.regs[r].owner < |w.scopes|
  {
    var s := w.regs[r].owner;
    w.(regs := w.regs[r := w.regs[r].(status := Started)],
       scopes := w.scopes[s := Unbind(w.scopes[s], w.regs[r].kind, r)],
       starts := w.starts + [Start(r, byScope)])
  }

  function SettleChild(x: Scope, c: nat, failed: bool): Scope
    requires x.at.Draining?
  {
    x.(at := x.at.(awaiting := x.at.awaiting - {c}),
       errors := if failed then x.errors + [ChildFailed(c)] else x.errors)
  }

  function Reversed(s: seq<nat>): (r: seq<nat>)
    ensures |r| == |s| && forall k | 0 <= k < |s| :: r[k] == s[|s| - 1 - k]
  {
    if s == [] then [] else [s[|s| - 1]] + Reversed(s[..|s| - 1])
  }

  function AdvanceScope(x: Scope, ok: bool): Scope
    requires x.at.Disposing? && x.at.todo != []
  {
    x.(at := Disposing(x.at.todo[1..]),
       errors := if ok then x.errors else x.errors + [DisposerFailed(x.at.todo[0])])
  }

  function FinishScope(sc: seq<Scope>, s: nat): seq<Scope>
    requires s < |sc| && (sc[s].parent.Some? ==> sc[s].parent.value < s)
  {
    var closed := sc[s := sc[s].(at := Done, registrations := [], services := map[])];
    if sc[s].parent.None? then closed
    else var p := sc[s].parent.value; closed[p := closed[p].(children := closed[p].children - {s})]
  }

  function Effect(w: World, a: Action): World
    requires Enabled(w, a)
  {
    match a
    case Register(s) => AddReg(w, s, Callback)
    case Provide(s, key) => AddReg(w, s, Binding(key))
    case Child(s) => AddChild(w, s)
    case Admit(s) => AddAdmission(w, s)
    case Release(a) => ReleaseAdmission(w, a)
    case Dispose(s) => w.(scopes := Flip(w.scopes, s))
    case DisposeReg(r) => StartReg(w, r, false)
    case Settle(r, ok) => w.(regs := w.regs[r := w.regs[r].(status := Settled(ok))])
    case ChildSettled(s, c) => w.(scopes := w.scopes[s := SettleChild(w.scopes[s], c, w.scopes[c].errors != [])])
    case BeginDisposers(s) =>
      w.(scopes := w.scopes[s := w.scopes[s].(at := Disposing(Reversed(w.scopes[s].registrations)), children := {})])
    case StartNext(s) => StartReg(w, w.scopes[s].at.todo[0], true)
    case Advance(s) => w.(scopes := w.scopes[s := AdvanceScope(w.scopes[s], w.regs[w.scopes[s].at.todo[0]].status.ok)])
    case Finish(s) => w.(scopes := FinishScope(w.scopes, s))
  }

  /** A call that is refused throws and a step that is not ready does not happen: both change nothing. */
  function Apply(w: World, a: Action): World {
    if Enabled(w, a) then Effect(w, a) else w
  }

  function Run(w: World, actions: seq<Action>): World
    decreases |actions|
  {
    if actions == [] then w else Run(Apply(w, actions[0]), actions[1..])
  }
}
