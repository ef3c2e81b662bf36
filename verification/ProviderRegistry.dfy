/**
 The revisioned registry of dynamic capability providers: what registrations and disposals do to
 the name table, the provider table and the retired keys.
 */
module ProviderRegistry {
  import opened Wrappers

  datatype Capability = Capability(name: string, tool: int)

  datatype Binding = Static | Dynamic(providerId: string, revision: string)

  datatype Registered = Registered(capability: Capability, binding: Binding)

  datatype Provider = Provider(revision: string, names: set<string>)

  datatype Registry = Registry(byName: map<string, Registered>, providers: map<string, Provider>, retired: set<string>)

  datatype RegisterError = ProviderRequired | RevisionRequired | Retired | SameRevision | NameRequired | DuplicateName | Conflict

  // The provider and revision of one generation, joined by a NUL character.
  function BindingKey(providerId: string, revision: string): string {
    providerId + [0 as char] + revision
  }

  // ----- the source's checks and updates -----

  function Occupied(reg: Registry, providerId: string, name: string): bool {
    name in reg.byName &&
    !(reg.byName[name].binding.Dynamic? && reg.byName[name].binding.providerId == providerId)
  }

  /** Stage the capabilities in order; the first offending one decides the error. */
  function Stage(reg: Registry, providerId: string, revision: string, capabilities: seq<Capability>, staged: map<string, Registered>)
      : Result<map<string, Registered>, RegisterError>
    decreases |capabilities|
  {
    if capabilities == [] then Ok(staged)
    else
      var c := capabilities[0];
      if c.name == "" then Err(NameRequired)
      else if c.name in staged then Err(DuplicateName)
      else if Occupied(reg, providerId, c.name) then Err(Conflict)
      else Stage(reg, providerId, revision, capabilities[1..], staged[c.name := Registered(c, Dynamic(providerId, revision))])
  }

  /** Drop the names that are still bound to this generation. */
  function Unbind(byName: map<string, Registered>, names: set<string>, binding: Binding): map<string, Registered> {
    map n | n in byName && !(n in names && byName[n].binding == binding) :: byName[n]
  }

  function Register(reg: Registry, providerId: string, revision: string, capabilities: seq<Capability>): Result<Registry, RegisterError> {
    if providerId == "" then Err(ProviderRequired)
    else if revision == "" then Err(RevisionRequired)
    else if BindingKey(providerId, revision) in reg.retired then Err(Retired)
    else if providerId in reg.providers && reg.providers[providerId].revision == revision then Err(SameRevision)
    else
      var staged := Stage(reg, providerId, revision, capabilities, map[]);
      if staged.Err? then Err(staged.error)
      else
        var current := if providerId in reg.providers then Some(reg.providers[providerId]) else None;
        var kept := if current.None? then reg.byName
          else Unbind(reg.byName, current.value.names, Dynamic(providerId, current.value.revision));
        var retired := if current.None? then reg.retired else reg.retired + {BindingKey(providerId, current.value.revision)};
        Ok(Registry(kept + staged.value, reg.providers[providerId := Provider(revision, staged.value.Keys)], retired))
  }

  /** What the disposer of one generation does when it is called for the first time. */
  function Unregister(reg: Registry, providerId: string, revision: string): Registry {
    if providerId !in reg.providers || reg.providers[providerId].revision != revision then reg
    else Registry(Unbind(reg.byName, reg.providers[providerId].names, Dynamic(providerId, revision)),
                  reg.providers - {providerId}, reg.retired + {BindingKey(providerId, revision)})
  }

  // ----- runs -----

  datatype Handle = Handle(providerId: string, revision: string, disposed: bool)

  // `ended` remembers which generations have been live and are not any more.
  datatype World = World(reg: Registry, handles: seq<Handle>, ended: set<(string, string)>)

  datatype Action = Add(providerId: string, revision: string, capabilities: seq<Capability>) | Dispose(i: nat)

  function Live(reg: Registry): set<(string, string)> {
    set p | p in reg.providers :: (p, reg.providers[p].revision)
  }

  function Apply(w: World, a: Action): World {
    match a
    case Add(p, r, capabilities) =>
      (match Register(w.reg, p, r, capabilities)
       case Err(_) => w
       case Ok(reg) => World(reg, w.handles + [Handle(p, r, false)], w.ended + (Live(w.reg) - Live(reg))))
    case Dispose(i) =>
      if i >= |w.handles| || w.handles[i].disposed then w
      else
        var h := w.handles[i];
        var reg := Unregister(w.reg, h.providerId, h.revision);
        World(reg, w.handles[i := h.(disposed := true)], w.ended + (Live(w.reg) - Live(reg)))
  }

  function Run(w: World, actions: seq<Action>): World
    decreases |actions|
  {
    if actions == [] then w else Run(Apply(w, actions[0]), actions[1..])
  }

  ghost predicate StaticTable(byName: map<string, Registered>) {
    forall n | n in byName :: byName[n].binding.Static? && byName[n].capability.name == n
  }

  function Start(byName: map<string, Registered>): World {
    World(Registry(byName, map[], {}), [], {})
  }

  // ----- the two tables describe the same bindings -----

  ghost predicate NameOk(reg: Registry, n: string)
    requires n in reg.byName
  {
    var entry := reg.byName[n];
    && entry.capability.name == n
    && (entry.binding.Dynamic? ==>
          && entry.binding.providerId in reg.providers
          && reg.providers[entry.binding.providerId].revision == entry.binding.revision
          && n in reg.providers[entry.binding.providerId].names)
  }

  ghost predicate ProviderOk(reg: Registry, p: string)
    requires p in reg.providers
  {
    forall n | n in reg.providers[p].names :: n in reg.byName && reg.byName[n].binding == Dynamic(p, reg.providers[p].revision)
  }

  ghost predicate Agree(reg: Registry) {
    (forall n | n in reg.byName :: NameOk(reg, n)) && (forall p | p in reg.providers :: ProviderOk(reg, p))
  }

  ghost predicate EndedKeys(retired: set<string>, ended: set<(string, string)>) {
    && (forall e | e in ended :: BindingKey(e.0, e.1) in retired)
    && (forall k | k in retired :: exists e :: e in ended && BindingKey(e.0, e.1) == k)
  }

  ghost predicate Inv(w: World) {
    && Agree(w.reg)
    && Live(w.reg) !! w.ended
    && EndedKeys(w.reg.retired, w.ended)
    && (forall i | 0 <= i < |w.handles| && w.handles[i].disposed :: (w.handles[i].providerId, w.handles[i].revision) in w.ended)
    && (forall i | 0 <= i < |w.handles| :: var h := w.handles[i]; (h.providerId, h.revision) in w.ended + Live(w.reg))
  }

  ghost predicate Reachable(w: World) {
    exists byName, actions :: StaticTable(byName) && w == Run(Start(byName), actions)
  }

  // The staged map: one entry per capability, bound to the new generation, over no occupied name.
  ghost predicate Staged(reg: Registry, p: string, r: string, staged: map<string, Registered>) {
    forall n | n in staged :: n != "" && staged[n].capability.name == n && staged[n].binding == Dynamic(p, r) && !Occupied(reg, p, n)
  }

  lemma {:induction false} StageOk(reg: Registry, p: string, r: string, capabilities: seq<Capability>, staged: map<string, Registered>)
    requires Staged(reg, p, r, staged)
    ensures var s := Stage(reg, p, r, capabilities, staged);
      s.Ok? ==> Staged(reg, p, r, s.value) && forall n :: n in s.value <==> n in staged || exists c :: c in capabilities && c.name == n
    decreases |capabilities|
  {
    if capabilities != [] {
      var c := capabilities[0];
      if c.name != "" && c.name !in staged && !Occupied(reg, p, c.name) {
        StageOk(reg, p, r, capabilities[1..], staged[c.name := Registered(c, Dynamic(p, r))]);
        assert forall d :: d in capabilities <==> d == c || d in capabilities[1..];
      }
    }
  }

  /** Taking over a name table: what is bound to the provider goes, what was staged comes, nothing else moves. */
  function Rebound(byName: map<string, Registered>, p: string, staged: map<string, Registered>): map<string, Registered> {
    WithoutProvider(byName, p) + staged
  }

  function WithoutProvider(byName: map<string, Registered>, p: string): map<string, Registered> {
    map n | n in byName && !(byName[n].binding.Dynamic? && byName[n].binding.providerId == p) :: byName[n]
  }

  // Dropping what the live generation lists is dropping all that is bound to the provider.
  lemma UnbindProvider(reg: Registry, p: string)
    requires Agree(reg)
    ensures p in reg.providers ==>
      Unbind(reg.byName, reg.providers[p].names, Dynamic(p, reg.providers[p].revision)) == WithoutProvider(reg.byName, p)
    ensures p !in reg.providers ==> reg.byName == WithoutProvider(reg.byName, p)
  {
    forall n | n in reg.byName ensures NameOk(reg, n) { }
  }

  /** A successful registration, said through bindings alone. */
  lemma RegisterMeans(reg: Registry, p: string, r: string, capabilities: seq<Capability>)
    requires Agree(reg) && Register(reg, p, r, capabilities).Ok?
    ensures var next, staged := Register(reg, p, r, capabilities).value, Stage(reg, p, r, capabilities, map[]);
      && staged.Ok? && Staged(reg, p, r, staged.value)
      && next.byName == Rebound(reg.byName, p, staged.value)
      && next.providers == reg.providers[p := Provider(r, staged.value.Keys)]
  {
    StageOk(reg, p, r, capabilities, map[]);
    UnbindProvider(reg, p);
    hide Stage;
    hide Unbind;
    hide Agree;
  }

  lemma RegisterAgrees(reg: Registry, p: string, r: string, capabilities: seq<Capability>)
    requires Agree(reg) && Register(reg, p, r, capabilities).Ok?
    ensures Agree(Register(reg, p, r, capabilities).value)
  {
    RegisterMeans(reg, p, r, capabilities);
    var next, staged := Register(reg, p, r, capabilities).value, Stage(reg, p, r, capabilities, map[]).value;
    hide Register;
    hide Stage;
    forall n | n in next.byName ensures NameOk(next, n) {
      if n !in staged { assert NameOk(reg, n); }
    }
    forall q | q in next.providers ensures ProviderOk(next, q) {
      if q != p {
        assert ProviderOk(reg, q);
        forall n | n in next.providers[q].names ensures n in next.byName && next.byName[n] == reg.byName[n] { }
      }
    }
  }

  /** A disposal, said through bindings alone: exactly what this generation bound goes. */
  lemma UnregisterMeans(reg: Registry, p: string, r: string)
    requires Agree(reg)
    ensures var next := Unregister(reg, p, r);
      && next.byName == (map n | n in reg.byName && reg.byName[n].binding != Dynamic(p, r) :: reg.byName[n])
      && Live(next) == Live(reg) - {(p, r)}
      && Agree(next)
  {
    var next := Unregister(reg, p, r);
    forall n | n in reg.byName ensures NameOk(reg, n) { }
    forall n | n in next.byName ensures NameOk(next, n) { assert NameOk(reg, n); }
    forall q | q in next.providers ensures ProviderOk(next, q) {
      assert ProviderOk(reg, q);
    }
    if p in reg.providers && reg.providers[p].revision == r {
      assert forall q :: q in next.providers <==> q in reg.providers && q != p;
    }
  }

  // Registering ends the provider's previous generation, if any, and makes the new one live.
  lemma RegisterEnds(reg: Registry, p: string, r: string, capabilities: seq<Capability>)
    requires Register(reg, p, r, capabilities).Ok?
    ensures var next := Register(reg, p, r, capabilities).value;
      && BindingKey(p, r) !in reg.retired && (p, r) !in Live(reg) && (p, r) in Live(next)
      && Live(next) - {(p, r)} <= Live(reg)
      && next.retired == reg.retired + (set e | e in Live(reg) - Live(next) :: BindingKey(e.0, e.1))
  {
    var next := Register(reg, p, r, capabilities).value;
    hide Stage;
    assert forall q :: q in next.providers <==> q in reg.providers || q == p;
    if p in reg.providers {
      assert Live(reg) - Live(next) == {(p, reg.providers[p].revision)};
    } else {
      assert Live(reg) - Live(next) == {};
    }
  }

  lemma UnregisterEnds(reg: Registry, p: string, r: string)
    ensures var next := Unregister(reg, p, r);
      && Live(next) == Live(reg) - {(p, r)}
      && next.retired == reg.retired + (set e | e in Live(reg) - Live(next) :: BindingKey(e.0, e.1))
  {
    var next := Unregister(reg, p, r);
    if p in reg.providers && reg.providers[p].revision == r {
      assert forall q :: q in next.providers <==> q in reg.providers && q != p;
      assert Live(reg) - Live(next) == {(p, r)};
    } else {
      assert (p, r) !in Live(reg);
      assert Live(reg) - Live(next) == {};
    }
  }

  lemma EndedMore(retired: set<string>, ended: set<(string, string)>, more: set<(string, string)>)
    requires EndedKeys(retired, ended)
    ensures EndedKeys(retired + (set e | e in more :: BindingKey(e.0, e.1)), ended + more)
  {
    var keys := set e | e in more :: BindingKey(e.0, e.1);
    forall k | k in retired ensures exists e :: e in ended + more && BindingKey(e.0, e.1) == k {
      var e :| e in ended && BindingKey(e.0, e.1) == k;
      assert e in ended + more;
    }
    forall k | k in keys ensures exists e :: e in ended + more && BindingKey(e.0, e.1) == k {
      var e :| e in more && BindingKey(e.0, e.1) == k;
      assert e in ended + more;
    }
  }

  lemma StepKeeps(w: World, a: Action)
    requires Inv(w)
    ensures Inv(Apply(w, a)) && w.ended <= Apply(w, a).ended
  {
    match a
    case Add(p, r, capabilities) =>
      if Register(w.reg, p, r, capabilities).Ok? {
        RegisterAgrees(w.reg, p, r, capabilities);
        RegisterEnds(w.reg, p, r, capabilities);
        hide Register;
        hide Agree;
        var next := Register(w.reg, p, r, capabilities).value;
        EndedMore(w.reg.retired, w.ended, Live(w.reg) - Live(next));
        assert (p, r) !in w.ended;
      }
    case Dispose(i) =>
      if i < |w.handles| && !w.handles[i].disposed {
        var h := w.handles[i];
        UnregisterMeans(w.reg, h.providerId, h.revision);
        UnregisterEnds(w.reg, h.providerId, h.revision);
        hide Unregister;
        hide Agree;
        EndedMore(w.reg.retired, w.ended, Live(w.reg) - Live(Unregister(w.reg, h.providerId, h.revision)));
      }
  }

  lemma {:induction false} RunKeeps(w: World, actions: seq<Action>)
    requires Inv(w)
    ensures Inv(Run(w, actions)) && w.ended <= Run(w, actions).ended
    decreases |actions|
  {
    if actions != [] {
      StepKeeps(w, actions[0]);
      RunKeeps(Apply(w, actions[0]), actions[1..]);
    }
  }

  lemma ReachableInv(w: World)
    requires Reachable(w)
    ensures Inv(w)
  {
    var byName, actions :| StaticTable(byName) && w == Run(Start(byName), actions);
    RunKeeps(Start(byName), actions);
  }

  // ----- the promises -----

  /** In every reachable registry the name table and the provider table describe the same bindings. */
  lemma TablesAgree(w: World, n: string, p: string)
    requires Reachable(w)
    ensures n in w.reg.byName && w.reg.byName[n].binding.Dynamic? && w.reg.byName[n].binding.providerId == p <==>
      p in w.reg.providers && n in w.reg.providers[p].names
    ensures p in w.reg.providers && n in w.reg.providers[p].names ==>
      w.reg.byName[n].binding.revision == w.reg.providers[p].revision && w.reg.byName[n].capability.name == n
  {
    ReachableInv(w);
    if n in w.reg.byName { assert NameOk(w.reg, n); }
    if p in w.reg.providers { assert ProviderOk(w.reg, p); }
  }

  /** A generation that has ended is never live again, in any continuation of the run. */
  lemma EndedNeverReturns(w: World, p: string, r: string, actions: seq<Action>)
    requires Reachable(w) && (p, r) in w.ended
    ensures var later := Run(w, actions);
      (p, r) in later.ended && !(p in later.reg.providers && later.reg.providers[p].revision == r)
  {
    ReachableInv(w);
    RunKeeps(w, actions);
    assert (p, r) !in Live(Run(w, actions).reg);
  }

  /** A disposer removes exactly what its own generation still binds: nothing at all once that generation has ended. */
  lemma DisposerTouchesOnlyItsGeneration(w: World, i: nat)
    requires Reachable(w) && i < |w.handles|
    ensures var h, next := w.handles[i], Apply(w, Dispose(i));
      && next.reg.byName == (map n | n in w.reg.byName && w.reg.byName[n].binding != Dynamic(h.providerId, h.revision) :: w.reg.byName[n])
      && Live(next.reg) == Live(w.reg) - {(h.providerId, h.revision)}
      && ((h.providerId, h.revision) !in Live(w.reg) ==> next.reg == w.reg)
      && next.handles[i].disposed && (h.providerId, h.revision) in next.ended
      && Apply(next, Dispose(i)) == next
  {
    ReachableInv(w);
    var h := w.handles[i];
    UnregisterMeans(w.reg, h.providerId, h.revision);
    if h.disposed {
      assert (h.providerId, h.revision) !in Live(w.reg);
      assert Unregister(w.reg, h.providerId, h.revision) == w.reg;
    } else {
      StepKeeps(w, Dispose(i));
      if (h.providerId, h.revision) !in Live(w.reg) { assert Unregister(w.reg, h.providerId, h.revision) == w.reg; }
    }
  }

  /** A registration is refused as retired exactly if a generation with the same key has ended. */
  lemma RefusedAsRetiredIff(w: World, p: string, r: string, capabilities: seq<Capability>)
    requires Reachable(w) && p != "" && r != ""
    ensures Register(w.reg, p, r, capabilities) == Err(Retired) <==> exists e :: e in w.ended && BindingKey(e.0, e.1) == BindingKey(p, r)
  {
    ReachableInv(w);
    hide Agree;
    StageNotRetired(w.reg, p, r, capabilities, map[]);
  }

  lemma {:induction false} StageNotRetired(reg: Registry, p: string, r: string, capabilities: seq<Capability>, staged: map<string, Registered>)
    ensures Stage(reg, p, r, capabilities, staged) != Err(Retired)
    decreases |capabilities|
  {
    if capabilities != [] {
      var c := capabilities[0];
      StageNotRetired(reg, p, r, capabilities[1..], staged[c.name := Registered(c, Dynamic(p, r))]);
    }
  }

  lemma KeyInjective(p: string, r: string, q: string, s: string)
    requires 0 as char !in p && 0 as char !in q && BindingKey(p, r) == BindingKey(q, s)
    ensures p == q && r == s
  {
    var k := BindingKey(p, r);
    forall i | 0 <= i < |p| ensures k[i] != 0 as char { assert k[i] == p[i] && p[i] in p; }
    forall i | 0 <= i < |q| ensures k[i] != 0 as char { assert k[i] == q[i] && q[i] in q; }
    assert k[|p|] == 0 as char && k[|q|] == 0 as char;
    assert k[..|p|] == p && k[..|q|] == q && k[|p| + 1..] == r && k[|q| + 1..] == s;
  }

  /** Provider ids without NUL are never confused: a pair is refused as retired exactly if that very pair has ended. */
  lemma RefusedOnlyIfEnded(w: World, p: string, r: string, capabilities: seq<Capability>)
    requires Reachable(w) && p != "" && r != ""
    requires 0 as char !in p && forall e | e in w.ended :: 0 as char !in e.0
    ensures Register(w.reg, p, r, capabilities) == Err(Retired) <==> (p, r) in w.ended
  {
    RefusedAsRetiredIff(w, p, r, capabilities);
    hide Register;
    if e :| e in w.ended && BindingKey(e.0, e.1) == BindingKey(p, r) { KeyInjective(e.0, e.1, p, r); }
  }

  /** The key of a live generation counts as retired exactly if a generation of another provider with the same key has ended. */
  lemma LiveKeyRetiredIff(w: World, p: string)
    requires Reachable(w) && p in w.reg.providers
    ensures BindingKey(p, w.reg.providers[p].revision) in w.reg.retired <==>
      exists e :: e in w.ended && e.0 != p && BindingKey(e.0, e.1) == BindingKey(p, w.reg.providers[p].revision)
  {
    ReachableInv(w);
    hide Agree;
    var r := w.reg.providers[p].revision;
    assert (p, r) in Live(w.reg);
    if e :| e in w.ended && BindingKey(e.0, e.1) == BindingKey(p, r) {
      SameProviderKey(p, e.1, r);
    }
  }

  lemma SameProviderKey(p: string, r: string, s: string)
    ensures BindingKey(p, r) == BindingKey(p, s) ==> r == s
  {
    assert BindingKey(p, r)[|p| + 1..] == r && BindingKey(p, s)[|p| + 1..] == s;
  }

  lemma RegisterNothing(reg: Registry, p: string, r: string)
    requires p != "" && r != "" && BindingKey(p, r) !in reg.retired && p !in reg.providers
    ensures Register(reg, p, r, []) == Ok(Registry(reg.byName, reg.providers[p := Provider(r, {})], reg.retired))
  {
    var none: map<string, Registered> := map[];
    assert none.Keys == {};
    assert reg.byName + none == reg.byName;
  }

  /** Two different generations with the same key: both live at once, and ending one retires the key of the other. */
  lemma CollidingKeys()
    ensures var nul := [0 as char];
      var w := Run(Start(map[]), [Add("a", "b" + nul + "c", []), Add("a" + nul + "b", "c", []), Dispose(0)]);
      && Live(w.reg) == {("a" + nul + "b", "c")}
      && BindingKey("a" + nul + "b", "c") in w.reg.retired
      && ("a" + nul + "b", "c") !in w.ended
  {
    var nul := [0 as char];
    var p, r, q, s := "a", "b" + nul + "c", "a" + nul + "b", "c";
    var w0 := Start(map[]);
    var w1, w2 := Apply(w0, Add(p, r, [])), Apply(Apply(w0, Add(p, r, [])), Add(q, s, []));
    var w3 := Apply(w2, Dispose(0));
    assert BindingKey(p, r) == ['a', 0 as char, 'b', 0 as char, 'c'];
    assert BindingKey(q, s) == ['a', 0 as char, 'b', 0 as char, 'c'];
    assert |p| != |q|;
    RegisterNothing(w0.reg, p, r);
    RegisterNothing(w1.reg, q, s);
    hide Register;
    assert w1.reg == Registry(map[], map[p := Provider(r, {})], {});
    assert w2.reg == Registry(map[], map[p := Provider(r, {}), q := Provider(s, {})], {});
    assert w2.handles == [Handle(p, r, false), Handle(q, s, false)];
    assert w3.reg.providers == map[q := Provider(s, {})];
    var acts := [Add(p, r, []), Add(q, s, []), Dispose(0)];
    assert acts[1..] == [Add(q, s, []), Dispose(0)] && acts[1..][1..] == [Dispose(0)];
    assert Run(w0, acts) == Run(w1, acts[1..]) == Run(w2, acts[1..][1..]) == w3;
    assert Live(w2.reg) - Live(w3.reg) == {(p, r)};
  }

  // The capabilities given at construction are never touched.
  ghost predicate SameStatics(before: map<string, Registered>, after: map<string, Registered>) {
    forall n, c :: (n in before && before[n] == Registered(c, Static)) <==> (n in after && after[n] == Registered(c, Static))
  }

  lemma StepStatics(w: World, a: Action)
    requires Inv(w)
    ensures SameStatics(w.reg.byName, Apply(w, a).reg.byName)
  {
    match a
    case Add(p, r, capabilities) =>
      if Register(w.reg, p, r, capabilities).Ok? {
        RegisterMeans(w.reg, p, r, capabilities);
        hide Register;
        hide Stage;
      }
    case Dispose(i) =>
      if i < |w.handles| { UnregisterMeans(w.reg, w.handles[i].providerId, w.handles[i].revision); }
  }

  /** No sequence of registrations and disposals adds, removes or replaces a static capability. */
  lemma {:induction false} StaticsStay(w: World, actions: seq<Action>)
    requires Inv(w)
    ensures SameStatics(w.reg.byName, Run(w, actions).reg.byName)
    decreases |actions|
  {
    if actions != [] {
      StepStatics(w, actions[0]);
      StepKeeps(w, actions[0]);
      StaticsStay(Apply(w, actions[0]), actions[1..]);
    }
  }

  // ----- the check at the entry of `execute` -----

  datatype Entry = Admitted(capability: Capability) | Stale | Unknown

  function EntryCheck(reg: Registry, name: string, expected: Option<string>): Entry {
    if name !in reg.byName then (if expected.Some? then Stale else Unknown)
    else
      match reg.byName[name].binding
      case Dynamic(_, revision) => if expected == Some(revision) then Admitted(reg.byName[name].capability) else Stale
      case Static => if expected.Some? then Stale else Admitted(reg.byName[name].capability)
  }

  /** A call that names a revision is admitted at entry only to a generation that is live then and has not ended. */
  lemma EntryIsCurrent(w: World, name: string, revision: string)
    requires Reachable(w) && EntryCheck(w.reg, name, Some(revision)).Admitted?
    ensures exists p :: (p in w.reg.providers && name in w.reg.providers[p].names &&
      w.reg.providers[p].revision == revision && (p, revision) !in w.ended)
  {
    ReachableInv(w);
    var p := w.reg.byName[name].binding.providerId;
    TablesAgree(w, name, p);
    assert (p, revision) in Live(w.reg);
  }

  // ----- the objects -----

  class CapabilityBroker {
    var byName: map<string, Registered>
    var dynamicProviders: map<string, Provider>
    var retired: set<string>

    function View(): Registry
      reads this
    {
      Registry(byName, dynamicProviders, retired)
    }

    /** The static capabilities; a repeated name throws, which `ok` reports. */
    static method New(capabilities: seq<Capability>) returns (broker: CapabilityBroker, ok: bool)
      ensures fresh(broker)
      ensures ok <==> forall i, j | 0 <= i < j < |capabilities| :: capabilities[i].name != capabilities[j].name
      ensures ok ==> StaticTable(broker.byName) && broker.View() == Start(broker.byName).reg
      ensures ok ==> forall c :: c in capabilities <==> c.name in broker.byName && broker.byName[c.name] == Registered(c, Static)
    {
      broker := new CapabilityBroker.Empty();
      for i := 0 to |capabilities|
        invariant StaticTable(broker.byName) && broker.View() == Start(broker.byName).reg
        invariant forall j, l | 0 <= j < l < i :: capabilities[j].name != capabilities[l].name
        invariant forall j | 0 <= j < i :: capabilities[j].name in broker.byName && broker.byName[capabilities[j].name].capability == capabilities[j]
        invariant forall n | n in broker.byName :: broker.byName[n].capability in capabilities[..i]
      {
        var c := capabilities[i];
        if c.name in broker.byName {
          ok := false;
          return;
        }
        broker.byName := broker.byName[c.name := Registered(c, Static)];
      }
      ok := true;
    }

    constructor Empty()
      ensures View() == Registry(map[], map[], {})
    {
      byName, dynamicProviders, retired := map[], map[], {};
    }

    /** The staging loop, which reads the table and changes nothing. */
    method StageAll(providerId: string, revision: string, capabilities: seq<Capability>)
        returns (r: Result<map<string, Registered>, RegisterError>)
      ensures r == Stage(View(), providerId, revision, capabilities, map[])
    {
      var staged: map<string, Registered> := map[];
      for i := 0 to |capabilities|
        invariant Stage(View(), providerId, revision, capabilities[i..], staged) == Stage(View(), providerId, revision, capabilities, map[])
      {
        var c := capabilities[i];
        assert capabilities[i..][0] == c && capabilities[i..][1..] == capabilities[i + 1..];
        if c.name == "" { return Err(NameRequired); }
        if c.name in staged { return Err(DuplicateName); }
        if c.name in byName {
          var occupied := byName[c.name];
          if !(occupied.binding.Dynamic? && occupied.binding.providerId == providerId) { return Err(Conflict); }
        }
        staged := staged[c.name := Registered(c, Dynamic(providerId, revision))];
      }
      r := Ok(staged);
    }

    /** The loop over the names of a generation: delete those still bound to it. */
    method DeleteBound(names: set<string>, binding: Binding)
      modifies this`byName
      ensures byName == Unbind(old(byName), names, binding)
    {
      var todo := names;
      ghost var was := byName;
      assert byName == Unbind(was, {}, binding);
      while todo != {}
        invariant todo <= names && byName == Unbind(was, names - todo, binding)
      {
        var n :| n in todo;
        if n in byName && byName[n].binding == binding { byName := byName - {n}; }
        todo := todo - {n};
      }
      assert names - todo == names;
    }

    /** Register a generation; an error leaves every table as it was. */
    method RegisterDynamicProvider(providerId: string, revision: string, capabilities: seq<Capability>)
        returns (r: Result<Disposer, RegisterError>)
      modifies this
      ensures match Register(old(View()), providerId, revision, capabilities)
        case Ok(next) =>
          r.Ok? && View() == next && fresh(r.value) && r.value.broker == this &&
          r.value.State() == Handle.Handle(providerId, revision, false)
        case Err(e) => r == Err(e) && View() == old(View())
    {
      if providerId == "" { return Err(ProviderRequired); }
      if revision == "" { return Err(RevisionRequired); }
      var bindingKey := BindingKey(providerId, revision);
      if bindingKey in retired { return Err(Retired); }
      if providerId in dynamicProviders && dynamicProviders[providerId].revision == revision { return Err(SameRevision); }
      var staged := StageAll(providerId, revision, capabilities);
      if staged.Err? { return Err(staged.error); }
      hide Stage;
      if providerId in dynamicProviders {
        var current := dynamicProviders[providerId];
        DeleteBound(current.names, Dynamic(providerId, current.revision));
        retired := retired + {BindingKey(providerId, current.revision)};
      }
      byName := byName + staged.value;
      dynamicProviders := dynamicProviders[providerId := Provider(revision, staged.value.Keys)];
      var disposer := new Disposer(this, providerId, revision);
      r := Ok(disposer);
    }
  }

  class Disposer {
    const broker: CapabilityBroker
    const providerId: string
    const revision: string
    var disposed: bool

    function State(): Handle
      reads this
    {
      Handle.Handle(providerId, revision, disposed)
    }

    constructor (broker: CapabilityBroker, providerId: string, revision: string)
      ensures this.broker == broker && State() == Handle.Handle(providerId, revision, false)
    {
      this.broker, this.providerId, this.revision, disposed := broker, providerId, revision, false;
    }

    /** The returned closure: only its first call, and only on its own live generation, changes the tables. */
    method Dispose()
      modifies this, broker
      ensures State() == old(State()).(disposed := true)
      ensures broker.View() == if old(disposed) then old(broker.View()) else Unregister(old(broker.View()), providerId, revision)
    {
      if disposed { return; }
      disposed := true;
      if providerId !in broker.dynamicProviders || broker.dynamicProviders[providerId].revision != revision { return; }
      var active := broker.dynamicProviders[providerId];
      broker.DeleteBound(active.names, Dynamic(providerId, revision));
      broker.dynamicProviders := broker.dynamicProviders - {providerId};
      broker.retired := broker.retired + {BindingKey(providerId, revision)};
    }
  }
}
