/**
 The run-local registry of tools and event handlers, as a client of the scope tree:
 every body runs under an admission of the scope, so disposing the scope is a
 quiescence boundary.
 */
module AgentBehavior {
  import opened Wrappers
  import opened ScopeTree
  import opened ScopeInvariants
  import opened ScopeTheorems

  // `reg` is None when the scope refused the registration after the entry was listed.
  datatype Entry = Entry(tool: bool, reg: Option<nat>, active: bool)

  // An invocation: `body` is the entry whose body runs now, `rest` the handlers an emit has still to visit.
  datatype Call = Call(admission: nat, body: Option<nat>, rest: seq<nat>, ended: bool)

  datatype Behavior = Behavior(
    w: World, scope: nat, entries: seq<Entry>, tools: seq<nat>, handlers: seq<nat>, calls: seq<Call>)

  datatype Move =
    | Tree(a: Action)            // anything the rest of the program does to the scope tree
    | AddEntry(tool: bool)       // registerTool / onEvent
    | GetTools                   // its `assertOpen` takes an admission and gives it back
    | CallTool(i: nat)           // the guarded execute of a tool snapshot
    | Emit
    | NextHandler(c: nat)
    | BodySettles(c: nat, ok: bool)

  predicate Active(entries: seq<Entry>, i: nat) {
    i < |entries| && entries[i].active
  }

  function OnlyActive(list: seq<nat>, entries: seq<Entry>): (r: seq<nat>)
    ensures forall i: nat :: i in r <==> i in list && Active(entries, i)
  {
    if list == [] then []
    else (if Active(entries, list[0]) then [list[0]] else []) + OnlyActive(list[1..], entries)
  }

  /** A disposer that has started has cleared its entry's flag. */
  function Deactivated(entries: seq<Entry>, regs: seq<Reg>): seq<Entry> {
    seq(|entries|, i requires 0 <= i < |entries| =>
      var e := entries[i];
      if e.reg.Some? && e.reg.value < |regs| && !regs[e.reg.value].status.Pending? then e.(active := false) else e)
  }

  /** The tree moves; disposers that started in this step also splice their entries out of the lists. */
  function MoveTree(b: Behavior, w: World): Behavior {
    var entries := Deactivated(b.entries, w.regs);
    b.(w := w, entries := entries, tools := OnlyActive(b.tools, entries), handlers := OnlyActive(b.handlers, entries))
  }

  predicate Allowed(b: Behavior, m: Move) {
    match m
    case Tree(a) => a.Release? ==> forall c | 0 <= c < |b.calls| :: b.calls[c].admission != a.a
    case AddEntry(_) => b.scope < |b.w.scopes|
    case CallTool(i) => Active(b.entries, i) && b.entries[i].tool && HierarchyOpen(b.w.scopes, b.scope)
    case GetTools => HierarchyOpen(b.w.scopes, b.scope)
    case Emit => HierarchyOpen(b.w.scopes, b.scope)
    case NextHandler(c) => c < |b.calls| && !b.calls[c].ended && b.calls[c].body.None?
    case BodySettles(c, _) => c < |b.calls| && !b.calls[c].ended && b.calls[c].body.Some?
  }

  function EndCall(b: Behavior, c: nat): Behavior
    requires c < |b.calls|
  {
    b.(w := Apply(b.w, Release(b.calls[c].admission)),
       calls := b.calls[c := b.calls[c].(body := None, rest := [], ended := true)])
  }

  function Moved(b: Behavior, m: Move): Behavior
    requires Allowed(b, m)
  {
    match m
    case Tree(a) => MoveTree(b, Apply(b.w, a))
    case AddEntry(tool) =>
      var open := HierarchyOpen(b.w.scopes, b.scope);
      var i := |b.entries|;
      b.(w := Apply(b.w, Register(b.scope)),
         entries := b.entries + [Entry(tool, if open then Some(|b.w.regs|) else None, true)],
         tools := if tool then b.tools + [i] else b.tools,
         handlers := if tool then b.handlers else b.handlers + [i])
    case GetTools => b.(w := Apply(Apply(b.w, Admit(b.scope)), Release(|b.w.adms|)))
    case CallTool(i) =>
      b.(w := Apply(b.w, Admit(b.scope)), calls := b.calls + [Call(|b.w.adms|, Some(i), [], false)])
    case Emit =>
      b.(w := Apply(b.w, Admit(b.scope)),
         calls := b.calls + [Call(|b.w.adms|, None, OnlyActive(b.handlers, b.entries), false)])
    case NextHandler(c) =>
      var k := b.calls[c];
      if k.rest == [] then EndCall(b, c)
      else
        b.(calls := b.calls[c := k.(rest := k.rest[1..], body := if Active(b.entries, k.rest[0]) then Some(k.rest[0]) else None)])
    case BodySettles(c, ok) =>
      var k := b.calls[c];
      if ok && k.rest != [] then b.(calls := b.calls[c := k.(body := None)]) else EndCall(b, c)
  }

  /** A refused call throws without running a body. */
  function Step(b: Behavior, m: Move): Behavior {
    if Allowed(b, m) then Moved(b, m) else b
  }

  /** What `getTools` returns; None is its throw. */
  function ToolList(b: Behavior): Option<seq<nat>> {
    if HierarchyOpen(b.w.scopes, b.scope) then Some(OnlyActive(b.tools, b.entries)) else None
  }

  function RunMoves(b: Behavior, moves: seq<Move>): Behavior
    decreases |moves|
  {
    if moves == [] then b else RunMoves(Step(b, moves[0]), moves[1..])
  }

  // ----- what every run keeps -----

  ghost predicate HoldsAdmission(w: World, scope: nat, k: Call) {
    k.admission < |w.adms| && (!k.ended ==> w.adms[k.admission] == Admission(scope, false))
  }

  ghost predicate EntryOk(w: World, scope: nat, e: Entry) {
    e.reg.Some? ==>
      e.reg.value < |w.regs| && w.regs[e.reg.value].owner == scope &&
      (e.active <==> w.regs[e.reg.value].status.Pending?)
  }

  predicate Registered(entries: seq<Entry>, i: nat) {
    i < |entries| && entries[i].reg.Some?
  }

  // Only entries that the scope did register are called.
  ghost predicate CallsRegistered(entries: seq<Entry>, k: Call) {
    && (k.body.Some? ==> Registered(entries, k.body.value))
    && (forall i | i in k.rest :: Registered(entries, i))
  }

  // As long as the scope is open it has refused no entry.
  ghost predicate NoneRefused(b: Behavior) {
    b.scope < |b.w.scopes| && b.w.scopes[b.scope].State() == Open ==> forall i | 0 <= i < |b.entries| :: Registered(b.entries, i)
  }

  ghost predicate BehaviorInv(b: Behavior) {
    && Inv(b.w) && b.scope < |b.w.scopes| && NoneRefused(b)
    && (forall c | 0 <= c < |b.calls| :: CallsRegistered(b.entries, b.calls[c]))
    && (forall c | 0 <= c < |b.calls| :: HoldsAdmission(b.w, b.scope, b.calls[c]))
    && (forall c, d | 0 <= c < d < |b.calls| :: b.calls[c].admission != b.calls[d].admission)
    && (forall i | 0 <= i < |b.entries| :: EntryOk(b.w, b.scope, b.entries[i]))
    && (forall i: nat :: i in b.tools <==> Active(b.entries, i) && b.entries[i].tool)
    && (forall i: nat :: i in b.handlers <==> Active(b.entries, i) && !b.entries[i].tool)
  }

  lemma TreeGrows(w: World, a: Action)
    ensures var v := Apply(w, a);
      && |w.scopes| <= |v.scopes| && |w.regs| <= |v.regs| && |w.adms| <= |v.adms|
      && (forall r | 0 <= r < |w.regs| :: v.regs[r].owner == w.regs[r].owner && (v.regs[r].status.Pending? ==> w.regs[r].status.Pending?))
      && (forall k | 0 <= k < |w.adms| && a != Release(k) :: v.adms[k] == w.adms[k])
      && (forall s | 0 <= s < |w.scopes| && v.scopes[s].State() == Open :: w.scopes[s].State() == Open)
  {
  }

  lemma TreeKeeps(b: Behavior, a: Action)
    requires BehaviorInv(b) && Allowed(b, Tree(a))
    ensures BehaviorInv(MoveTree(b, Apply(b.w, a)))
  {
    hide Inv;
    hide Apply;
    TreeGrows(b.w, a);
    InvApply(b.w, a);
    var r := MoveTree(b, Apply(b.w, a));
    assert forall i: nat :: Registered(r.entries, i) <==> Registered(b.entries, i);
    forall c | 0 <= c < |r.calls| ensures CallsRegistered(r.entries, r.calls[c]) { assert CallsRegistered(b.entries, b.calls[c]); }
  }

  lemma EndKeeps(b: Behavior, c: nat)
    requires BehaviorInv(b) && c < |b.calls| && !b.calls[c].ended
    ensures BehaviorInv(EndCall(b, c))
  {
    hide Inv;
    var a := Release(b.calls[c].admission);
    TreeGrows(b.w, a);
    InvApply(b.w, a);
    assert Apply(b.w, a).regs == b.w.regs;
    assert HoldsAdmission(b.w, b.scope, b.calls[c]);
  }

  lemma AdmitKeeps(b: Behavior, k: Call)
    requires BehaviorInv(b) && HierarchyOpen(b.w.scopes, b.scope)
    requires k.admission == |b.w.adms| && !k.ended && CallsRegistered(b.entries, k)
    ensures BehaviorInv(b.(w := Apply(b.w, Admit(b.scope)), calls := b.calls + [k]))
  {
    hide Inv;
    InvApply(b.w, Admit(b.scope));
    TreeGrows(b.w, Admit(b.scope));
    assert Apply(b.w, Admit(b.scope)) == AddAdmission(b.w, b.scope);
    forall c | 0 <= c < |b.calls| ensures b.calls[c].admission < |b.w.adms| {
      assert HoldsAdmission(b.w, b.scope, b.calls[c]);
    }
  }

  lemma AddKeeps(b: Behavior, tool: bool)
    requires BehaviorInv(b)
    ensures BehaviorInv(Moved(b, AddEntry(tool)))
  {
    hide Inv;
    var a := Register(b.scope);
    InvApply(b.w, a);
    TreeGrows(b.w, a);
    assert Apply(b.w, a) == if HierarchyOpen(b.w.scopes, b.scope) then AddReg(b.w, b.scope, Callback) else b.w;
    var c := Moved(b, AddEntry(tool));
    OwnStateDecides(b.w, b.scope);
    assert forall i: nat | Registered(b.entries, i) :: Registered(c.entries, i);
    forall j | 0 <= j < |c.calls| ensures CallsRegistered(c.entries, c.calls[j]) { assert CallsRegistered(b.entries, b.calls[j]); }
    forall j | 0 <= j < |c.calls| ensures HoldsAdmission(c.w, c.scope, c.calls[j]) { assert HoldsAdmission(b.w, b.scope, b.calls[j]); }
    assert NoneRefused(c) by {
      if c.w.scopes[c.scope].State() == Open {
        forall i | 0 <= i < |c.entries| ensures Registered(c.entries, i) { if i < |b.entries| { assert Registered(b.entries, i); } }
      }
    }
    forall i | 0 <= i < |c.entries| ensures EntryOk(c.w, c.scope, c.entries[i]) {
      if i < |b.entries| { assert EntryOk(b.w, b.scope, b.entries[i]); }
    }
    forall i: nat ensures i in c.tools <==> Active(c.entries, i) && c.entries[i].tool { }
    forall i: nat ensures i in c.handlers <==> Active(c.entries, i) && !c.entries[i].tool { }
  }

  lemma GetToolsKeeps(b: Behavior)
    requires BehaviorInv(b) && HierarchyOpen(b.w.scopes, b.scope)
    ensures BehaviorInv(Moved(b, GetTools))
  {
    hide Inv;
    var v := Apply(b.w, Admit(b.scope));
    InvApply(b.w, Admit(b.scope));
    InvApply(v, Release(|b.w.adms|));
    assert v == AddAdmission(b.w, b.scope);
    TreeGrows(b.w, Admit(b.scope));
    TreeGrows(v, Release(|b.w.adms|));
    var w := Apply(v, Release(|b.w.adms|));
    assert w.regs == b.w.regs;
    hide Apply;
    forall c | 0 <= c < |b.calls| ensures HoldsAdmission(w, b.scope, b.calls[c]) { assert HoldsAdmission(b.w, b.scope, b.calls[c]); }
    forall i | 0 <= i < |b.entries| ensures EntryOk(w, b.scope, b.entries[i]) { assert EntryOk(b.w, b.scope, b.entries[i]); }
  }

  lemma StepKeeps(b: Behavior, m: Move)
    requires BehaviorInv(b)
    ensures BehaviorInv(Step(b, m))
  {
    if b.scope < |b.w.scopes| { OwnStateDecides(b.w, b.scope); }
    hide Inv;
    hide Apply;
    if Allowed(b, m) {
      match m
      case Tree(a) => TreeKeeps(b, a);
      case AddEntry(tool) => AddKeeps(b, tool);
      case GetTools => GetToolsKeeps(b);
      case CallTool(i) => AdmitKeeps(b, Call(|b.w.adms|, Some(i), [], false));
      case Emit => AdmitKeeps(b, Call(|b.w.adms|, None, OnlyActive(b.handlers, b.entries), false));
      case NextHandler(c) => if b.calls[c].rest == [] { EndKeeps(b, c); }
      case BodySettles(c, ok) => if !(ok && b.calls[c].rest != []) { EndKeeps(b, c); }
    }
  }

  lemma {:induction false} RunKeeps(b: Behavior, moves: seq<Move>)
    requires BehaviorInv(b)
    ensures BehaviorInv(RunMoves(b, moves))
    decreases |moves|
  {
    if moves != [] {
      StepKeeps(b, moves[0]);
      RunKeeps(Step(b, moves[0]), moves[1..]);
    }
  }

  // ----- the promises -----

  /** A behaviour mounted on scope `s` of any reachable tree. */
  function Mounted(w: World, s: nat): Behavior {
    Behavior(w, s, [], [], [], [])
  }

  /**
   Once the scope's dispose has resolved no tool or handler body is running, and whatever
   is tried later none ever runs again: the statement covers every later state too.
   */
  lemma NoBodyAfterDispose(w: World, s: nat, moves: seq<Move>, c: nat)
    requires Reachable(w) && s < |w.scopes|
    requires var b := RunMoves(Mounted(w, s), moves);
      s < |b.w.scopes| && b.w.scopes[s].State() == Closed && c < |b.calls|
    ensures RunMoves(Mounted(w, s), moves).calls[c].ended
    ensures RunMoves(Mounted(w, s), moves).scope == s
  {
    ReachableInv(w);
    RunKeeps(Mounted(w, s), moves);
    ScopeFixed(Mounted(w, s), moves);
    var b := RunMoves(Mounted(w, s), moves);
    assert HoldsAdmission(b.w, s, b.calls[c]);
    if !b.calls[c].ended { HeldCounts(b.w.adms, b.calls[c].admission); }
  }

  lemma {:induction false} ScopeFixed(b: Behavior, moves: seq<Move>)
    ensures RunMoves(b, moves).scope == b.scope
    decreases |moves|
  {
    if moves != [] { ScopeFixed(Step(b, moves[0]), moves[1..]); }
  }

  /** The scope's registration of the entry has not been disposed. */
  predicate Live(b: Behavior, i: nat) {
    Registered(b.entries, i) && b.entries[i].reg.value < |b.w.regs| && b.w.regs[b.entries[i].reg.value].status.Pending?
  }

  /** A body starts only for an entry whose registration is live, and never in a closed scope. */
  lemma BodyStartsLive(b: Behavior, m: Move, c: nat)
    requires BehaviorInv(b) && c < |Step(b, m).calls| && Step(b, m).calls[c].body.Some? && !Step(b, m).calls[c].ended
    requires c < |b.calls| ==> b.calls[c].body.None?
    ensures Live(b, Step(b, m).calls[c].body.value) && Active(b.entries, Step(b, m).calls[c].body.value)
    ensures b.w.scopes[b.scope].State() != Closed
    ensures c >= |b.calls| ==> b.w.scopes[b.scope].State() == Open
  {
    var i := Step(b, m).calls[c].body.value;
    assert Active(b.entries, i) && Registered(b.entries, i) by {
      if c < |b.calls| { assert CallsRegistered(b.entries, b.calls[c]); } else { OwnStateDecides(b.w, b.scope); }
    }
    assert EntryOk(b.w, b.scope, b.entries[i]);
    if c < |b.calls| {
      assert HoldsAdmission(b.w, b.scope, b.calls[c]);
      if !b.calls[c].ended { HeldCounts(b.w.adms, b.calls[c].admission); }
    }
  }

  predicate Listed(b: Behavior, i: nat) {
    i in b.tools || i in b.handlers
  }

  /** `getTools` throws exactly if the scope is not open, and otherwise returns exactly the tools whose registration is live. */
  lemma ToolsAreLive(b: Behavior, i: nat)
    requires BehaviorInv(b)
    ensures ToolList(b).Some? <==> b.w.scopes[b.scope].State() == Open
    ensures ToolList(b).Some? ==> (i in ToolList(b).value <==> Live(b, i) && b.entries[i].tool)
  {
    OwnStateDecides(b.w, b.scope);
    if i < |b.entries| { assert EntryOk(b.w, b.scope, b.entries[i]); }
  }

  lemma {:induction false} EntryFixed(b: Behavior, moves: seq<Move>, i: nat)
    requires i < |b.entries|
    ensures var c := RunMoves(b, moves); i < |c.entries| && c.entries[i].reg == b.entries[i].reg && c.entries[i].tool == b.entries[i].tool
    ensures b.entries[i].reg.None? ==> RunMoves(b, moves).entries[i] == b.entries[i]
    decreases |moves|
  {
    hide Apply;
    if moves != [] { EntryFixed(Step(b, moves[0]), moves[1..], i); }
  }

  /**
   An entry that is added while the scope is not open stays listed in every later state of every run, because
   `registerTool` and `onEvent` list it before they register its disposer; and its body is never run, as a tool or
   as a handler.  An entry that is added while the scope is open is listed exactly as long as its registration is
   live.  So an entry is ever listed without a live registration exactly if the scope was not open when it came.
   */
  lemma RefusedEntryStaysListed(w: World, s: nat, before: seq<Move>, tool: bool, after: seq<Move>, c: nat)
    requires Reachable(w) && s < |w.scopes|
    ensures var b := RunMoves(Mounted(w, s), before); var i := |b.entries|;
      var r := RunMoves(Step(b, AddEntry(tool)), after);
      && s < |b.w.scopes| && i < |r.entries|
      && (Listed(r, i) && !Live(r, i) <==> b.w.scopes[s].State() != Open)
      && (b.w.scopes[s].State() == Open ==> (Listed(r, i) <==> Live(r, i)))
      && (b.w.scopes[s].State() != Open ==>
           i in (if tool then r.tools else r.handlers) && (c < |r.calls| ==> r.calls[c].body != Some(i) && i !in r.calls[c].rest))
  {
    ReachableInv(w);
    RunKeeps(Mounted(w, s), before);
    ScopeFixed(Mounted(w, s), before);
    AddedEntry(RunMoves(Mounted(w, s), before), tool, after, c);
  }

  // What the invariant says about one entry.
  lemma EntryListed(r: Behavior, i: nat, c: nat)
    requires BehaviorInv(r) && i < |r.entries|
    ensures r.entries[i].reg.Some? ==> (Listed(r, i) <==> Live(r, i))
    ensures r.entries[i].reg.None? ==> !Live(r, i) && (c < |r.calls| ==> r.calls[c].body != Some(i) && i !in r.calls[c].rest)
    ensures r.entries[i].reg.None? && r.entries[i].active ==> i in (if r.entries[i].tool then r.tools else r.handlers)
  {
    hide Inv;
    assert EntryOk(r.w, r.scope, r.entries[i]);
    if c < |r.calls| { assert CallsRegistered(r.entries, r.calls[c]); }
  }

  lemma AddedEntry(b: Behavior, tool: bool, after: seq<Move>, c: nat)
    requires BehaviorInv(b)
    ensures var i := |b.entries|; var r := RunMoves(Step(b, AddEntry(tool)), after);
      && i < |r.entries| && (b.w.scopes[b.scope].State() == Open ==> (Listed(r, i) <==> Live(r, i)))
      && (b.w.scopes[b.scope].State() != Open ==>
           !Live(r, i) && i in (if tool then r.tools else r.handlers) && (c < |r.calls| ==> r.calls[c].body != Some(i) && i !in r.calls[c].rest))
  {
    var i := |b.entries|;
    var added := Step(b, AddEntry(tool));
    OwnStateDecides(b.w, b.scope);
    StepKeeps(b, AddEntry(tool));
    assert added.entries[i] == Entry(tool, if HierarchyOpen(b.w.scopes, b.scope) then Some(|b.w.regs|) else None, true);
    hide Step;
    hide BehaviorInv;
    RunKeeps(added, after);
    EntryFixed(added, after, i);
    hide RunMoves;
    EntryListed(RunMoves(added, after), i, c);
  }
}
