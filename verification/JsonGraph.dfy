/** Validation of JSON over an object graph, cyclic or shared, with the set of objects on the current path. */
module JsonGraph {
  type Ref = nat

  datatype Val = Undefined | FunctionVal | SymbolVal | BigInt | Number(finite: bool) | StringVal | BoolVal | NullVal | Object(ref: Ref)

  // An array's elements, or the values of an object's own enumerable keys; `plain` tells that the
  // prototype is the standard one or null.
  datatype Node = ArrayNode(items: seq<Val>) | RecordNode(plain: bool, values: seq<Val>)

  type Heap = map<Ref, Node>

  predicate Allocated(h: Heap, v: Val) {
    v.Object? ==> v.ref in h
  }

  predicate Closed(h: Heap) {
    forall r | r in h :: forall i | 0 <= i < |Kids(h[r])| :: Allocated(h, Kids(h[r])[i])
  }

  function Kids(n: Node): seq<Val> {
    match n
    case ArrayNode(items) => items
    case RecordNode(_, values) => values
  }

  /** A leaf that JSON has, or an object that is an array or plain. */
  predicate LegalHere(h: Heap, v: Val)
    requires Allocated(h, v)
  {
    match v
    case Number(finite) => finite
    case StringVal => true
    case BoolVal => true
    case NullVal => true
    case Object(r) => h[r].ArrayNode? || h[r].plain
    case _ => false
  }

  /** What the walk answers when the objects in `seen` are on its path. */
  predicate Accepted(h: Heap, v: Val, seen: set<Ref>)
    requires Closed(h) && Allocated(h, v)
    decreases h.Keys - seen
  {
    LegalHere(h, v) &&
    (v.Object? ==>
       v.ref !in seen &&
       forall i | 0 <= i < |Kids(h[v.ref])| :: AcceptedBelow(h, v.ref, i, seen))
  }

  predicate AcceptedBelow(h: Heap, r: Ref, i: nat, seen: set<Ref>)
    requires Closed(h) && r in h && r !in seen && i < |Kids(h[r])|
    decreases h.Keys - seen, 0
  {
    Allocated(h, Kids(h[r])[i]) && Accepted(h, Kids(h[r])[i], seen + {r})
  }

  // The set that the calls share.
  class SeenSet {
    var members: set<Ref>

    constructor ()
      ensures members == {}
    {
      members := {};
    }
  }

  /** The recursive walk: it leaves the shared set as it found it, whatever it answers. */
  method CanonicalJsonValueInner(h: Heap, v: Val, seen: SeenSet) returns (ok: bool)
    requires Closed(h) && Allocated(h, v)
    modifies seen
    ensures seen.members == old(seen.members)
    ensures ok <==> Accepted(h, v, old(seen.members))
    decreases h.Keys - seen.members
  {
    match v {
      case Number(finite) => ok := finite;
      case StringVal => ok := true;
      case BoolVal => ok := true;
      case NullVal => ok := true;
      case Object(r) =>
        if r in seen.members { return false; }
        ghost var before := seen.members;
        seen.members := seen.members + {r};
        ok := h[r].ArrayNode? || h[r].plain;
        var kids := Kids(h[r]);
        var i := 0;
        while ok && i < |kids|
          invariant 0 <= i <= |kids| && seen.members == before + {r}
          invariant ok ==> LegalHere(h, v) && forall j | 0 <= j < i :: AcceptedBelow(h, r, j, before)
          invariant !ok ==> !Accepted(h, v, before)
        {
          ok := CanonicalJsonValueInner(h, kids[i], seen);
          assert ok <==> AcceptedBelow(h, r, i, before);
          i := i + 1;
        }
        seen.members := seen.members - {r};
        assert seen.members == before;
      case _ => ok := false;
    }
  }

  method CanonicalJsonValue(h: Heap, v: Val) returns (ok: bool)
    requires Closed(h) && Allocated(h, v)
    ensures ok <==> Accepted(h, v, {})
  {
    var seen := new SeenSet();
    ok := CanonicalJsonValueInner(h, v, seen);
  }

  // ----- walks -----

  predicate Below(h: Heap, v: Val, w: Val) {
    v.Object? && v.ref in h && w in Kids(h[v.ref])
  }

  /** A walk along containment. */
  predicate Walk(h: Heap, p: seq<Val>) {
    p != [] && forall i | 0 < i < |p| :: Below(h, p[i - 1], p[i])
  }

  predicate WalkFrom(h: Heap, p: seq<Val>, v: Val) {
    Walk(h, p) && p[0] == v
  }

  function Last(p: seq<Val>): Val
    requires p != []
  {
    p[|p| - 1]
  }

  lemma {:induction false} WalkAllocated(h: Heap, p: seq<Val>, i: nat)
    requires Closed(h) && Walk(h, p) && Allocated(h, p[0]) && i < |p|
    ensures Allocated(h, p[i])
    decreases i
  {
    if i > 0 {
      WalkAllocated(h, p, i - 1);
      assert Below(h, p[i - 1], p[i]);
    }
  }

  lemma WalkTail(h: Heap, p: seq<Val>)
    requires Walk(h, p) && |p| > 1
    ensures Walk(h, p[1..])
  {
    forall i | 0 < i < |p[1..]| ensures Below(h, p[1..][i - 1], p[1..][i]) { assert Below(h, p[i], p[i + 1]); }
  }

  lemma WalkCons(h: Heap, v: Val, p: seq<Val>)
    requires Walk(h, p) && Below(h, v, p[0])
    ensures Walk(h, [v] + p)
  {
    var q := [v] + p;
    forall i | 0 < i < |q| ensures Below(h, q[i - 1], q[i]) {
      if i > 1 { assert Below(h, p[i - 2], p[i - 1]); }
    }
  }

  /** A walk that ends at something that makes the value be refused. */
  predicate Refuting(h: Heap, p: seq<Val>, seen: set<Ref>)
    requires p != [] && Allocated(h, Last(p))
  {
    || !LegalHere(h, Last(p))
    || (Last(p).Object? && Last(p).ref in seen)
    || (Last(p).Object? && Last(p) in p[..|p| - 1])
  }

  /** A refused value has a refuting walk. */
  lemma {:induction false} RefusedHasWalk(h: Heap, v: Val, seen: set<Ref>) returns (p: seq<Val>)
    requires Closed(h) && Allocated(h, v) && !Accepted(h, v, seen)
    ensures WalkFrom(h, p, v) && Allocated(h, Last(p)) && Refuting(h, p, seen)
    decreases h.Keys - seen
  {
    p := [v];
    if LegalHere(h, v) && v.Object? && v.ref !in seen {
      var r := v.ref;
      var i :| 0 <= i < |Kids(h[r])| && !AcceptedBelow(h, r, i, seen);
      var kid := Kids(h[r])[i];
      var q := RefusedHasWalk(h, kid, seen + {r});
      WalkCons(h, v, q);
      p := [v] + q;
      assert Last(p) == Last(q);
      if Last(q).Object? && Last(q) in q[..|q| - 1] {
        var j :| 0 <= j < |q| - 1 && q[..|q| - 1][j] == Last(q);
        assert p[..|p| - 1][j + 1] == Last(p);
      } else if Last(q).Object? && Last(q).ref == r {
        assert p[..|p| - 1][0] == Last(p);
      }
    }
  }

  /** An accepted value has none. */
  lemma {:induction false} AcceptedHasNoWalk(h: Heap, v: Val, seen: set<Ref>, p: seq<Val>)
    requires Closed(h) && Allocated(h, v) && Accepted(h, v, seen) && WalkFrom(h, p, v) && Allocated(h, Last(p))
    ensures !Refuting(h, p, seen)
    decreases |p|
  {
    if |p| > 1 {
      assert Below(h, p[0], p[1]);
      var r, q := v.ref, p[1..];
      var i :| 0 <= i < |Kids(h[r])| && Kids(h[r])[i] == p[1];
      assert AcceptedBelow(h, r, i, seen);
      WalkTail(h, p);
      assert Last(q) == Last(p);
      AcceptedHasNoWalk(h, p[1], seen + {r}, q);
      InTail(p);
    }
  }

  lemma InTail(p: seq<Val>)
    requires |p| > 1
    ensures Last(p) in p[..|p| - 1] ==> Last(p) == p[0] || Last(p) in p[1..][..|p[1..]| - 1]
  {
    if Last(p) in p[..|p| - 1] {
      var i :| 0 <= i < |p| - 1 && p[..|p| - 1][i] == Last(p);
      if i > 0 { assert p[1..][..|p[1..]| - 1][i - 1] == Last(p); }
    }
  }

  // ----- what the answer means -----

  /** Everything that can be reached is legal. */
  ghost predicate AllLegal(h: Heap, v: Val) {
    forall p | WalkFrom(h, p, v) :: Allocated(h, Last(p)) && LegalHere(h, Last(p))
  }

  /** No object that can be reached contains itself, directly or not. */
  ghost predicate NoneReachesItself(h: Heap, v: Val) {
    forall p: seq<Val>, q: seq<Val> | WalkFrom(h, p, v) && Walk(h, q) && |q| > 1 && q[0] == Last(p) && q[0].Object? :: Last(q) != q[0]
  }

  lemma WalkJoin(h: Heap, p: seq<Val>, q: seq<Val>)
    requires Walk(h, p) && Walk(h, q) && |q| > 1 && q[0] == Last(p)
    ensures Walk(h, p + q[1..]) && Last(p + q[1..]) == Last(q)
  {
    var w := p + q[1..];
    forall i | 0 < i < |w| ensures Below(h, w[i - 1], w[i]) {
      if i < |p| {
        assert Below(h, p[i - 1], p[i]);
      } else {
        assert Below(h, q[i - |p|], q[i - |p| + 1]);
      }
    }
  }

  lemma WalkCut(h: Heap, p: seq<Val>, i: nat)
    requires Walk(h, p) && i < |p|
    ensures Walk(h, p[..i + 1]) && Walk(h, p[i..])
  {
    var a, b := p[..i + 1], p[i..];
    forall j | 0 < j < |a| ensures Below(h, a[j - 1], a[j]) { assert Below(h, p[j - 1], p[j]); }
    forall j | 0 < j < |b| ensures Below(h, b[j - 1], b[j]) { assert Below(h, p[i + j - 1], p[i + j]); }
  }

  /** The walk accepts exactly the values whose every reachable part is legal and in which no object contains itself. */
  lemma AcceptedIff(h: Heap, v: Val)
    requires Closed(h) && Allocated(h, v)
    ensures Accepted(h, v, {}) <==> AllLegal(h, v) && NoneReachesItself(h, v)
  {
    if Accepted(h, v, {}) {
      forall p | WalkFrom(h, p, v) ensures Allocated(h, Last(p)) && LegalHere(h, Last(p)) {
        WalkAllocated(h, p, |p| - 1);
        AcceptedHasNoWalk(h, v, {}, p);
      }
      forall p: seq<Val>, q: seq<Val> | WalkFrom(h, p, v) && Walk(h, q) && |q| > 1 && q[0] == Last(p) && q[0].Object? ensures Last(q) != q[0] {
        NoLoop(h, v, p, q);
      }
    } else {
      var p := RefusedHasWalk(h, v, {});
      LoopFound(h, v, p);
    }
  }

  lemma NoLoop(h: Heap, v: Val, p: seq<Val>, q: seq<Val>)
    requires Closed(h) && Allocated(h, v) && Accepted(h, v, {})
    requires WalkFrom(h, p, v) && Walk(h, q) && |q| > 1 && q[0] == Last(p) && q[0].Object?
    ensures Last(q) != q[0]
  {
    var w := p + q[1..];
    WalkJoin(h, p, q);
    WalkAllocated(h, w, |w| - 1);
    AcceptedHasNoWalk(h, v, {}, w);
    assert w[..|w| - 1][|p| - 1] == q[0];
  }

  lemma LoopFound(h: Heap, v: Val, p: seq<Val>)
    requires WalkFrom(h, p, v) && Allocated(h, Last(p)) && Refuting(h, p, {})
    ensures !(AllLegal(h, v) && NoneReachesItself(h, v))
  {
    if LegalHere(h, Last(p)) {
      var i :| 0 <= i < |p| - 1 && p[..|p| - 1][i] == Last(p);
      var a, b := p[..i + 1], p[i..];
      WalkCut(h, p, i);
      assert WalkFrom(h, a, v) && b[0] == Last(a) && Last(b) == b[0];
    }
  }

  // A fresh object on the path changes nothing for values that do not lead to it.
  lemma {:induction false} SameInLarger(h: Heap, g: Heap, r: Ref, v: Val, seen: set<Ref>)
    requires Closed(h) && Closed(g) && Allocated(h, v) && r !in h && g.Keys == h.Keys + {r} && forall x | x in h :: g[x] == h[x]
    ensures Accepted(h, v, seen) <==> Accepted(g, v, seen + {r})
    decreases h.Keys - seen
  {
    if LegalHere(h, v) && v.Object? && v.ref !in seen {
      forall i | 0 <= i < |Kids(h[v.ref])| ensures AcceptedBelow(h, v.ref, i, seen) <==> AcceptedBelow(g, v.ref, i, seen + {r}) {
        var kid := Kids(h[v.ref])[i];
        assert Allocated(h, kid);
        SameInLarger(h, g, r, kid, seen + {v.ref});
        assert seen + {r} + {v.ref} == seen + {v.ref} + {r};
      }
    }
  }

  /**
   Sharing as such is no reason to refuse: a new array is accepted exactly if each of its items is, whatever
   objects the items have in common, and however often the same one is listed.
   */
  lemma SharedIsAccepted(h: Heap, items: seq<Val>, r: Ref)
    requires Closed(h) && r !in h && forall i | 0 <= i < |items| :: Allocated(h, items[i])
    ensures var g := h[r := ArrayNode(items)];
      Closed(g) && (Accepted(g, Object(r), {}) <==> forall i | 0 <= i < |items| :: Accepted(h, items[i], {}))
  {
    var g := h[r := ArrayNode(items)];
    forall x | x in g ensures forall i | 0 <= i < |Kids(g[x])| :: Allocated(g, Kids(g[x])[i]) {
      forall i | 0 <= i < |Kids(g[x])| ensures Allocated(g, Kids(g[x])[i]) { if x != r { assert Allocated(h, Kids(h[x])[i]); } }
    }
    forall i | 0 <= i < |items| ensures AcceptedBelow(g, r, i, {}) <==> Accepted(h, items[i], {}) {
      SameInLarger(h, g, r, items[i], {});
      assert {} + {r} == {r};
    }
  }
}
