/** Dotted paths into JSON payloads: what setting a path does to a value, and the loop that does it in place. */
module PayloadPath {
  import opened Wrappers

  // ----- dotted paths -----

  /** The text up to the first dot, and what follows the dot. */
  function FirstPart(path: string): (r: (string, string))
    ensures |r.1| <= |path| && (path != "" ==> |r.1| < |path|)
    ensures '.' !in r.0
  {
    if path == "" then ("", "")
    else if path[0] == '.' then ("", path[1..])
    else var r := FirstPart(path[1..]); ([path[0]] + r.0, r.1)
  }

  /** The non-empty parts of a path split at its dots. */
  function Parts(path: string): (r: seq<string>)
    ensures forall p | p in r :: p != "" && '.' !in p
    decreases |path|
  {
    if path == "" then []
    else var f := FirstPart(path); (if f.0 == "" then [] else [f.0]) + Parts(f.1)
  }

  function Join(parts: seq<string>): string {
    if parts == [] then "" else parts[0] + "." + Join(parts[1..])
  }

  lemma {:induction false} FirstPartOf(p: string, rest: string)
    requires '.' !in p
    ensures FirstPart(p + "." + rest) == (p, rest)
    decreases |p|
  {
    var path := p + "." + rest;
    if p == "" {
      assert path[0] == '.' && path[1..] == rest;
    } else {
      assert path[1..] == p[1..] + "." + rest;
      FirstPartOf(p[1..], rest);
      assert p == [p[0]] + p[1..];
    }
  }

  /** Every list of non-empty dotless parts is the splitting of some path. */
  lemma {:induction false} PartsOfJoin(parts: seq<string>)
    requires forall p | p in parts :: p != "" && '.' !in p
    ensures Parts(Join(parts)) == parts
    decreases |parts|
  {
    if parts != [] {
      assert parts[0] in parts;
      FirstPartOf(parts[0], Join(parts[1..]));
      assert Join(parts) == parts[0] + "." + Join(parts[1..]);
      PartsOfJoin(parts[1..]);
      assert Parts(Join(parts)) == [parts[0]] + Parts(Join(parts[1..]));
    }
  }

  // ----- payloads as values -----

  // `Reference` is the id of the node that the event at `sequence` creates; `Illegal` leaves are not JSON.
  datatype Json =
    | Scalar(text: string)
    | Reference(session: string, sequence: nat, kind: string)
    | Illegal
    | List(items: seq<Json>)
    | Object(fields: map<string, Json>)

  predicate Canonical(j: Json) {
    match j
    case Illegal => false
    case List(items) => forall i | 0 <= i < |items| :: Canonical(items[i])
    case Object(fields) => forall k | k in fields :: Canonical(fields[k])
    case _ => true
  }

  /** Set the value at a path; whatever is not an object on the way is replaced by one. */
  function SetIn(j: Json, parts: seq<string>, value: Json): (r: Json)
    ensures parts != [] ==> r.Object?
    decreases |parts|
  {
    if parts == [] then value
    else
      var fields := if j.Object? then j.fields else map[];
      var was := if parts[0] in fields then fields[parts[0]] else Object(map[]);
      Object(fields[parts[0] := SetIn(was, parts[1..], value)])
  }

  /** Read along object fields. */
  function GetIn(j: Json, parts: seq<string>): Option<Json>
    decreases |parts|
  {
    if parts == [] then Some(j)
    else if j.Object? && parts[0] in j.fields then GetIn(j.fields[parts[0]], parts[1..])
    else None
  }

  predicate Related(p: seq<string>, q: seq<string>) {
    p <= q || q <= p
  }

  lemma {:induction false} GetSet(j: Json, parts: seq<string>, value: Json)
    ensures GetIn(SetIn(j, parts, value), parts) == Some(value)
    decreases |parts|
  {
    if parts != [] {
      var fields := if j.Object? then j.fields else map[];
      GetSet(if parts[0] in fields then fields[parts[0]] else Object(map[]), parts[1..], value);
    }
  }

  /** Setting one path leaves every path that does not run along it as it was. */
  lemma {:induction false} GetOther(j: Json, parts: seq<string>, value: Json, other: seq<string>)
    requires !Related(parts, other)
    ensures GetIn(SetIn(j, parts, value), other) == GetIn(j, other)
    decreases |parts|
  {
    var fields := if j.Object? then j.fields else map[];
    if parts[0] == other[0] {
      assert parts == [parts[0]] + parts[1..] && other == [other[0]] + other[1..];
      var was := if parts[0] in fields then fields[parts[0]] else Object(map[]);
      GetOther(was, parts[1..], value, other[1..]);
      assert parts[0] !in fields ==> GetIn(Object(map[]), other[1..]) == None;
    }
  }

  // ----- payloads as objects -----

  // A field holds a leaf or a list, which no path enters, or another object.
  datatype Value = Plain(json: Json) | Nested(obj: PayloadObject)

  class PayloadObject {
    var fields: map<string, Value>

    constructor ()
      ensures fields == map[]
    {
      fields := map[];
    }
  }

  type Memory = map<PayloadObject, map<string, Value>>

  ghost function Snapshot(repr: set<PayloadObject>): Memory
    reads repr
  {
    map o | o in repr :: o.fields
  }

  ghost predicate Closed(m: Memory) {
    forall o, k | o in m && k in m[o] && m[o][k].Nested? :: m[o][k].obj in m
  }

  ghost predicate Steps(m: Memory, o: PayloadObject, part: string)
    requires o in m
  {
    part in m[o] && m[o][part].Nested?
  }

  // The last existing object on the path, and the parts still to go from there.
  datatype Stop = Stop(obj: PayloadObject, rest: seq<string>)

  ghost function StopAt(m: Memory, o: PayloadObject, parts: seq<string>): (s: Stop)
    requires parts != [] && o in m && Closed(m)
    ensures s.obj in m && 0 < |s.rest| <= |parts|
    decreases |parts|
  {
    if |parts| > 1 && Steps(m, o, parts[0]) then StopAt(m, m[o][parts[0]].obj, parts[1..])
    else Stop(o, parts)
  }

  lemma StopStep(m: Memory, o: PayloadObject, parts: seq<string>, i: nat)
    requires i + 1 < |parts| && o in m && Closed(m)
    ensures Steps(m, o, parts[i]) ==>
      m[o][parts[i]].obj in m && StopAt(m, o, parts[i..]) == StopAt(m, m[o][parts[i]].obj, parts[i + 1..])
    ensures !Steps(m, o, parts[i]) ==> StopAt(m, o, parts[i..]) == Stop(o, parts[i..])
  {
    assert parts[i..][1..] == parts[i + 1..];
  }

  /** What is left to go is the end of the path, and it is more than one part only if the next one is not an object. */
  lemma {:induction false} StopRest(m: Memory, o: PayloadObject, parts: seq<string>)
    requires parts != [] && o in m && Closed(m)
    ensures var s := StopAt(m, o, parts);
      s.rest == parts[|parts| - |s.rest|..] && (|s.rest| > 1 ==> !Steps(m, s.obj, s.rest[0]))
    decreases |parts|
  {
    if |parts| > 1 && Steps(m, o, parts[0]) { StopRest(m, m[o][parts[0]].obj, parts[1..]); }
  }

  ghost predicate Same(was: Memory)
    reads was.Keys
  {
    forall o | o in was :: o.fields == was[o]
  }

  // Every object of the snapshot but one is as it was, and that one has one field set.
  ghost predicate OneField(was: Memory, obj: PayloadObject, key: string, value: Value)
    requires obj in was
    reads was.Keys
  {
    && (forall o | o in was && o != obj :: o.fields == was[o])
    && obj.fields == was[obj][key := value]
  }

  // New objects, each holding only the next one; the last holds `last`.
  ghost predicate Chain(created: seq<PayloadObject>, keys: seq<string>, last: map<string, Value>)
    requires |created| <= |keys|
    reads created
  {
    && (forall i, j | 0 <= i < j < |created| :: created[i] != created[j])
    && (forall i | 0 <= i < |created| - 1 :: created[i].fields == map[keys[i] := Nested(created[i + 1])])
    && (created != [] ==> created[|created| - 1].fields == last)
  }

  /** What setting a path in place amounts to: one field of one existing object changes, the rest of the path is new. */
  ghost predicate SetAt(was: Memory, s: Stop, value: Value, created: seq<PayloadObject>)
    requires s.rest != [] && s.obj in was
    reads was.Keys, created
  {
    && |created| == |s.rest| - 1
    && OneField(was, s.obj, s.rest[0], if created == [] then value else Nested(created[0]))
    && Chain(created, s.rest[1..], map[s.rest[|s.rest| - 1] := value])
  }

  // The walk has passed `s.obj` and made `created` below it.
  ghost predicate Growing(was: Memory, s: Stop, created: seq<PayloadObject>)
    requires s.rest != [] && s.obj in was
    reads was.Keys, created
  {
    && 0 < |created| < |s.rest|
    && OneField(was, s.obj, s.rest[0], Nested(created[0]))
    && Chain(created, s.rest[1..], map[])
    && (forall i | 0 <= i < |created| :: created[i] !in was)
  }

  // The walk stands at `current` with `parts[i..]` to go.
  ghost predicate Walking(was: Memory, s: Stop, parts: seq<string>, i: nat, current: PayloadObject, created: seq<PayloadObject>)
    reads was.Keys, created
  {
    && s.obj in was && Closed(was) && i < |parts| && 0 < |s.rest| <= |parts|
    && s.rest == parts[|parts| - |s.rest|..] && (|s.rest| > 1 ==> !Steps(was, s.obj, s.rest[0]))
    && if created == [] then i <= |parts| - |s.rest| && current in was && Same(was) && StopAt(was, current, parts[i..]) == s
       else |created| == i - (|parts| - |s.rest|) && current == created[|created| - 1] && Growing(was, s, created)
  }

  /** Put a new empty object under the next key of the path. */
  method Grow(current: PayloadObject, key: string, ghost was: Memory, ghost s: Stop, ghost parts: seq<string>, ghost i: nat,
              ghost created: seq<PayloadObject>) returns (made: PayloadObject)
    requires Walking(was, s, parts, i, current, created) && i + 1 < |parts| && key == parts[i]
    requires !(key in current.fields && current.fields[key].Nested?)
    modifies current
    ensures fresh(made) && Walking(was, s, parts, i + 1, made, created + [made])
  {
    if created == [] { StopStep(was, current, parts, i); }
    made := new PayloadObject();
    current.fields := current.fields[key := Nested(made)];
  }

  ghost predicate Made(created: seq<PayloadObject>, made: set<PayloadObject>) {
    forall i | 0 <= i < |created| :: created[i] in made
  }

  lemma MadeMore(created: seq<PayloadObject>, made: set<PayloadObject>, next: PayloadObject)
    requires Made(created, made)
    ensures Made(created + [next], made + {next})
  {
  }

  lemma MadeFresh(created: seq<PayloadObject>, made: set<PayloadObject>)
    requires Made(created, made)
    ensures forall o | o in created :: o in made
  {
  }

  /** Go on into the object under the next key. */
  lemma Enter(current: PayloadObject, key: string, was: Memory, s: Stop, parts: seq<string>, i: nat, created: seq<PayloadObject>,
              made: set<PayloadObject>)
    requires Walking(was, s, parts, i, current, created) && i + 1 < |parts| && key == parts[i] && Made(created, made)
    requires key in current.fields && current.fields[key].Nested?
    ensures Walking(was, s, parts, i + 1, current.fields[key].obj, created)
    ensures current.fields[key].obj in was || current.fields[key].obj in made
  {
    if created == [] { StopStep(was, current, parts, i); }
  }

  method Store(current: PayloadObject, key: string, value: Value, ghost was: Memory, ghost s: Stop, ghost parts: seq<string>,
               ghost created: seq<PayloadObject>)
    requires parts != [] && Walking(was, s, parts, |parts| - 1, current, created) && key == parts[|parts| - 1]
    modifies current
    ensures s.rest != [] && s.obj in was && SetAt(was, s, value, created)
  {
    current.fields := current.fields[key := value];
  }

  lemma WalkStarts(was: Memory, target: PayloadObject, parts: seq<string>)
    requires target in was && Closed(was) && Same(was) && parts != []
    ensures Walking(was, StopAt(was, target, parts), parts, 0, target, [])
  {
    StopRest(was, target, parts);
    assert parts[0..] == parts;
  }

  /** One step of the walk: go on into the next object, or make it. */
  method Walk(current: PayloadObject, key: string, ghost was: Memory, ghost s: Stop, ghost parts: seq<string>, ghost i: nat,
              ghost created: seq<PayloadObject>, ghost made: set<PayloadObject>)
      returns (next: PayloadObject, ghost more: seq<PayloadObject>, ghost made': set<PayloadObject>)
    requires Walking(was, s, parts, i, current, created) && i + 1 < |parts| && key == parts[i] && Made(created, made)
    modifies current
    ensures Walking(was, s, parts, i + 1, next, more) && Made(more, made')
    ensures made <= made' && fresh(made' - made) && (next in was || next in made')
  {
    hide *;
    if !(key in current.fields && current.fields[key].Nested?) {
      next := Grow(current, key, was, s, parts, i, created);
      MadeMore(created, made, next);
      more, made' := created + [next], made + {next};
    } else {
      Enter(current, key, was, s, parts, i, created, made);
      next := current.fields[key].obj;
      more, made' := created, made;
    }
  }

  /** The walk along all the parts, and the assignment at its end. */
  method SetParts(target: PayloadObject, parts: seq<string>, value: Value, ghost was: Memory, ghost s: Stop)
      returns (ghost created: seq<PayloadObject>, ghost made: set<PayloadObject>)
    requires parts != [] && target in was && Walking(was, s, parts, 0, target, [])
    modifies was.Keys
    ensures s.rest != [] && s.obj in was && SetAt(was, s, value, created)
    ensures fresh(made) && Made(created, made)
  {
    hide *;
    created, made := [], {};
    MadeNone();
    var current := target;
    var i := 0;
    while i < |parts| - 1
      invariant 0 <= i < |parts|
      invariant fresh(made) && (current in was || current in made)
      invariant Made(created, made) && Walking(was, s, parts, i, current, created)
    {
      current, created, made := Walk(current, parts[i], was, s, parts, i, created, made);
      i := i + 1;
    }
    Store(current, parts[|parts| - 1], value, was, s, parts, created);
  }

  lemma MadeNone()
    ensures Made([], {})
  {
  }

  /** Set the value at a dotted path in place; false stands for the throw on an empty path. */
  method SetPath(target: PayloadObject, path: string, value: Value, ghost repr: set<PayloadObject>)
      returns (ok: bool, ghost created: seq<PayloadObject>)
    requires target in repr && Closed(Snapshot(repr))
    modifies repr
    ensures ok <==> Parts(path) != []
    ensures !ok ==> unchanged(repr)
    ensures forall o | o in created :: fresh(o)
    ensures ok ==> SetAt(old(Snapshot(repr)), StopAt(old(Snapshot(repr)), target, Parts(path)), value, created)
  {
    created := [];
    var parts := Parts(path);
    if parts == [] { return false, []; }
    ghost var was := Snapshot(repr);
    WalkStarts(was, target, parts);
    assert was.Keys == repr;
    hide *;
    ghost var made;
    created, made := SetParts(target, parts, value, was, StopAt(was, target, parts));
    MadeFresh(created, made);
    ok := true;
  }

  // ----- the objects of an unshared payload -----

  datatype Shape = Flat(json: Json) | Node(obj: PayloadObject, kids: map<string, Shape>)

  function Root(s: Shape): Value {
    match s
    case Flat(json) => Plain(json)
    case Node(obj, _) => Nested(obj)
  }

  function Erase(s: Shape): Json {
    match s
    case Flat(json) => json
    case Node(_, kids) => Object(map k | k in kids :: Erase(kids[k]))
  }

  ghost function Objects(s: Shape): set<PayloadObject> {
    match s
    case Flat(_) => {}
    case Node(obj, kids) => {obj} + set k, o | k in kids && o in Objects(kids[k]) :: o
  }

  // No object occurs twice.
  ghost predicate Unshared(s: Shape) {
    match s
    case Flat(json) => !json.Object?
    case Node(obj, kids) =>
      && (forall k | k in kids :: Unshared(kids[k]) && obj !in Objects(kids[k]))
      && (forall k, l | k in kids && l in kids && k != l :: Objects(kids[k]) !! Objects(kids[l]))
  }

  ghost predicate Lives(m: Memory, s: Shape) {
    match s
    case Flat(_) => true
    case Node(obj, kids) =>
      && obj in m && m[obj].Keys == kids.Keys
      && (forall k | k in kids :: m[obj][k] == Root(kids[k]) && Lives(m, kids[k]))
  }

  lemma {:induction false} LivesFrame(m: Memory, next: Memory, s: Shape)
    requires Lives(m, s) && forall o | o in Objects(s) && o in m :: o in next && next[o] == m[o]
    ensures Lives(next, s)
  {
    match s
    case Flat(_) =>
    case Node(obj, kids) => forall k | k in kids ensures Lives(next, kids[k]) { LivesFrame(m, next, kids[k]); }
  }

  // The new objects below the end of the path, as a shape.
  ghost function Spine(created: seq<PayloadObject>, keys: seq<string>, value: Json): Shape
    requires |created| == |keys|
    decreases |keys|
  {
    if keys == [] then Flat(value) else Node(created[0], map[keys[0] := Spine(created[1..], keys[1..], value)])
  }

  ghost predicate SpineIn(m: Memory, created: seq<PayloadObject>, keys: seq<string>, value: Json)
    requires |created| == |keys|
    decreases |keys|
  {
    created != [] ==>
      && created[0] in m && created[0] !in created[1..]
      && m[created[0]] == map[keys[0] := if |created| == 1 then Plain(value) else Nested(created[1])]
      && SpineIn(m, created[1..], keys[1..], value)
  }

  lemma {:induction false} ChainIsSpine(m: Memory, created: seq<PayloadObject>, keys: seq<string>, value: Json)
    requires |created| == |keys| && (keys != [] ==> Chain(created, keys, map[keys[|keys| - 1] := Plain(value)]))
    requires forall o | o in created :: o in m && m[o] == o.fields
    ensures SpineIn(m, created, keys, value)
    decreases |keys|
  {
    if keys != [] {
      var rest := created[1..];
      assert created[0] in created;
      forall i | 0 <= i < |rest| - 1 ensures rest[i].fields == map[keys[1..][i] := Nested(rest[i + 1])] {
        assert created[i + 1].fields == map[keys[i + 1] := Nested(created[i + 2])];
      }
      ChainIsSpine(m, rest, keys[1..], value);
    }
  }

  lemma {:induction false} SpineErases(created: seq<PayloadObject>, keys: seq<string>, value: Json)
    requires |created| == |keys|
    ensures Erase(Spine(created, keys, value)) == SetIn(Object(map[]), keys, value)
    decreases |keys|
  {
    if keys != [] {
      SpineErases(created[1..], keys[1..], value);
      var kid := Spine(created[1..], keys[1..], value);
      ErasedKids(created[0], map[], keys[0], kid);
      assert map[][keys[0] := kid] == map[keys[0] := kid];
      assert Erase(Node(created[0], map[])).fields == map[];
    }
  }

  lemma ErasedKids(obj: PayloadObject, kids: map<string, Shape>, key: string, kid: Shape)
    ensures Erase(Node(obj, kids[key := kid])) == Object(Erase(Node(obj, kids)).fields[key := Erase(kid)])
  {
  }

  lemma {:induction false} SpineLives(m: Memory, created: seq<PayloadObject>, keys: seq<string>, value: Json)
    requires |created| == |keys| && !value.Object? && SpineIn(m, created, keys, value)
    ensures var s := Spine(created, keys, value);
      Lives(m, s) && Unshared(s)
    ensures Root(Spine(created, keys, value)) == if created == [] then Plain(value) else Nested(created[0])
    decreases |keys|
  {
    if keys != [] {
      SpineLives(m, created[1..], keys[1..], value);
      assert created == [created[0]] + created[1..];
      var kid := Spine(created[1..], keys[1..], value);
      assert Spine(created, keys, value) == Node(created[0], map[keys[0] := kid]);
      SpineObjects(created[1..], keys[1..], value);
      assert keys[0] in map[keys[0] := kid];
    }
  }

  // The end of the walk: one field of the last object gets the new spine.
  lemma RefinesHere(was: Memory, now: Memory, shape: Shape, key: string, kid: Shape)
    requires shape.Node? && Unshared(shape) && Lives(was, shape) && Objects(shape) <= was.Keys <= now.Keys
    requires Unshared(kid) && Lives(now, kid) && Objects(kid) !! was.Keys
    requires forall o | o in was && o != shape.obj :: now[o] == was[o]
    requires now[shape.obj] == was[shape.obj][key := Root(kid)]
    ensures var next := Node(shape.obj, shape.kids[key := kid]);
      Unshared(next) && Lives(now, next) && Objects(next) <= Objects(shape) + Objects(kid)
  {
    forall k | k in shape.kids ensures Lives(now, shape.kids[k]) && Objects(shape.kids[k]) <= was.Keys {
      assert Objects(shape.kids[k]) <= Objects(shape);
      LivesFrame(was, now, shape.kids[k]);
    }
  }

  lemma KidsApart(shape: Shape, key: string, k: string)
    requires shape.Node? && Unshared(shape) && key in shape.kids && k in shape.kids && k != key
    ensures Objects(shape.kids[k]) <= Objects(shape) && Objects(shape.kids[key]) <= Objects(shape)
    ensures Objects(shape.kids[k]) !! Objects(shape.kids[key]) && shape.obj !in Objects(shape.kids[key])
  {
  }

  lemma KidInside(shape: Shape, key: string)
    requires shape.Node? && Unshared(shape) && key in shape.kids
    ensures Objects(shape.kids[key]) <= Objects(shape) && shape.obj in Objects(shape) && shape.obj !in Objects(shape.kids[key])
  {
  }

  lemma ObjectsUpdate(obj: PayloadObject, kids: map<string, Shape>, key: string, kid: Shape)
    ensures Objects(Node(obj, kids[key := kid])) <= Objects(Node(obj, kids)) + Objects(kid)
  {
  }

  lemma RefinesBelow(was: Memory, now: Memory, shape: Shape, key: string, kid: Shape, added: set<PayloadObject>)
    requires shape.Node? && Unshared(shape) && Lives(was, shape) && Objects(shape) <= was.Keys <= now.Keys
    requires key in shape.kids && shape.kids[key].Node?
    requires Unshared(kid) && Lives(now, kid) && added !! was.Keys
    requires Objects(kid) <= Objects(shape.kids[key]) + added && Root(kid) == Root(shape.kids[key])
    requires forall o | o in was && o !in Objects(shape.kids[key]) :: now[o] == was[o]
    ensures var next := Node(shape.obj, shape.kids[key := kid]);
      Unshared(next) && Lives(now, next) && Objects(next) <= Objects(shape) + added
  {
    LivesBelow(was, now, shape, key, kid);
    KidInside(shape, key);
    hide Lives;
    hide Objects;
    UnsharedBelow(shape, key, kid, added);
    ObjectsUpdate(shape.obj, shape.kids, key, kid);
  }

  lemma UnsharedBelow(shape: Shape, key: string, kid: Shape, added: set<PayloadObject>)
    requires shape.Node? && Unshared(shape) && key in shape.kids && Unshared(kid)
    requires Objects(kid) <= Objects(shape.kids[key]) + added && added !! Objects(shape)
    ensures Unshared(Node(shape.obj, shape.kids[key := kid]))
  {
    KidInside(shape, key);
    hide Objects;
    forall k | k in shape.kids && k != key
      ensures Objects(shape.kids[k]) !! Objects(kid)
    {
      KidsApart(shape, key, k);
      StillApart(Objects(shape.kids[k]), Objects(shape.kids[key]), added, Objects(kid));
    }
  }

  lemma StillApart<T>(a: set<T>, b: set<T>, added: set<T>, c: set<T>)
    requires a !! b && a !! added && c <= b + added
    ensures a !! c
  {
  }

  lemma LivesBelow(was: Memory, now: Memory, shape: Shape, key: string, kid: Shape)
    requires shape.Node? && Unshared(shape) && Lives(was, shape) && Objects(shape) <= was.Keys <= now.Keys
    requires key in shape.kids && Lives(now, kid) && Root(kid) == Root(shape.kids[key])
    requires forall o | o in was && o !in Objects(shape.kids[key]) :: now[o] == was[o]
    ensures Lives(now, Node(shape.obj, shape.kids[key := kid]))
  {
    KidInside(shape, key);
    hide Objects;
    hide Unshared;
    forall k | k in shape.kids && k != key ensures Lives(now, shape.kids[k]) {
      KidsApart(shape, key, k);
      LivesFrame(was, now, shape.kids[k]);
    }
  }

  lemma StopInside(m: Memory, shape: Shape, parts: seq<string>)
    requires shape.Node? && Lives(m, shape) && Closed(m) && parts != [] && Objects(shape) <= m.Keys
    ensures StopAt(m, shape.obj, parts).obj in Objects(shape)
    decreases |parts|
  {
    if |parts| > 1 && Steps(m, shape.obj, parts[0]) {
      var kid := shape.kids[parts[0]];
      assert Objects(kid) <= Objects(shape);
      StopInside(m, kid, parts[1..]);
    }
  }

  // The values a walk starts from, holds and ends with.
  ghost predicate WalkFrom(was: Memory, shape: Shape) {
    shape.Node? && Unshared(shape) && Lives(was, shape) && Closed(was) && Objects(shape) <= was.Keys
  }

  ghost predicate Become(was: Memory, now: Memory, s: Stop, value: Json, created: seq<PayloadObject>)
    requires s.rest != [] && s.obj in was
    reads was.Keys, created, now.Keys
  {
    && SetAt(was, s, Plain(value), created)
    && now.Keys == was.Keys + (set o | o in created) && (forall o | o in now :: now[o] == o.fields)
    && (forall o | o in created :: o !in was)
  }

  lemma KidWalks(was: Memory, shape: Shape, key: string)
    requires WalkFrom(was, shape) && Steps(was, shape.obj, key)
    ensures key in shape.kids && WalkFrom(was, shape.kids[key]) && was[shape.obj][key].obj == shape.kids[key].obj
  {
    assert Objects(shape.kids[key]) <= Objects(shape);
  }

  lemma HereRefines(was: Memory, now: Memory, shape: Shape, parts: seq<string>, value: Json, created: seq<PayloadObject>)
      returns (next: Shape)
    requires WalkFrom(was, shape) && parts != [] && !value.Object?
    requires Become(was, now, Stop(shape.obj, parts), value, created)
    requires |parts| > 1 ==> !Steps(was, shape.obj, parts[0])
    ensures next.Node? && next.obj == shape.obj && Unshared(next) && Lives(now, next)
    ensures Objects(next) <= Objects(shape) + set o | o in created
    ensures Erase(next) == SetIn(Erase(shape), parts, value)
  {
    var keys := parts[1..];
    var kid := Spine(created, keys, value);
    BecomeSpine(was, now, Stop(shape.obj, parts), value, created);
    OnlyInside(was, now, Stop(shape.obj, parts), value, created);
    SpineLives(now, created, keys, value);
    SpineErases(created, keys, value);
    SpineObjects(created, keys, value);
    hide Objects;
    hide Become;
    hide Spine;
    hide Unshared;
    hide Lives;
    RefinesHere(was, now, shape, parts[0], kid);
    next := Node(shape.obj, shape.kids[parts[0] := kid]);
    ErasedKids(shape.obj, shape.kids, parts[0], kid);
    NotEntered(was, shape, parts, value);
  }

  lemma {:induction false} SpineObjects(created: seq<PayloadObject>, keys: seq<string>, value: Json)
    requires |created| == |keys|
    ensures Objects(Spine(created, keys, value)) == set o | o in created
    decreases |keys|
  {
    if keys != [] {
      SpineObjects(created[1..], keys[1..], value);
      assert created == [created[0]] + created[1..];
      var kid := Spine(created[1..], keys[1..], value);
      var kids := map[keys[0] := kid];
      forall o | o in Objects(kid) ensures o in Objects(Node(created[0], kids)) {
        assert keys[0] in kids && o in Objects(kids[keys[0]]);
      }
    }
  }

  lemma BecomeSpine(was: Memory, now: Memory, s: Stop, value: Json, created: seq<PayloadObject>)
    requires s.rest != [] && s.obj in was && Become(was, now, s, value, created)
    ensures |created| == |s.rest| - 1 && SpineIn(now, created, s.rest[1..], value)
    ensures now[s.obj] == was[s.obj][s.rest[0] := if created == [] then Plain(value) else Nested(created[0])]
  {
    assert s.rest[1..] != [] ==> s.rest[1..][|s.rest[1..]| - 1] == s.rest[|s.rest| - 1];
    ChainIsSpine(now, created, s.rest[1..], value);
  }

  lemma NotEntered(was: Memory, shape: Shape, parts: seq<string>, value: Json)
    requires WalkFrom(was, shape) && parts != [] && (|parts| > 1 ==> !Steps(was, shape.obj, parts[0]))
    ensures SetIn(Erase(shape), parts, value) ==
      Object(Erase(shape).fields[parts[0] := SetIn(Object(map[]), parts[1..], value)])
  {
    var below := if parts[0] in shape.kids then Erase(shape.kids[parts[0]]) else Object(map[]);
    if parts[0] in shape.kids {
      assert was[shape.obj][parts[0]] == Root(shape.kids[parts[0]]) && Unshared(shape.kids[parts[0]]);
    }
    SetInFlat(below, parts[1..], value);
  }

  /** On a payload without shared objects the in-place walk does what setting the path in the value does. */
  lemma {:induction false} InPlaceRefinesValue(was: Memory, now: Memory, shape: Shape, parts: seq<string>, value: Json,
                                               created: seq<PayloadObject>) returns (next: Shape)
    requires WalkFrom(was, shape) && parts != [] && !value.Object?
    requires Become(was, now, StopAt(was, shape.obj, parts), value, created)
    ensures next.Node? && next.obj == shape.obj && Unshared(next) && Lives(now, next)
    ensures Objects(next) <= Objects(shape) + set o | o in created
    ensures Erase(next) == SetIn(Erase(shape), parts, value)
    decreases |parts|
  {
    if |parts| > 1 && Steps(was, shape.obj, parts[0]) {
      KidWalks(was, shape, parts[0]);
      var kid := InPlaceRefinesValue(was, now, shape.kids[parts[0]], parts[1..], value, created);
      StopInside(was, shape.kids[parts[0]], parts[1..]);
      OnlyInside(was, now, StopAt(was, shape.obj, parts), value, created);
      hide StopAt;
      hide Become;
      RefinesBelow(was, now, shape, parts[0], kid, set o | o in created);
      next := Node(shape.obj, shape.kids[parts[0] := kid]);
      ErasedKids(shape.obj, shape.kids, parts[0], kid);
    } else {
      next := HereRefines(was, now, shape, parts, value, created);
    }
  }

  lemma OnlyInside(was: Memory, now: Memory, s: Stop, value: Json, created: seq<PayloadObject>)
    requires s.rest != [] && s.obj in was && Become(was, now, s, value, created)
    ensures was.Keys <= now.Keys && (forall o | o in was && o != s.obj :: now[o] == was[o])
    ensures (set o | o in created) !! was.Keys
  {
  }

  // Below something that is not an object a path is set as in an empty object.
  lemma SetInFlat(j: Json, parts: seq<string>, value: Json)
    requires parts == [] || !j.Object? || j == Object(map[])
    ensures SetIn(j, parts, value) == SetIn(Object(map[]), parts, value)
  {
  }
}
