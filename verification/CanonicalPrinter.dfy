/**
 The canonical JSON printer: object keys in code-unit order (section 3.2.3 of RFC 8785), text emitted
 as chunks, and what the text determines about the value.
 */
module CanonicalPrinter {
  import opened Wrappers
  import opened Ordering
  import opened JsonText

  // ----- the canonical form of a value -----

  function InsertField(f: Field, fields: List<Field>): List<Field> {
    if fields.Nil? || LexLe(f.key, fields.head.key) then Cons(f, fields)
    else Cons(fields.head, InsertField(f, fields.tail))
  }

  function SortFields(fields: List<Field>): List<Field> {
    if fields.Nil? then Nil else InsertField(fields.head, SortFields(fields.tail))
  }

  /** Every object's fields in key order, all the way down. */
  function Canon(v: Value): Value {
    match v
    case Arr(items) => Arr(CanonItems(items))
    case Obj(fields) => Obj(SortFields(CanonFields(fields)))
    case _ => v
  }

  function CanonItems(items: List<Value>): List<Value> {
    if items.Nil? then Nil else Cons(Canon(items.head), CanonItems(items.tail))
  }

  function CanonFields(fields: List<Field>): List<Field> {
    if fields.Nil? then Nil else Cons(Field(fields.head.key, Canon(fields.head.value)), CanonFields(fields.tail))
  }

  /** The canonical text of a JSON value. */
  function CanonicalText(v: Value): Text
    requires Legal(v)
  {
    CanonLegal(v);
    Print(Canon(v))
  }

  // ----- what a value means: an object is a map -----

  datatype Meaning =
    | MNull
    | MBool(b: bool)
    | MNum(token: Text)
    | MStr(units: Text)
    | MArr(items: List<Meaning>)
    | MObj(fields: map<Text, Meaning>)
    | MIllegal

  function MeaningOf(v: Value): Meaning {
    match v
    case Null => MNull
    case Bool(b) => MBool(b)
    case Num(token) => MNum(token)
    case Str(units) => MStr(units)
    case Arr(items) => MArr(MeaningItems(items))
    case Obj(fields) => MObj(MeaningFields(fields))
    case Illegal => MIllegal
  }

  function MeaningItems(items: List<Value>): List<Meaning> {
    if items.Nil? then Nil else Cons(MeaningOf(items.head), MeaningItems(items.tail))
  }

  function MeaningFields(fields: List<Field>): map<Text, Meaning> {
    if fields.Nil? then map[] else MeaningFields(fields.tail)[fields.head.key := MeaningOf(fields.head.value)]
  }

  // ----- sorting -----

  predicate Less(a: Text, b: Text) {
    LexLe(a, b) && a != b
  }

  predicate AllAbove(key: Text, fields: List<Field>) {
    fields.Cons? ==> Less(key, fields.head.key) && AllAbove(key, fields.tail)
  }

  /** Keys strictly increase. */
  predicate Sorted(fields: List<Field>) {
    fields.Cons? ==> AllAbove(fields.head.key, fields.tail) && Sorted(fields.tail)
  }

  lemma LessTransitive(a: Text, b: Text, c: Text)
    requires Less(a, b) && Less(b, c)
    ensures Less(a, c)
  {
    LexTransitive(a, b, c);
    LexAntisymmetric(a, b);
    LexAntisymmetric(b, c);
  }

  lemma {:induction false} AboveTransitive(a: Text, b: Text, fields: List<Field>)
    requires Less(a, b) && AllAbove(b, fields)
    ensures AllAbove(a, fields)
    decreases fields
  {
    if fields.Cons? {
      LessTransitive(a, b, fields.head.key);
      AboveTransitive(a, b, fields.tail);
    }
  }

  lemma {:induction false} AboveHasNot(key: Text, fields: List<Field>, k: Text)
    requires AllAbove(key, fields)
    ensures HasKey(fields, k) ==> Less(key, k)
    decreases fields
  {
    if fields.Cons? && fields.head.key != k { AboveHasNot(key, fields.tail, k); }
  }

  lemma {:induction false} InsertAbove(key: Text, f: Field, fields: List<Field>)
    ensures AllAbove(key, InsertField(f, fields)) <==> Less(key, f.key) && AllAbove(key, fields)
    decreases fields
  {
    if fields.Cons? { InsertAbove(key, f, fields.tail); }
  }

  lemma {:induction false} InsertHas(f: Field, fields: List<Field>, k: Text)
    ensures HasKey(InsertField(f, fields), k) <==> k == f.key || HasKey(fields, k)
    decreases fields
  {
    if fields.Cons? { InsertHas(f, fields.tail, k); }
  }

  lemma {:induction false} InsertSorted(f: Field, fields: List<Field>)
    requires Sorted(fields) && !HasKey(fields, f.key)
    ensures Sorted(InsertField(f, fields))
    decreases fields
  {
    if fields.Cons? {
      LexTotal(f.key, fields.head.key);
      if LexLe(f.key, fields.head.key) {
        AboveTransitive(f.key, fields.head.key, fields.tail);
      } else {
        InsertSorted(f, fields.tail);
        InsertAbove(fields.head.key, f, fields.tail);
      }
    }
  }

  lemma {:induction false} InsertLegal(f: Field, fields: List<Field>)
    requires LegalFields(fields) && !HasKey(fields, f.key) && CodeUnits(f.key) && Legal(f.value)
    ensures LegalFields(InsertField(f, fields))
    decreases fields
  {
    if fields.Cons? {
      InsertLegal(f, fields.tail);
      InsertHas(f, fields.tail, fields.head.key);
    }
  }

  lemma {:induction false} InsertMeaning(f: Field, fields: List<Field>)
    requires !HasKey(fields, f.key)
    ensures MeaningFields(InsertField(f, fields)) == MeaningFields(fields)[f.key := MeaningOf(f.value)]
    decreases fields
  {
    if fields.Cons? { InsertMeaning(f, fields.tail); }
  }

  lemma {:induction false} SortHas(fields: List<Field>, k: Text)
    ensures HasKey(SortFields(fields), k) <==> HasKey(fields, k)
    decreases fields
  {
    if fields.Cons? {
      SortHas(fields.tail, k);
      InsertHas(fields.head, SortFields(fields.tail), k);
    }
  }

  /** Sorting the fields of an object leaves them the same map, in strictly increasing key order. */
  lemma {:induction false} SortKeeps(fields: List<Field>)
    requires LegalFields(fields)
    ensures Sorted(SortFields(fields)) && LegalFields(SortFields(fields)) && MeaningFields(SortFields(fields)) == MeaningFields(fields)
    decreases fields
  {
    if fields.Cons? {
      SortKeeps(fields.tail);
      SortHas(fields.tail, fields.head.key);
      InsertSorted(fields.head, SortFields(fields.tail));
      InsertLegal(fields.head, SortFields(fields.tail));
      InsertMeaning(fields.head, SortFields(fields.tail));
    }
  }

  // ----- the canonical form keeps the meaning -----

  lemma {:induction false} CanonHas(fields: List<Field>, k: Text)
    ensures HasKey(CanonFields(fields), k) <==> HasKey(fields, k)
    decreases fields
  {
    if fields.Cons? { CanonHas(fields.tail, k); }
  }

  lemma {:induction false} CanonLegal(v: Value)
    requires Legal(v)
    ensures Legal(Canon(v)) && MeaningOf(Canon(v)) == MeaningOf(v)
    decreases v, 0
  {
    match v
    case Arr(items) => CanonItemsLegal(items);
    case Obj(fields) =>
      CanonFieldsLegal(fields);
      SortKeeps(CanonFields(fields));
    case _ =>
  }

  lemma {:induction false} CanonItemsLegal(items: List<Value>)
    requires LegalItems(items)
    ensures LegalItems(CanonItems(items)) && MeaningItems(CanonItems(items)) == MeaningItems(items)
    decreases items, 1
  {
    if items.Cons? {
      CanonLegal(items.head);
      CanonItemsLegal(items.tail);
    }
  }

  lemma {:induction false} CanonFieldsLegal(fields: List<Field>)
    requires LegalFields(fields)
    ensures LegalFields(CanonFields(fields)) && MeaningFields(CanonFields(fields)) == MeaningFields(fields)
    decreases fields, 1
  {
    if fields.Cons? {
      CanonLegal(fields.head.value);
      CanonFieldsLegal(fields.tail);
      CanonHas(fields.tail, fields.head.key);
    }
  }

  // ----- and is determined by it -----

  predicate InOrder(v: Value) {
    match v
    case Arr(items) => ItemsInOrder(items)
    case Obj(fields) => Sorted(fields) && FieldsInOrder(fields)
    case _ => true
  }

  predicate ItemsInOrder(items: List<Value>) {
    items.Cons? ==> InOrder(items.head) && ItemsInOrder(items.tail)
  }

  predicate FieldsInOrder(fields: List<Field>) {
    fields.Cons? ==> InOrder(fields.head.value) && FieldsInOrder(fields.tail)
  }

  lemma {:induction false} InsertInOrder(f: Field, fields: List<Field>)
    requires FieldsInOrder(fields) && InOrder(f.value)
    ensures FieldsInOrder(InsertField(f, fields))
    decreases fields
  {
    if fields.Cons? { InsertInOrder(f, fields.tail); }
  }

  lemma {:induction false} SortInOrder(fields: List<Field>)
    requires FieldsInOrder(fields)
    ensures FieldsInOrder(SortFields(fields))
    decreases fields
  {
    if fields.Cons? {
      SortInOrder(fields.tail);
      InsertInOrder(fields.head, SortFields(fields.tail));
    }
  }

  lemma {:induction false} CanonInOrder(v: Value)
    requires Legal(v)
    ensures InOrder(Canon(v))
    decreases v, 0
  {
    match v
    case Arr(items) => CanonItemsInOrder(items);
    case Obj(fields) =>
      CanonFieldsInOrder(fields);
      CanonFieldsLegal(fields);
      SortKeeps(CanonFields(fields));
      SortInOrder(CanonFields(fields));
    case _ =>
  }

  lemma {:induction false} CanonItemsInOrder(items: List<Value>)
    requires LegalItems(items)
    ensures ItemsInOrder(CanonItems(items))
    decreases items, 1
  {
    if items.Cons? {
      CanonInOrder(items.head);
      CanonItemsInOrder(items.tail);
    }
  }

  lemma {:induction false} CanonFieldsInOrder(fields: List<Field>)
    requires LegalFields(fields)
    ensures FieldsInOrder(CanonFields(fields))
    decreases fields, 1
  {
    if fields.Cons? {
      CanonInOrder(fields.head.value);
      CanonFieldsInOrder(fields.tail);
    }
  }

  lemma {:induction false} MeaningHas(fields: List<Field>, k: Text)
    ensures k in MeaningFields(fields) <==> HasKey(fields, k)
    decreases fields
  {
    if fields.Cons? { MeaningHas(fields.tail, k); }
  }

  lemma {:induction false} InOrderUnique(a: Value, b: Value)
    requires Legal(a) && Legal(b) && InOrder(a) && InOrder(b) && MeaningOf(a) == MeaningOf(b)
    ensures a == b
    decreases a, 0
  {
    match a
    case Arr(items) => ItemsUnique(items, b.items);
    case Obj(fields) => FieldsUnique(fields, b.fields);
    case _ =>
  }

  lemma {:induction false} ItemsUnique(a: List<Value>, b: List<Value>)
    requires LegalItems(a) && LegalItems(b) && ItemsInOrder(a) && ItemsInOrder(b) && MeaningItems(a) == MeaningItems(b)
    ensures a == b
    decreases a, 1
  {
    if a.Cons? {
      InOrderUnique(a.head, b.head);
      ItemsUnique(a.tail, b.tail);
    }
  }

  // Two sorted field lists that are the same map begin with the same key.
  lemma SameFirstKey(a: List<Field>, b: List<Field>)
    requires Sorted(a) && Sorted(b) && a.Cons? && MeaningFields(a) == MeaningFields(b)
    ensures b.Cons? && a.head.key == b.head.key
  {
    MeaningHas(a, a.head.key);
    MeaningHas(b, a.head.key);
    MeaningHas(a, b.head.key);
    MeaningHas(b, b.head.key);
    AboveHasNot(a.head.key, a.tail, b.head.key);
    AboveHasNot(b.head.key, b.tail, a.head.key);
    LexAntisymmetric(a.head.key, b.head.key);
  }

  lemma {:induction false} FieldsUnique(a: List<Field>, b: List<Field>)
    requires LegalFields(a) && LegalFields(b) && Sorted(a) && Sorted(b) && FieldsInOrder(a) && FieldsInOrder(b)
    requires MeaningFields(a) == MeaningFields(b)
    ensures a == b
    decreases a, 1
  {
    if a.Nil? {
      if b.Cons? { MeaningHas(b, b.head.key); }
    } else {
      SameFirstKey(a, b);
      var k := a.head.key;
      MeaningHas(a.tail, k);
      MeaningHas(b.tail, k);
      assert MeaningFields(a)[k] == MeaningOf(a.head.value) && MeaningFields(b)[k] == MeaningOf(b.head.value);
      assert MeaningFields(a.tail) == MeaningFields(a) - {k};
      assert MeaningFields(b.tail) == MeaningFields(b) - {k};
      InOrderUnique(a.head.value, b.head.value);
      FieldsUnique(a.tail, b.tail);
    }
  }

  // ----- what the text says -----

  /** A parser reads back from the canonical text a value with the same meaning, its keys in order, and what follows. */
  lemma ReadsBack(v: Value, rest: Text)
    requires Legal(v) && Delimited(rest)
    ensures ParseValue(CanonicalText(v) + rest) == Some(Parsed(Canon(v), rest))
    ensures MeaningOf(Canon(v)) == MeaningOf(v) && InOrder(Canon(v))
  {
    CanonLegal(v);
    CanonInOrder(v);
    RoundTrip(Canon(v), rest);
  }

  /** Two values have the same text exactly if they are equal up to the order of keys. */
  lemma SameTextIffSameMeaning(v: Value, w: Value)
    requires Legal(v) && Legal(w)
    ensures CanonicalText(v) == CanonicalText(w) <==> MeaningOf(v) == MeaningOf(w)
  {
    ReadsBack(v, []);
    ReadsBack(w, []);
    assert CanonicalText(v) + [] == CanonicalText(v) && CanonicalText(w) + [] == CanonicalText(w);
    CanonLegal(v);
    CanonLegal(w);
    if MeaningOf(v) == MeaningOf(w) { InOrderUnique(Canon(v), Canon(w)); }
  }

  /** No canonical text followed by a delimiter is the beginning of another one: concatenated texts stay apart. */
  lemma CanonicalIsPrefixFree(v: Value, w: Value, x: Text, y: Text)
    requires Legal(v) && Legal(w) && Delimited(x) && Delimited(y)
    requires CanonicalText(v) + x == CanonicalText(w) + y
    ensures MeaningOf(v) == MeaningOf(w) && x == y
  {
    ReadsBack(v, x);
    ReadsBack(w, y);
  }

  /** Canonical text is one line of printable characters. */
  lemma CanonicalPrintable(v: Value)
    requires Legal(v)
    ensures Printable(CanonicalText(v))
  {
    CanonLegal(v);
    PrintPrintable(Canon(v));
  }

  // ----- validation -----

  /** No unsafe leaf anywhere. */
  predicate Safe(v: Value) {
    match v
    case Arr(items) => SafeItems(items)
    case Obj(fields) => SafeFields(fields)
    case _ => !v.Illegal?
  }

  predicate SafeItems(items: List<Value>) {
    items.Cons? ==> Safe(items.head) && SafeItems(items.tail)
  }

  predicate SafeFields(fields: List<Field>) {
    fields.Cons? ==> Safe(fields.head.value) && SafeFields(fields.tail)
  }

  /** What the language itself guarantees: code units, number texts, and keys that occur once. */
  predicate WellTyped(v: Value) {
    match v
    case Num(token) => NumberToken(token)
    case Str(units) => CodeUnits(units)
    case Arr(items) => WellTypedItems(items)
    case Obj(fields) => WellTypedFields(fields)
    case _ => true
  }

  predicate WellTypedItems(items: List<Value>) {
    items.Cons? ==> WellTyped(items.head) && WellTypedItems(items.tail)
  }

  predicate WellTypedFields(fields: List<Field>) {
    fields.Cons? ==>
      CodeUnits(fields.head.key) && WellTyped(fields.head.value) && !HasKey(fields.tail, fields.head.key) && WellTypedFields(fields.tail)
  }

  lemma {:induction false} LegalIff(v: Value)
    ensures Legal(v) <==> WellTyped(v) && Safe(v)
    decreases v, 0
  {
    match v
    case Arr(items) => LegalItemsIff(items);
    case Obj(fields) => LegalFieldsIff(fields);
    case _ =>
  }

  lemma {:induction false} LegalItemsIff(items: List<Value>)
    ensures LegalItems(items) <==> WellTypedItems(items) && SafeItems(items)
    decreases items, 1
  {
    if items.Cons? {
      LegalIff(items.head);
      LegalItemsIff(items.tail);
    }
  }

  lemma {:induction false} LegalFieldsIff(fields: List<Field>)
    ensures LegalFields(fields) <==> WellTypedFields(fields) && SafeFields(fields)
    decreases fields, 1
  {
    if fields.Cons? {
      LegalIff(fields.head.value);
      LegalFieldsIff(fields.tail);
    }
  }

  function Size(v: Value): nat {
    match v
    case Arr(items) => 1 + SizeItems(items)
    case Obj(fields) => 1 + SizeFields(fields)
    case _ => 0
  }

  function SizeItems(items: List<Value>): nat {
    if items.Nil? then 0 else 1 + Size(items.head) + SizeItems(items.tail)
  }

  function SizeFields(fields: List<Field>): nat {
    if fields.Nil? then 0 else 1 + Size(fields.head.value) + SizeFields(fields.tail)
  }

  /** The validation walk; false stands for the throw. */
  method AssertCanonical(v: Value) returns (ok: bool)
    ensures ok <==> Safe(v)
    decreases Size(v)
  {
    match v {
      case Illegal => ok := false;
      case Arr(items) =>
        var rest := items;
        while rest.Cons?
          invariant SizeItems(rest) <= SizeItems(items) && (SafeItems(items) <==> SafeItems(rest))
          decreases rest
        {
          ok := AssertCanonical(rest.head);
          if !ok { return; }
          rest := rest.tail;
        }
        ok := true;
      case Obj(fields) =>
        var rest := fields;
        while rest.Cons?
          invariant SizeFields(rest) <= SizeFields(fields) && (SafeFields(fields) <==> SafeFields(rest))
          decreases rest
        {
          ok := AssertCanonical(rest.head.value);
          if !ok { return; }
          rest := rest.tail;
        }
        ok := true;
      case _ => ok := true;
    }
  }

  // ----- emission -----

  lemma {:induction false} InsertSize(f: Field, fields: List<Field>)
    ensures SizeFields(InsertField(f, fields)) == 1 + Size(f.value) + SizeFields(fields)
    decreases fields
  {
    if fields.Cons? { InsertSize(f, fields.tail); }
  }

  lemma {:induction false} SortSize(fields: List<Field>)
    ensures SizeFields(SortFields(fields)) == SizeFields(fields)
    decreases fields
  {
    if fields.Cons? {
      SortSize(fields.tail);
      InsertSize(fields.head, SortFields(fields.tail));
    }
  }

  lemma {:induction false} CanonInsert(f: Field, fields: List<Field>)
    ensures CanonFields(InsertField(f, fields)) == InsertField(Field(f.key, Canon(f.value)), CanonFields(fields))
    decreases fields
  {
    if fields.Cons? { CanonInsert(f, fields.tail); }
  }

  /** Sorting at each level as it is emitted is sorting everywhere first. */
  lemma {:induction false} CanonSort(fields: List<Field>)
    ensures CanonFields(SortFields(fields)) == SortFields(CanonFields(fields))
    decreases fields
  {
    if fields.Cons? {
      CanonSort(fields.tail);
      CanonInsert(fields.head, SortFields(fields.tail));
    }
  }

  function Concat(chunks: seq<Text>): Text {
    if chunks == [] then [] else Concat(chunks[..|chunks| - 1]) + chunks[|chunks| - 1]
  }

  class ChunkBuffer {
    var chunks: seq<Text>

    constructor ()
      ensures chunks == []
    {
      chunks := [];
    }

    function Joined(): Text
      reads this
    {
      Concat(chunks)
    }

    method Push(chunk: Text)
      modifies this
      ensures Joined() == old(Joined()) + chunk
    {
      chunks := chunks + [chunk];
      assert chunks[..|chunks| - 1] == old(chunks);
    }
  }

  method QuoteString(s: Text) returns (r: Text)
    requires CodeUnits(s)
    ensures r == Quote(s)
  {
    r := [QUOTE];
    for i := 0 to |s|
      invariant r + EscapeAll(s[i..]) + [QUOTE] == Quote(s)
    {
      var c := s[i];
      assert s[i..][0] == c && s[i..][1..] == s[i + 1..];
      var piece: Text;
      if ShortEscape(c) != 0 {
        piece := [BACKSLASH, ShortEscape(c)];
      } else if c < 0x20 {
        piece := [BACKSLASH, 117, 48, 48, HexDigit(c / 16), HexDigit(c % 16)];
      } else {
        piece := [c];
      }
      Regroup(r, piece, EscapeAll(s[i + 1..]), [QUOTE]);
      r := r + piece;
    }
    assert s[|s|..] == [];
    r := r + [QUOTE];
  }

  lemma Regroup(a: Text, b: Text, c: Text, d: Text)
    ensures a + (b + c) + d == (a + b) + c + d
    ensures a + (b + c + d) == (a + b) + c + d
    ensures a + (b + c) == (a + b) + c
    ensures b == [] ==> a + (b + c) == a + c
  {
  }

  // What is still to be emitted of a list, and the comma that comes before it.
  function ItemsLeft(rest: List<Value>, first: bool): Text
    requires LegalItems(CanonItems(rest))
  {
    if rest.Nil? then [] else (if first then [] else [COMMA]) + PrintItems(CanonItems(rest))
  }

  function FieldsLeft(rest: List<Field>, first: bool): Text
    requires LegalFields(CanonFields(rest))
  {
    if rest.Nil? then [] else (if first then [] else [COMMA]) + PrintFields(CanonFields(rest))
  }

  function Comma(first: bool): Text {
    if first then [] else [COMMA]
  }

  lemma ItemsLeftStep(joined: Text, rest: List<Value>, first: bool)
    requires rest.Cons? && LegalItems(CanonItems(rest))
    ensures joined + ItemsLeft(rest, first) == joined + (Comma(first) + Print(Canon(rest.head))) + ItemsLeft(rest.tail, false)
  {
    var head, left := Print(Canon(rest.head)), ItemsLeft(rest.tail, false);
    hide Print;
    assert PrintItems(CanonItems(rest)) == head + left;
    Regroup4(joined, Comma(first), head, left);
  }

  function FieldText(f: Field): Text
    requires CodeUnits(f.key) && Legal(Canon(f.value))
  {
    Quote(f.key) + [COLON] + Print(Canon(f.value))
  }

  lemma FieldsLeftStep(joined: Text, rest: List<Field>, first: bool)
    requires rest.Cons? && LegalFields(CanonFields(rest))
    ensures joined + FieldsLeft(rest, first) == joined + (Comma(first) + FieldText(rest.head)) + FieldsLeft(rest.tail, false)
  {
    var head, left := FieldText(rest.head), FieldsLeft(rest.tail, false);
    assert PrintFields(CanonFields(rest)) == head + left;
    hide Print;
    hide Quote;
    Regroup4(joined, Comma(first), head, left);
  }

  lemma Regroup4(a: Text, b: Text, c: Text, d: Text)
    ensures a + (b + (c + d)) == a + (b + c) + d
    ensures b == [] ==> a + (c + d) == a + (b + c) + d
  {
  }

  /** Emit one value in chunks: the buffer grows by exactly the canonical text. */
  method Emit(v: Value, out: ChunkBuffer)
    requires Legal(v)
    modifies out
    ensures Legal(Canon(v)) && out.Joined() == old(out.Joined()) + Print(Canon(v))
    decreases Size(v), 1
  {
    CanonLegal(v);
    match v {
      case Null => out.Push(NULL_TEXT);
      case Bool(b) => out.Push(if b then TRUE_TEXT else FALSE_TEXT);
      case Num(token) => out.Push(token);
      case Str(units) =>
        var text := QuoteString(units);
        out.Push(text);
      case Arr(items) => EmitItems(items, out);
      case Obj(fields) =>
        var sorted := SortFields(fields);
        SortKeeps(fields);
        SortSize(fields);
        CanonSort(fields);
        EmitFields(sorted, out);
    }
  }

  method EmitItem(v: Value, first: bool, out: ChunkBuffer)
    requires Legal(v)
    modifies out
    ensures Legal(Canon(v)) && out.Joined() == old(out.Joined()) + (Comma(first) + Print(Canon(v)))
    decreases Size(v), 2
  {
    hide Print;
    hide Concat;
    if !first { out.Push([COMMA]); }
    Emit(v, out);
    Regroup(old(out.Joined()), Comma(first), Print(Canon(v)), []);
  }

  method EmitItems(items: List<Value>, out: ChunkBuffer)
    requires LegalItems(items)
    modifies out
    ensures LegalItems(CanonItems(items))
    ensures out.Joined() == old(out.Joined()) + ([OPEN_ARRAY] + PrintItems(CanonItems(items)) + [CLOSE_ARRAY])
    decreases SizeItems(items), 3
  {
    CanonItemsLegal(items);
    ghost var start := out.Joined();
    ghost var all := PrintItems(CanonItems(items));
    out.Push([OPEN_ARRAY]);
    var rest, first := items, true;
    assert ItemsLeft(rest, first) == all;
    while rest.Cons?
      invariant LegalItems(rest) && LegalItems(CanonItems(rest)) && SizeItems(rest) <= SizeItems(items)
      invariant out.Joined() + ItemsLeft(rest, first) == start + [OPEN_ARRAY] + all
      decreases rest
    {
      ItemsLeftStep(out.Joined(), rest, first);
      CanonItemsLegal(rest.tail);
      hide Print;
      hide PrintItems;
      hide Concat;
      hide ItemsLeft;
      EmitItem(rest.head, first, out);
      rest, first := rest.tail, false;
    }
    assert out.Joined() + [] == out.Joined();
    out.Push([CLOSE_ARRAY]);
    Regroup(start, [OPEN_ARRAY], all, [CLOSE_ARRAY]);
  }

  method EmitField(f: Field, first: bool, out: ChunkBuffer)
    requires CodeUnits(f.key) && Legal(f.value)
    modifies out
    ensures Legal(Canon(f.value)) && out.Joined() == old(out.Joined()) + (Comma(first) + FieldText(f))
    decreases Size(f.value), 2
  {
    hide Print;
    hide Concat;
    hide Quote;
    if !first { out.Push([COMMA]); }
    var key := QuoteString(f.key);
    out.Push(key);
    out.Push([COLON]);
    Emit(f.value, out);
    Regroup5(old(out.Joined()), Comma(first), key, [COLON], Print(Canon(f.value)));
  }

  lemma Regroup5(a: Text, b: Text, c: Text, d: Text, e: Text)
    ensures a + b + c + d + e == a + (b + (c + d + e))
    ensures b == [] ==> a + c + d + e == a + (b + (c + d + e))
  {
  }

  method EmitFields(fields: List<Field>, out: ChunkBuffer)
    requires LegalFields(fields)
    modifies out
    ensures LegalFields(CanonFields(fields))
    ensures out.Joined() == old(out.Joined()) + ([OPEN_OBJECT] + PrintFields(CanonFields(fields)) + [CLOSE_OBJECT])
    decreases SizeFields(fields), 3
  {
    CanonFieldsLegal(fields);
    ghost var start := out.Joined();
    ghost var all := PrintFields(CanonFields(fields));
    out.Push([OPEN_OBJECT]);
    var rest, first := fields, true;
    assert FieldsLeft(rest, first) == all;
    while rest.Cons?
      invariant LegalFields(rest) && LegalFields(CanonFields(rest)) && SizeFields(rest) <= SizeFields(fields)
      invariant out.Joined() + FieldsLeft(rest, first) == start + [OPEN_OBJECT] + all
      decreases rest
    {
      FieldsLeftStep(out.Joined(), rest, first);
      CanonFieldsLegal(rest.tail);
      hide Print;
      hide Quote;
      hide PrintFields;
      hide Concat;
      hide FieldsLeft;
      hide FieldText;
      EmitField(rest.head, first, out);
      rest, first := rest.tail, false;
    }
    assert out.Joined() + [] == out.Joined();
    out.Push([CLOSE_OBJECT]);
    Regroup(start, [OPEN_OBJECT], all, [CLOSE_OBJECT]);
  }

  /** The whole printer: None when validation throws, otherwise the canonical text. */
  method CanonicalStringify(v: Value) returns (r: Option<Text>)
    requires WellTyped(v)
    ensures r.Some? <==> Safe(v)
    ensures r.Some? ==> Legal(v) && r.value == CanonicalText(v)
  {
    LegalIff(v);
    var ok := AssertCanonical(v);
    if !ok { return None; }
    var out := new ChunkBuffer();
    Emit(v, out);
    r := Some(out.Joined());
  }
}
