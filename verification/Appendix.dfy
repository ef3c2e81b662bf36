/**
 The context appendix: canonical JSON with the property order of the engine, containment of the
 structural marker characters, the rendered items, and a reader that gets the items back.
 */
module Appendix {
  import opened Wrappers
  import opened JsonText
  import opened CanonicalPrinter

  // ----- canonicalJson -----

  /** A canonical array index: the engine lists such keys first, in numeric order. */
  predicate IndexKey(k: Text) {
    && 0 < |k| <= 10 && (forall i | 0 <= i < |k| :: Digit(k[i]))
    && (k[0] == 48 ==> |k| == 1) && Number(k) < 4294967295
  }

  function Number(k: Text): int {
    if k == [] then 0 else Number(k[..|k| - 1]) * 10 + (k[|k| - 1] - 48)
  }

  function InsertIndex(f: Field, fields: List<Field>): List<Field> {
    if fields.Nil? || (IndexKey(fields.head.key) && Number(f.key) <= Number(fields.head.key)) || !IndexKey(fields.head.key)
    then Cons(f, fields)
    else Cons(fields.head, InsertIndex(f, fields.tail))
  }

  /** The order in which an object lists properties that were added in the order given. */
  function Enumerate(fields: List<Field>): List<Field> {
    if fields.Nil? then Nil
    else if IndexKey(fields.head.key) then InsertIndex(fields.head, Enumerate(fields.tail))
    else PutAfterIndexes(fields.head, Enumerate(fields.tail))
  }

  // Before all other non-index keys, after the index keys.
  function PutAfterIndexes(f: Field, fields: List<Field>): List<Field> {
    if fields.Cons? && IndexKey(fields.head.key) then Cons(fields.head, PutAfterIndexes(f, fields.tail)) else Cons(f, fields)
  }

  function Others(fields: List<Field>): List<Field> {
    if fields.Nil? then Nil
    else if IndexKey(fields.head.key) then Others(fields.tail)
    else Cons(fields.head, Others(fields.tail))
  }

  /** Index keys come first and do not decrease. */
  predicate IndexesFirst(fields: List<Field>) {
    fields.Cons? ==>
      && IndexesFirst(fields.tail)
      && (fields.tail.Cons? && IndexKey(fields.tail.head.key) ==>
            IndexKey(fields.head.key) && Number(fields.head.key) <= Number(fields.tail.head.key))
  }

  lemma {:induction false} InsertIndexOrder(f: Field, fields: List<Field>)
    requires IndexKey(f.key) && IndexesFirst(fields)
    ensures IndexesFirst(InsertIndex(f, fields)) && Others(InsertIndex(f, fields)) == Others(fields)
    decreases fields
  {
    if fields.Cons? { InsertIndexOrder(f, fields.tail); }
  }

  lemma {:induction false} PutOrder(f: Field, fields: List<Field>)
    requires !IndexKey(f.key) && IndexesFirst(fields)
    ensures IndexesFirst(PutAfterIndexes(f, fields)) && Others(PutAfterIndexes(f, fields)) == Cons(f, Others(fields))
    decreases fields
  {
    if fields.Cons? { PutOrder(f, fields.tail); }
  }

  /** Enumeration puts the index keys first, in numeric order, and leaves the other keys in the order they came. */
  lemma {:induction false} EnumerateOrder(fields: List<Field>)
    ensures IndexesFirst(Enumerate(fields)) && Others(Enumerate(fields)) == Others(fields)
    decreases fields
  {
    if fields.Cons? {
      EnumerateOrder(fields.tail);
      if IndexKey(fields.head.key) { InsertIndexOrder(fields.head, Enumerate(fields.tail)); } else { PutOrder(fields.head, Enumerate(fields.tail)); }
    }
  }

  function Listed(v: Value): Value {
    match v
    case Arr(items) => Arr(ListedItems(items))
    case Obj(fields) => Obj(Enumerate(ListedFields(fields)))
    case _ => v
  }

  function ListedItems(items: List<Value>): List<Value> {
    if items.Nil? then Nil else Cons(Listed(items.head), ListedItems(items.tail))
  }

  function ListedFields(fields: List<Field>): List<Field> {
    if fields.Nil? then Nil else Cons(Field(fields.head.key, Listed(fields.head.value)), ListedFields(fields.tail))
  }

  /** The value whose fields stand in the order in which its text lists them. */
  function Canonicalized(v: Value): Value {
    Listed(Canon(v))
  }

  function CanonicalJson(v: Value): Text
    requires Legal(v)
  {
    CanonicalizedKeeps(v);
    Print(Canonicalized(v))
  }

  // Adding one field somewhere in a list.
  predicate AddsField(f: Field, fields: List<Field>, more: List<Field>)
  {
    || more == Cons(f, fields)
    || (more.Cons? && fields.Cons? && more.head == fields.head && AddsField(f, fields.tail, more.tail))
  }

  lemma {:induction false} AddedField(f: Field, fields: List<Field>, more: List<Field>)
    requires AddsField(f, fields, more) && LegalFields(fields) && !HasKey(fields, f.key) && CodeUnits(f.key) && Legal(f.value)
    ensures LegalFields(more) && MeaningFields(more) == MeaningFields(fields)[f.key := MeaningOf(f.value)]
    ensures forall k :: HasKey(more, k) <==> k == f.key || HasKey(fields, k)
    decreases fields
  {
    if more != Cons(f, fields) { AddedField(f, fields.tail, more.tail); }
  }

  lemma {:induction false} InsertIndexAdds(f: Field, fields: List<Field>)
    ensures AddsField(f, fields, InsertIndex(f, fields))
    decreases fields
  {
    if fields.Cons? { InsertIndexAdds(f, fields.tail); }
  }

  lemma {:induction false} PutAdds(f: Field, fields: List<Field>)
    ensures AddsField(f, fields, PutAfterIndexes(f, fields))
    decreases fields
  {
    if fields.Cons? { PutAdds(f, fields.tail); }
  }

  lemma {:induction false} EnumerateKeeps(fields: List<Field>)
    requires LegalFields(fields)
    ensures LegalFields(Enumerate(fields)) && MeaningFields(Enumerate(fields)) == MeaningFields(fields)
    ensures forall k :: HasKey(Enumerate(fields), k) <==> HasKey(fields, k)
    decreases fields
  {
    if fields.Cons? {
      var rest := Enumerate(fields.tail);
      EnumerateKeeps(fields.tail);
      InsertIndexAdds(fields.head, rest);
      PutAdds(fields.head, rest);
      AddedField(fields.head, rest, Enumerate(fields));
    }
  }

  lemma {:induction false} ListedKeeps(v: Value)
    requires Legal(v)
    ensures Legal(Listed(v)) && MeaningOf(Listed(v)) == MeaningOf(v)
    decreases v, 0
  {
    match v
    case Arr(items) => ListedItemsKeep(items);
    case Obj(fields) =>
      ListedFieldsKeep(fields);
      EnumerateKeeps(ListedFields(fields));
    case _ =>
  }

  lemma {:induction false} ListedItemsKeep(items: List<Value>)
    requires LegalItems(items)
    ensures LegalItems(ListedItems(items)) && MeaningItems(ListedItems(items)) == MeaningItems(items)
    decreases items, 1
  {
    if items.Cons? {
      ListedKeeps(items.head);
      ListedItemsKeep(items.tail);
    }
  }

  lemma {:induction false} ListedFieldsKeep(fields: List<Field>)
    requires LegalFields(fields)
    ensures LegalFields(ListedFields(fields)) && MeaningFields(ListedFields(fields)) == MeaningFields(fields)
    ensures forall k :: HasKey(ListedFields(fields), k) <==> HasKey(fields, k)
    decreases fields, 1
  {
    if fields.Cons? {
      ListedKeeps(fields.head.value);
      ListedFieldsKeep(fields.tail);
    }
  }

  lemma CanonicalizedKeeps(v: Value)
    requires Legal(v)
    ensures Legal(Canonicalized(v)) && MeaningOf(Canonicalized(v)) == MeaningOf(v)
  {
    CanonLegal(v);
    ListedKeeps(Canon(v));
  }

  /** Two values have the same canonical JSON exactly if they are equal up to the order of keys. */
  lemma SameJsonIffSameMeaning(v: Value, w: Value)
    requires Legal(v) && Legal(w)
    ensures CanonicalJson(v) == CanonicalJson(w) <==> MeaningOf(v) == MeaningOf(w)
  {
    CanonicalizedKeeps(v);
    CanonicalizedKeeps(w);
    PrintIsPrefixFree(Canonicalized(v), Canonicalized(w), [], []);
    assert CanonicalJson(v) + [] == CanonicalJson(v) && CanonicalJson(w) + [] == CanonicalJson(w);
    if MeaningOf(v) == MeaningOf(w) {
      SameTextIffSameMeaning(v, w);
      CanonLegal(v);
      CanonLegal(w);
      CanonInOrder(v);
      CanonInOrder(w);
      InOrderUnique(Canon(v), Canon(w));
    }
  }

  // ----- containment -----

  /** [ ] < and >. */
  predicate Marker(c: int) {
    c == 91 || c == 93 || c == 60 || c == 62
  }

  /** The last two hexadecimal digits of a marker's code. */
  function MarkerDigits(c: int): (int, int)
    requires Marker(c)
  {
    if c == 91 then (53, 98) else if c == 93 then (53, 100) else if c == 60 then (51, 99) else (51, 101)
  }

  function MarkerEscape(c: int): Text
    requires Marker(c)
  {
    [BACKSLASH, 117, 48, 48, MarkerDigits(c).0, MarkerDigits(c).1]
  }

  function Contain(t: Text): Text {
    if t == [] then []
    else (if Marker(t[0]) then MarkerEscape(t[0]) else [t[0]]) + Contain(t[1..])
  }

  /** The marker that a text begins with in escaped form, if any. */
  function EscapedMarker(t: Text): Option<int> {
    if |t| < 6 || t[0] != BACKSLASH || t[1] != 117 || t[2] != 48 || t[3] != 48 then None
    else if t[4] == 53 && t[5] == 98 then Some(91)
    else if t[4] == 53 && t[5] == 100 then Some(93)
    else if t[4] == 51 && t[5] == 99 then Some(60)
    else if t[4] == 51 && t[5] == 101 then Some(62)
    else None
  }

  /** Undo containment, escape by escape from the left. */
  function Uncontain(t: Text): Text
    decreases |t|
  {
    if t == [] then []
    else if EscapedMarker(t).Some? then [EscapedMarker(t).value] + Uncontain(t[6..])
    else if t[0] == BACKSLASH && |t| > 1 then t[..2] + Uncontain(t[2..])
    else [t[0]] + Uncontain(t[1..])
  }

  /** Every backslash starts an escape of its own, none of which is a marker's. */
  predicate WellEscaped(t: Text)
    decreases |t|
  {
    t != [] ==>
      if t[0] == BACKSLASH
      then |t| > 1 && !Marker(t[1]) && EscapedMarker(t).None? && (t[1] == 117 ==> |t| >= 6 && ControlDigits(t)) && WellEscaped(t[2..])
      else WellEscaped(t[1..])
  }

  // The digits of an escaped control character: \u00 and then 0 or 1.
  predicate ControlDigits(t: Text)
    requires |t| >= 6
  {
    t[2] == 48 && t[3] == 48 && (t[4] == 48 || t[4] == 49)
  }

  lemma ContainFirst(c: int, t: Text)
    ensures Contain([c] + t) == (if Marker(c) then MarkerEscape(c) else [c]) + Contain(t)
  {
    assert ([c] + t)[1..] == t;
  }

  /** Containment loses nothing on canonical JSON. */
  lemma {:induction false} UncontainContain(t: Text)
    requires WellEscaped(t)
    ensures Uncontain(Contain(t)) == t
    decreases |t|
  {
    if t != [] {
      if t[0] == BACKSLASH {
        UncontainContain(t[2..]);
        EscapeStays(t);
      } else {
        UncontainContain(t[1..]);
        if Marker(t[0]) { MarkerComesBack(t[0], Contain(t[1..])); } else { PlainStays(t[0], Contain(t[1..])); }
        assert [t[0]] + t[1..] == t;
      }
    }
  }

  lemma MarkerComesBack(c: int, rest: Text)
    requires Marker(c)
    ensures Uncontain(MarkerEscape(c) + rest) == [c] + Uncontain(rest)
  {
    var t := MarkerEscape(c) + rest;
    assert t[0] == BACKSLASH && t[1] == 117 && t[2] == 48 && t[3] == 48 && t[4] == MarkerDigits(c).0 && t[5] == MarkerDigits(c).1;
    assert t[6..] == rest;
  }

  lemma PlainStays(c: int, rest: Text)
    requires c != BACKSLASH
    ensures Uncontain([c] + rest) == [c] + Uncontain(rest)
  {
    assert ([c] + rest)[1..] == rest;
  }

  lemma UncontainPair(u: Text)
    requires |u| > 1 && u[0] == BACKSLASH && EscapedMarker(u).None?
    ensures Uncontain(u) == u[..2] + Uncontain(u[2..])
  {
  }

  lemma ContainPair(t: Text)
    requires |t| > 1 && t[0] == BACKSLASH && !Marker(t[1])
    ensures Contain(t) == [t[0], t[1]] + Contain(t[2..])
  {
    assert t == [t[0]] + ([t[1]] + t[2..]);
    ContainFirst(t[0], [t[1]] + t[2..]);
    ContainFirst(t[1], t[2..]);
    hide Contain;
    assert [t[0]] + ([t[1]] + Contain(t[2..])) == [t[0], t[1]] + Contain(t[2..]);
  }

  lemma EscapeStays(t: Text)
    requires |t| > 1 && t[0] == BACKSLASH && WellEscaped(t)
    ensures Uncontain(Contain(t)) == t[..2] + Uncontain(Contain(t[2..]))
  {
    var rest := Contain(t[2..]);
    var u := [t[0], t[1]] + rest;
    ContainPair(t);
    if t[1] == 117 {
      ContainFour(t);
      assert u[4] == rest[2];
    }
    hide Contain;
    assert u[..2] == t[..2] && u[2..] == rest && u[0] == BACKSLASH && u[1] == t[1];
    UncontainPair(u);
  }

  // The digits of an escape are contained as they are.
  lemma ContainFour(t: Text)
    requires |t| >= 6 && ControlDigits(t)
    ensures var rest := Contain(t[2..]); |rest| >= 3 && rest[0] == 48 && rest[1] == 48 && rest[2] == t[4]
  {
    assert t[2..] == [t[2]] + ([t[3]] + ([t[4]] + t[5..]));
    ContainFirst(t[2], [t[3]] + ([t[4]] + t[5..]));
    ContainFirst(t[3], [t[4]] + t[5..]);
    ContainFirst(t[4], t[5..]);
  }

  predicate NoMarkers(t: Text) {
    forall i | 0 <= i < |t| :: !Marker(t[i])
  }

  /** Contained text holds no bracket and no angle, and no control character if the text had none. */
  lemma {:induction false} ContainedClean(t: Text)
    ensures NoMarkers(Contain(t)) && (Printable(t) ==> Printable(Contain(t)))
    decreases |t|
  {
    if t != [] { ContainedClean(t[1..]); }
  }

  // ----- printed JSON is well escaped -----

  lemma {:induction false} WellEscapedConcat(a: Text, b: Text)
    requires WellEscaped(a) && WellEscaped(b)
    ensures WellEscaped(a + b)
    decreases |a|
  {
    var t := a + b;
    if a == [] {
      assert t == b;
    } else if a[0] == BACKSLASH {
      WellEscapedConcat(a[2..], b);
      assert t[2..] == a[2..] + b;
    } else {
      WellEscapedConcat(a[1..], b);
      assert t[1..] == a[1..] + b;
    }
  }

  lemma {:induction false} PlainWellEscaped(t: Text)
    requires forall i | 0 <= i < |t| :: t[i] != BACKSLASH
    ensures WellEscaped(t)
    decreases |t|
  {
    if t != [] { PlainWellEscaped(t[1..]); }
  }

  lemma UnitWellEscaped(c: int)
    requires 0 <= c < 0x10000
    ensures WellEscaped(Escape(c))
  {
    var t := Escape(c);
    if ShortEscape(c) != 0 {
      assert t[2..] == [];
    } else if c < 0x20 {
      assert t[2..] == [48, 48, HexDigit(c / 16), HexDigit(c % 16)];
      PlainWellEscaped(t[2..]);
    } else {
      PlainWellEscaped(t);
    }
  }

  lemma {:induction false} StringWellEscaped(units: Text)
    requires CodeUnits(units)
    ensures WellEscaped(EscapeAll(units))
    decreases |units|
  {
    if units != [] {
      UnitWellEscaped(units[0]);
      StringWellEscaped(units[1..]);
      WellEscapedConcat(Escape(units[0]), EscapeAll(units[1..]));
    }
  }

  lemma QuoteWellEscaped(units: Text)
    requires CodeUnits(units)
    ensures WellEscaped(Quote(units))
  {
    StringWellEscaped(units);
    PlainWellEscaped([QUOTE]);
    WellEscapedConcat([QUOTE], EscapeAll(units));
    WellEscapedConcat([QUOTE] + EscapeAll(units), [QUOTE]);
  }

  lemma Around(a: int, inner: Text, b: int)
    requires WellEscaped(inner) && a != BACKSLASH && b != BACKSLASH
    ensures WellEscaped([a] + inner + [b])
  {
    PlainWellEscaped([a]);
    PlainWellEscaped([b]);
    WellEscapedConcat([a], inner);
    WellEscapedConcat([a] + inner, [b]);
  }

  lemma {:induction false} PrintWellEscaped(v: Value)
    requires Legal(v)
    ensures WellEscaped(Print(v))
    decreases v, 0
  {
    match v {
      case Null => PlainWellEscaped(NULL_TEXT);
      case Bool(_) => PlainWellEscaped(TRUE_TEXT); PlainWellEscaped(FALSE_TEXT);
      case Num(token) =>
        forall i | 0 <= i < |token| ensures token[i] != BACKSLASH { assert NumberUnit(token[i]); }
        PlainWellEscaped(token);
      case Str(units) => QuoteWellEscaped(units);
      case Arr(items) =>
        ItemsWellEscaped(items);
        Around(OPEN_ARRAY, PrintItems(items), CLOSE_ARRAY);
      case Obj(fields) =>
        FieldsWellEscaped(fields);
        Around(OPEN_OBJECT, PrintFields(fields), CLOSE_OBJECT);
    }
  }

  lemma {:induction false} ItemsWellEscaped(items: List<Value>)
    requires LegalItems(items)
    ensures WellEscaped(PrintItems(items))
    decreases items, 1
  {
    if items.Cons? {
      PrintWellEscaped(items.head);
      ItemsWellEscaped(items.tail);
      hide Print;
      hide WellEscaped;
      Then(Print(items.head), [COMMA], PrintItems(items.tail));
      assert Print(items.head) + [] == Print(items.head);
    }
  }

  lemma Then(a: Text, b: Text, c: Text)
    requires WellEscaped(a) && WellEscaped(c) && |b| == 1 && b[0] != BACKSLASH
    ensures WellEscaped(a + (b + c)) && WellEscaped(a + b + c)
  {
    PlainWellEscaped(b);
    WellEscapedConcat(b, c);
    WellEscapedConcat(a, b + c);
    assert a + (b + c) == a + b + c;
  }

  lemma {:induction false} FieldsWellEscaped(fields: List<Field>)
    requires LegalFields(fields)
    ensures WellEscaped(PrintFields(fields))
    decreases fields, 1
  {
    if fields.Cons? {
      var f := fields.head;
      QuoteWellEscaped(f.key);
      PrintWellEscaped(f.value);
      FieldsWellEscaped(fields.tail);
      hide Print;
      hide WellEscaped;
      hide Quote;
      var head := Quote(f.key) + [COLON] + Print(f.value);
      Then(Quote(f.key), [COLON], Print(f.value));
      Then(head, [COMMA], PrintFields(fields.tail));
      assert head + [] == head;
    }
  }

  /** The contained JSON of a value. */
  function Contained(v: Value): Text
    requires Legal(v)
  {
    Contain(CanonicalJson(v))
  }

  /** What is rendered of a value is one line without markers, from which the value comes back. */
  lemma ContainedReadsBack(v: Value)
    requires Legal(v)
    ensures NoMarkers(Contained(v)) && Printable(Contained(v))
    ensures ParseValue(Uncontain(Contained(v))) == Some(Parsed(Canonicalized(v), []))
    ensures MeaningOf(Canonicalized(v)) == MeaningOf(v)
  {
    CanonicalizedKeeps(v);
    PrintPrintable(Canonicalized(v));
    PrintWellEscaped(Canonicalized(v));
    ContainedClean(CanonicalJson(v));
    UncontainContain(CanonicalJson(v));
    RoundTrip(Canonicalized(v), []);
    assert CanonicalJson(v) + [] == CanonicalJson(v);
  }

  /** Containment keeps different values apart. */
  lemma ContainedInjective(v: Value, w: Value)
    requires Legal(v) && Legal(w)
    ensures Contained(v) == Contained(w) <==> MeaningOf(v) == MeaningOf(w)
  {
    ContainedReadsBack(v);
    ContainedReadsBack(w);
    SameJsonIffSameMeaning(v, w);
  }
}
