/**
 JSON values and their text as sequences of UTF-16 code units (section 7 of RFC 8259 for strings):
 a printer that keeps the order of the fields, and a parser that inverts it.
 */
module JsonText {
  import opened Wrappers

  type Text = seq<int>

  datatype List<T> = Nil | Cons(head: T, tail: List<T>)

  // A number is the text that the engine prints for it; `Illegal` stands for undefined, functions, symbols,
  // bigints, NaN and the infinities.
  datatype Value =
    | Null
    | Bool(b: bool)
    | Num(token: Text)
    | Str(units: Text)
    | Arr(items: List<Value>)
    | Obj(fields: List<Field>)
    | Illegal

  datatype Field = Field(key: Text, value: Value)

  const QUOTE := 34
  const BACKSLASH := 92
  const COMMA := 44
  const COLON := 58
  const OPEN_ARRAY := 91
  const CLOSE_ARRAY := 93
  const OPEN_OBJECT := 123
  const CLOSE_OBJECT := 125

  // ----- numbers -----

  predicate Digit(c: int) {
    48 <= c <= 57
  }

  /** The characters of a JSON number: digits and - + . e. */
  predicate NumberUnit(c: int) {
    Digit(c) || c == 45 || c == 43 || c == 46 || c == 101
  }

  predicate NumberToken(t: Text) {
    t != [] && (Digit(t[0]) || t[0] == 45) && forall i | 0 <= i < |t| :: NumberUnit(t[i])
  }

  predicate CodeUnits(t: Text) {
    forall i | 0 <= i < |t| :: 0 <= t[i] < 0x10000
  }

  // ----- which values are JSON -----

  predicate HasKey(fields: List<Field>, key: Text) {
    fields.Cons? && (fields.head.key == key || HasKey(fields.tail, key))
  }

  predicate Legal(v: Value) {
    match v
    case Num(token) => NumberToken(token)
    case Str(units) => CodeUnits(units)
    case Arr(items) => LegalItems(items)
    case Obj(fields) => LegalFields(fields)
    case Illegal => false
    case _ => true
  }

  predicate LegalItems(items: List<Value>) {
    items.Cons? ==> Legal(items.head) && LegalItems(items.tail)
  }

  // No object has the same key twice.
  predicate LegalFields(fields: List<Field>) {
    fields.Cons? ==>
      CodeUnits(fields.head.key) && Legal(fields.head.value) && !HasKey(fields.tail, fields.head.key) && LegalFields(fields.tail)
  }

  // ----- strings -----

  function HexDigit(n: int): int
    requires 0 <= n < 16
  {
    if n < 10 then 48 + n else 87 + n
  }

  /** The letter after the backslash of a short escape; 0 when there is none. */
  function ShortEscape(c: int): int {
    if c == QUOTE then QUOTE
    else if c == BACKSLASH then BACKSLASH
    else if c == 8 then 98
    else if c == 12 then 102
    else if c == 10 then 110
    else if c == 13 then 114
    else if c == 9 then 116
    else 0
  }

  /** One code unit inside quotes. */
  function Escape(c: int): Text
    requires 0 <= c < 0x10000
  {
    if ShortEscape(c) != 0 then [BACKSLASH, ShortEscape(c)]
    else if c < 0x20 then [BACKSLASH, 117, 48, 48, HexDigit(c / 16), HexDigit(c % 16)]
    else [c]
  }

  function EscapeAll(units: Text): Text
    requires CodeUnits(units)
  {
    if units == [] then [] else Escape(units[0]) + EscapeAll(units[1..])
  }

  function Quote(units: Text): Text
    requires CodeUnits(units)
  {
    [QUOTE] + EscapeAll(units) + [QUOTE]
  }

  function HexValue(c: int): Option<int> {
    if Digit(c) then Some(c - 48)
    else if 97 <= c <= 102 then Some(c - 87)
    else if 65 <= c <= 70 then Some(c - 55)
    else None
  }

  function ShortValue(c: int): Option<int> {
    if c == QUOTE || c == BACKSLASH || c == 47 then Some(c)
    else if c == 98 then Some(8)
    else if c == 102 then Some(12)
    else if c == 110 then Some(10)
    else if c == 114 then Some(13)
    else if c == 116 then Some(9)
    else None
  }

  /** One possibly escaped code unit at the front of a text, and how long it is. */
  function ParseUnit(t: Text): (r: Option<(int, nat)>)
    ensures r.Some? ==> 0 < r.value.1 <= |t|
  {
    if t == [] || t[0] < 0x20 || t[0] == QUOTE then None
    else if t[0] != BACKSLASH then Some((t[0], 1))
    else if |t| < 2 then None
    else if t[1] == 117 then
      if |t| < 6 then None
      else
        var a, b, c, d := HexValue(t[2]), HexValue(t[3]), HexValue(t[4]), HexValue(t[5]);
        if a.None? || b.None? || c.None? || d.None? then None
        else Some((((a.value * 16 + b.value) * 16 + c.value) * 16 + d.value, 6))
    else if ShortValue(t[1]).Some? then Some((ShortValue(t[1]).value, 2))
    else None
  }

  datatype Parsed<T> = Parsed(value: T, rest: Text)

  /** The rest of a string after its opening quote, up to its closing quote. */
  function ParseString(t: Text): (r: Option<Parsed<Text>>)
    ensures r.Some? ==> |r.value.rest| < |t|
    decreases |t|
  {
    if t == [] then None
    else if t[0] == QUOTE then Some(Parsed([], t[1..]))
    else
      var u := ParseUnit(t);
      if u.None? then None
      else
        var r := ParseString(t[u.value.1..]);
        if r.None? then None else Some(Parsed([u.value.0] + r.value.value, r.value.rest))
  }

  lemma UnitRoundTrip(c: int, rest: Text)
    requires 0 <= c < 0x10000
    ensures ParseUnit(Escape(c) + rest) == Some((c, |Escape(c)|))
    ensures Escape(c)[0] != QUOTE
  {
    var t := Escape(c) + rest;
    if ShortEscape(c) != 0 {
      assert t[0] == BACKSLASH && t[1] == ShortEscape(c);
    } else if c < 0x20 {
      assert t[0] == BACKSLASH && t[1] == 117 && t[2] == 48 && t[3] == 48;
      assert t[4] == HexDigit(c / 16) && t[5] == HexDigit(c % 16);
    } else {
      assert t[0] == c;
    }
  }

  lemma {:induction false} StringRoundTrip(units: Text, rest: Text)
    requires CodeUnits(units)
    ensures ParseString(EscapeAll(units) + [QUOTE] + rest) == Some(Parsed(units, rest))
    decreases |units|
  {
    var t := EscapeAll(units) + [QUOTE] + rest;
    if units == [] {
      assert t == [QUOTE] + rest;
    } else {
      var tail := EscapeAll(units[1..]) + [QUOTE] + rest;
      assert t == Escape(units[0]) + tail;
      UnitRoundTrip(units[0], tail);
      StringRoundTrip(units[1..], rest);
      assert t[|Escape(units[0])|..] == tail;
      assert [units[0]] + units[1..] == units;
    }
  }

  // ----- the printer -----

  const NULL_TEXT: Text := [110, 117, 108, 108]
  const TRUE_TEXT: Text := [116, 114, 117, 101]
  const FALSE_TEXT: Text := [102, 97, 108, 115, 101]

  /** Print a value, each object's fields in the order given. */
  function Print(v: Value): (r: Text)
    requires Legal(v)
    ensures r != []
  {
    match v
    case Null => NULL_TEXT
    case Bool(b) => if b then TRUE_TEXT else FALSE_TEXT
    case Num(token) => token
    case Str(units) => Quote(units)
    case Arr(items) => [OPEN_ARRAY] + PrintItems(items) + [CLOSE_ARRAY]
    case Obj(fields) => [OPEN_OBJECT] + PrintFields(fields) + [CLOSE_OBJECT]
  }

  function PrintItems(items: List<Value>): Text
    requires LegalItems(items)
  {
    match items
    case Nil => []
    case Cons(v, rest) => Print(v) + (if rest.Nil? then [] else [COMMA] + PrintItems(rest))
  }

  function PrintFields(fields: List<Field>): Text
    requires LegalFields(fields)
  {
    match fields
    case Nil => []
    case Cons(f, rest) => Quote(f.key) + [COLON] + Print(f.value) + (if rest.Nil? then [] else [COMMA] + PrintFields(rest))
  }

  // ----- the parser -----

  /** The longest stretch of number characters. */
  function NumberPrefix(t: Text): (n: nat)
    ensures n <= |t|
  {
    if t == [] || !NumberUnit(t[0]) then 0 else 1 + NumberPrefix(t[1..])
  }

  function Expect(t: Text, word: Text, v: Value): (r: Option<Parsed<Value>>)
    requires word != []
    ensures r.Some? ==> |r.value.rest| < |t|
  {
    if word <= t then Some(Parsed(v, t[|word|..])) else None
  }

  function ParseValue(t: Text): (r: Option<Parsed<Value>>)
    ensures r.Some? ==> |r.value.rest| < |t|
    decreases |t|, 0
  {
    if t == [] then None
    else if t[0] == 110 then Expect(t, NULL_TEXT, Null)
    else if t[0] == 116 then Expect(t, TRUE_TEXT, Bool(true))
    else if t[0] == 102 then Expect(t, FALSE_TEXT, Bool(false))
    else if t[0] == QUOTE then
      var r := ParseString(t[1..]);
      if r.None? then None else Some(Parsed(Str(r.value.value), r.value.rest))
    else if t[0] == OPEN_ARRAY then
      if |t| > 1 && t[1] == CLOSE_ARRAY then Some(Parsed(Arr(Nil), t[2..]))
      else
        var r := ParseItems(t[1..]);
        if r.None? then None else Some(Parsed(Arr(r.value.value), r.value.rest))
    else if t[0] == OPEN_OBJECT then
      if |t| > 1 && t[1] == CLOSE_OBJECT then Some(Parsed(Obj(Nil), t[2..]))
      else
        var r := ParseFields(t[1..]);
        if r.None? then None else Some(Parsed(Obj(r.value.value), r.value.rest))
    else
      var n := NumberPrefix(t);
      if n == 0 then None else Some(Parsed(Num(t[..n]), t[n..]))
  }

  /** The items of an array after its opening bracket, up to its closing one. */
  function ParseItems(t: Text): (r: Option<Parsed<List<Value>>>)
    ensures r.Some? ==> |r.value.rest| < |t|
    decreases |t|, 1
  {
    var v := ParseValue(t);
    if v.None? || v.value.rest == [] then None
    else if v.value.rest[0] == CLOSE_ARRAY then Some(Parsed(Cons(v.value.value, Nil), v.value.rest[1..]))
    else if v.value.rest[0] != COMMA then None
    else
      var r := ParseItems(v.value.rest[1..]);
      if r.None? then None else Some(Parsed(Cons(v.value.value, r.value.value), r.value.rest))
  }

  /** The fields of an object after its opening brace, up to its closing one. */
  function ParseFields(t: Text): (r: Option<Parsed<List<Field>>>)
    ensures r.Some? ==> |r.value.rest| < |t|
    decreases |t|, 1
  {
    if t == [] || t[0] != QUOTE then None
    else
      var k := ParseString(t[1..]);
      if k.None? || k.value.rest == [] || k.value.rest[0] != COLON then None
      else
        var v := ParseValue(k.value.rest[1..]);
        if v.None? || v.value.rest == [] then None
        else
          var f := Field(k.value.value, v.value.value);
          if v.value.rest[0] == CLOSE_OBJECT then Some(Parsed(Cons(f, Nil), v.value.rest[1..]))
          else if v.value.rest[0] != COMMA then None
          else
            var r := ParseFields(v.value.rest[1..]);
            if r.None? then None else Some(Parsed(Cons(f, r.value.value), r.value.rest))
  }

  // ----- the parser inverts the printer -----

  /** What may follow a printed value: nothing, or something that cannot go on a number. */
  predicate Delimited(rest: Text) {
    rest == [] || !NumberUnit(rest[0])
  }

  lemma {:induction false} NumberPrefixOf(token: Text, rest: Text)
    requires (forall i | 0 <= i < |token| :: NumberUnit(token[i])) && Delimited(rest)
    ensures NumberPrefix(token + rest) == |token|
    decreases |token|
  {
    if token == [] {
      assert token + rest == rest;
    } else {
      assert (token + rest)[1..] == token[1..] + rest;
      NumberPrefixOf(token[1..], rest);
    }
  }

  lemma TailOf(c: int, a: Text, b: Text, d: Text)
    ensures var t := [c] + a + b + d; t[0] == c && t[1..] == a + b + d
  {
  }

  lemma ParsesWord(v: Value, rest: Text)
    requires v.Null? || v.Bool?
    ensures ParseValue(Print(v) + rest) == Some(Parsed(v, rest))
  {
    var t := Print(v) + rest;
    assert t[0] == Print(v)[0] && Print(v) <= t && t[|Print(v)|..] == rest;
  }

  lemma ParsesNumber(token: Text, rest: Text)
    requires NumberToken(token) && Delimited(rest)
    ensures ParseValue(token + rest) == Some(Parsed(Num(token), rest))
  {
    var t := token + rest;
    NumberPrefixOf(token, rest);
    assert t[0] == token[0] && t[..|token|] == token && t[|token|..] == rest;
  }

  lemma ParsesString(units: Text, rest: Text)
    requires CodeUnits(units)
    ensures ParseValue(Quote(units) + rest) == Some(Parsed(Str(units), rest))
  {
    StringRoundTrip(units, rest);
    hide ParseString;
    hide ParseItems;
    hide ParseFields;
    hide EscapeAll;
    hide NumberPrefix;
    TailOf(QUOTE, EscapeAll(units), [QUOTE], rest);
  }

  lemma ParsesArray(items: List<Value>, inner: Text, rest: Text)
    requires if items.Nil? then inner == []
             else inner != [] && inner[0] != CLOSE_ARRAY && ParseItems(inner + [CLOSE_ARRAY] + rest) == Some(Parsed(items, rest))
    ensures ParseValue([OPEN_ARRAY] + inner + [CLOSE_ARRAY] + rest) == Some(Parsed(Arr(items), rest))
  {
    var t := [OPEN_ARRAY] + inner + [CLOSE_ARRAY] + rest;
    hide ParseItems;
    hide ParseFields;
    hide ParseString;
    hide NumberPrefix;
    TailOf(OPEN_ARRAY, inner, [CLOSE_ARRAY], rest);
    assert t[1] == if inner == [] then CLOSE_ARRAY else inner[0];
    if inner == [] { assert t[2..] == rest; }
  }

  lemma ParsesObject(fields: List<Field>, inner: Text, rest: Text)
    requires if fields.Nil? then inner == []
             else inner != [] && inner[0] == QUOTE && ParseFields(inner + [CLOSE_OBJECT] + rest) == Some(Parsed(fields, rest))
    ensures ParseValue([OPEN_OBJECT] + inner + [CLOSE_OBJECT] + rest) == Some(Parsed(Obj(fields), rest))
  {
    var t := [OPEN_OBJECT] + inner + [CLOSE_OBJECT] + rest;
    hide ParseFields;
    hide ParseItems;
    hide ParseString;
    hide NumberPrefix;
    TailOf(OPEN_OBJECT, inner, [CLOSE_OBJECT], rest);
    assert t[1] == if inner == [] then CLOSE_OBJECT else inner[0];
    if inner == [] { assert t[2..] == rest; }
  }

  /** The parser recovers a printed value, and leaves what follows it. */
  lemma {:induction false} RoundTrip(v: Value, rest: Text)
    requires Legal(v) && Delimited(rest)
    ensures ParseValue(Print(v) + rest) == Some(Parsed(v, rest))
    decreases v, 0
  {
    match v {
      case Null => ParsesWord(v, rest);
      case Bool(_) => ParsesWord(v, rest);
      case Num(token) => ParsesNumber(token, rest);
      case Str(units) => ParsesString(units, rest);
      case Arr(items) =>
        if items.Cons? {
          ItemsRoundTrip(items, rest);
          PrintStarts(items.head);
        }
        ParsesArray(items, PrintItems(items), rest);
      case Obj(fields) =>
        if fields.Cons? { FieldsRoundTrip(fields, rest); }
        ParsesObject(fields, PrintFields(fields), rest);
    }
  }

  // No printed value begins like the end of something.
  lemma PrintStarts(v: Value)
    requires Legal(v)
    ensures Print(v)[0] != CLOSE_ARRAY && Print(v)[0] != CLOSE_OBJECT && Print(v)[0] != COMMA
  {
  }

  lemma {:induction false} ItemsRoundTrip(items: List<Value>, rest: Text)
    requires LegalItems(items) && items.Cons?
    ensures ParseItems(PrintItems(items) + [CLOSE_ARRAY] + rest) == Some(Parsed(items, rest))
    decreases items, 1
  {
    var more := if items.tail.Nil? then [CLOSE_ARRAY] + rest else [COMMA] + (PrintItems(items.tail) + [CLOSE_ARRAY] + rest);
    assert PrintItems(items) + [CLOSE_ARRAY] + rest == Print(items.head) + more;
    RoundTrip(items.head, more);
    if items.tail.Cons? { ItemsRoundTrip(items.tail, rest); }
    hide Print;
    hide ParseValue;
    hide PrintItems;
    assert more[1..] == if items.tail.Nil? then rest else PrintItems(items.tail) + [CLOSE_ARRAY] + rest;
  }

  lemma ParsesKey(key: Text, more: Text)
    requires CodeUnits(key)
    ensures var t := Quote(key) + more; t[0] == QUOTE && ParseString(t[1..]) == Some(Parsed(key, more))
  {
    StringRoundTrip(key, more);
    hide ParseString;
    hide EscapeAll;
    TailOf(QUOTE, EscapeAll(key), [QUOTE], more);
  }

  lemma {:induction false} FieldsRoundTrip(fields: List<Field>, rest: Text)
    requires LegalFields(fields) && fields.Cons?
    ensures ParseFields(PrintFields(fields) + [CLOSE_OBJECT] + rest) == Some(Parsed(fields, rest))
    decreases fields, 1
  {
    var f := fields.head;
    var more := if fields.tail.Nil? then [CLOSE_OBJECT] + rest else [COMMA] + (PrintFields(fields.tail) + [CLOSE_OBJECT] + rest);
    RoundTrip(f.value, more);
    ParsesKey(f.key, [COLON] + (Print(f.value) + more));
    if fields.tail.Cons? { FieldsRoundTrip(fields.tail, rest); }
    FieldsText(fields, rest);
    hide PrintFields;
    hide Print;
    hide ParseValue;
    hide ParseString;
    hide Quote;
    assert ([COLON] + (Print(f.value) + more))[1..] == Print(f.value) + more;
    assert more[1..] == if fields.tail.Nil? then rest else PrintFields(fields.tail) + [CLOSE_OBJECT] + rest;
  }

  lemma FieldsText(fields: List<Field>, rest: Text)
    requires LegalFields(fields) && fields.Cons?
    ensures PrintFields(fields) + [CLOSE_OBJECT] + rest ==
      Quote(fields.head.key) + ([COLON] + (Print(fields.head.value) +
        (if fields.tail.Nil? then [CLOSE_OBJECT] + rest else [COMMA] + (PrintFields(fields.tail) + [CLOSE_OBJECT] + rest))))
  {
    hide Quote;
    hide Print;
  }

  /** Printed values end by themselves: what follows a delimiter cannot make one printed value look like another. */
  lemma PrintIsPrefixFree(v: Value, w: Value, x: Text, y: Text)
    requires Legal(v) && Legal(w) && Delimited(x) && Delimited(y)
    ensures Print(v) + x == Print(w) + y ==> v == w && x == y
  {
    if Print(v) + x == Print(w) + y {
      RoundTrip(v, x);
      RoundTrip(w, y);
    }
  }

  // ----- no control characters -----

  predicate Printable(t: Text) {
    forall i | 0 <= i < |t| :: 0x20 <= t[i] < 0x10000
  }

  lemma {:induction false} EscapePrintable(units: Text)
    requires CodeUnits(units)
    ensures Printable(EscapeAll(units))
    decreases |units|
  {
    if units != [] { EscapePrintable(units[1..]); }
  }

  /** A printed value holds no control character, so it never spans a line. */
  lemma {:induction false} PrintPrintable(v: Value)
    requires Legal(v)
    ensures Printable(Print(v))
    decreases v, 0
  {
    match v {
      case Null => assert Printable(NULL_TEXT);
      case Bool(_) => assert Printable(TRUE_TEXT) && Printable(FALSE_TEXT);
      case Num(token) => assert forall i | 0 <= i < |token| :: NumberUnit(token[i]);
      case Str(units) => EscapePrintable(units);
      case Arr(items) =>
        ItemsPrintable(items);
        Bracketed(OPEN_ARRAY, PrintItems(items), CLOSE_ARRAY);
      case Obj(fields) =>
        FieldsPrintable(fields);
        Bracketed(OPEN_OBJECT, PrintFields(fields), CLOSE_OBJECT);
    }
  }

  lemma Bracketed(a: int, inner: Text, b: int)
    requires Printable(inner) && Printable([a, b])
    ensures Printable([a] + inner + [b])
  {
    assert [a, b][0] == a && [a, b][1] == b;
  }

  lemma {:induction false} ItemsPrintable(items: List<Value>)
    requires LegalItems(items)
    ensures Printable(PrintItems(items))
    decreases items, 1
  {
    if items.Cons? {
      PrintPrintable(items.head);
      ItemsPrintable(items.tail);
    }
  }

  lemma {:induction false} FieldsPrintable(fields: List<Field>)
    requires LegalFields(fields)
    ensures Printable(PrintFields(fields))
    decreases fields, 1
  {
    if fields.Cons? {
      EscapePrintable(fields.head.key);
      PrintPrintable(fields.head.value);
      FieldsPrintable(fields.tail);
    }
  }
}
