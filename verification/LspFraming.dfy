/**
 The base protocol framing of the Language Server Protocol 3.17 ("Base Protocol", Header Part): what
 `send` writes, and the decoder that takes the bytes in chunks of any size.
 */
module LspFraming {
  import opened Wrappers

  type Bytes = seq<int>

  const CR := 13
  const LF := 10
  const SEPARATOR: Bytes := [13, 10, 13, 10]

  // ----- what is sent -----

  function Decimal(n: nat): Bytes {
    if n < 10 then [48 + n] else Decimal(n / 10) + [48 + n % 10]
  }

  // "Content-Length:" in small letters.
  const FIELD: Bytes := [99, 111, 110, 116, 101, 110, 116, 45, 108, 101, 110, 103, 116, 104, 58]

  // As it is sent: "Content-Length: ".
  const FIELD_SENT: Bytes := [67, 111, 110, 116, 101, 110, 116, 45, 76, 101, 110, 103, 116, 104, 58, 32]

  function HeaderOf(body: Bytes): Bytes {
    FIELD_SENT + Decimal(|body|)
  }

  function Frame(body: Bytes): Bytes {
    HeaderOf(body) + SEPARATOR + body
  }

  function FrameAll(bodies: seq<Bytes>): Bytes {
    if bodies == [] then [] else Frame(bodies[0]) + FrameAll(bodies[1..])
  }

  // ----- reading a header -----

  /** The ASCII decoding drops the high bit. */
  function Ascii(b: int): int {
    b % 128
  }

  function Lower(c: int): int {
    if 65 <= c <= 90 then c + 32 else c
  }

  predicate IsDigit(c: int) {
    48 <= c <= 57
  }

  predicate IsSpace(c: int) {
    9 <= c <= 13 || c == 32
  }

  predicate FieldHere(h: Bytes, p: nat, k: nat)
    requires k <= |FIELD|
  {
    p + k <= |h| && forall i | 0 <= i < k :: Lower(Ascii(h[p + i])) == FIELD[i]
  }

  function SkipSpaces(h: Bytes, p: nat): (q: nat)
    requires p <= |h|
    ensures p <= q <= |h|
    decreases |h| - p
  {
    if p < |h| && IsSpace(Ascii(h[p])) then SkipSpaces(h, p + 1) else p
  }

  /** The number spelled by the digits from p on, continuing one already read. */
  function ReadDigits(h: Bytes, p: nat, sofar: nat): nat
    requires p <= |h|
    decreases |h| - p
  {
    if p < |h| && IsDigit(Ascii(h[p])) then ReadDigits(h, p + 1, sofar * 10 + (Ascii(h[p]) - 48)) else sofar
  }

  function LengthAt(h: Bytes, p: nat): Option<nat> {
    if !FieldHere(h, p, |FIELD|) then None
    else
      var q := SkipSpaces(h, p + |FIELD|);
      if q < |h| && IsDigit(Ascii(h[q])) then Some(ReadDigits(h, q, 0)) else None
  }

  /** The first line break from p on that is followed by a length field. */
  function LengthAfterBreak(h: Bytes, p: nat): Option<nat>
    decreases |h| - p
  {
    if p + 2 > |h| then None
    else if Ascii(h[p]) == CR && Ascii(h[p + 1]) == LF && LengthAt(h, p + 2).Some? then LengthAt(h, p + 2)
    else LengthAfterBreak(h, p + 1)
  }

  /** The first `Content-Length` at the start of the header or after a line break. */
  function ContentLength(h: Bytes): Option<nat> {
    if LengthAt(h, 0).Some? then LengthAt(h, 0) else LengthAfterBreak(h, 0)
  }

  predicate BlankAt(t: Bytes, i: nat) {
    i + 4 <= |t| && t[i..i + 4] == SEPARATOR
  }

  /** The position of the first blank line from p on. */
  function EndFrom(t: Bytes, p: nat): (e: Option<nat>)
    ensures e.Some? ==> p <= e.value && BlankAt(t, e.value) && forall i | p <= i < e.value :: !BlankAt(t, i)
    ensures e.None? ==> forall i | p <= i :: !BlankAt(t, i)
    decreases |t| - p
  {
    if p + 4 > |t| then None
    else if BlankAt(t, p) then Some(p)
    else EndFrom(t, p + 1)
  }

  function HeaderEnd(t: Bytes): (e: Option<nat>)
    ensures e.Some? ==> e.value + 4 <= |t|
  {
    EndFrom(t, 0)
  }

  lemma HeaderEndIs(t: Bytes, e: nat)
    requires BlankAt(t, e) && forall i | 0 <= i < e :: !BlankAt(t, i)
    ensures HeaderEnd(t) == Some(e)
  {
    var f := EndFrom(t, 0);
    hide EndFrom;
    assert f.Some? && BlankAt(t, f.value);
  }

  // ----- the decoder -----

  datatype Decoder = Decoder(buffer: Bytes, expected: Option<nat>)

  // What one run of the loop has handed out, whether it ended in a throw, and what it left.
  datatype Drained = Drained(decoder: Decoder, bodies: seq<Bytes>, threw: bool)

  predicate Idle(d: Decoder) {
    d == Decoder([], None)
  }

  /** The loop of `accept` on a buffer that has just grown; `good` tells which bodies can be parsed. */
  function Drain(d: Decoder, good: Bytes -> bool): Drained
    decreases |d.buffer|, if d.expected.Some? then 1 else 0
  {
    match d.expected
    case None =>
      var end := HeaderEnd(d.buffer);
      if end.None? then Drained(d, [], false)
      else
        var rest := d.buffer[end.value + 4..];
        var length := ContentLength(d.buffer[..end.value]);
        if length.None? then Drained(Decoder(rest, None), [], true)
        else Drain(Decoder(rest, length), good)
    case Some(n) =>
      if |d.buffer| < n then Drained(d, [], false)
      else
        var body, next := d.buffer[..n], Decoder(d.buffer[n..], None);
        if !good(body) then Drained(next, [], true)
        else
          var r := Drain(next, good);
          Drained(r.decoder, [body] + r.bodies, r.threw)
  }

  function Accept(d: Decoder, chunk: Bytes, good: Bytes -> bool): Drained {
    Drain(d.(buffer := d.buffer + chunk), good)
  }

  // ----- chunking does not matter -----

  lemma HeaderEndStays(t: Bytes, more: Bytes)
    requires HeaderEnd(t).Some?
    ensures HeaderEnd(t + more) == HeaderEnd(t)
  {
    var e := HeaderEnd(t).value;
    forall i | 0 <= i <= e ensures BlankAt(t + more, i) <==> BlankAt(t, i) { assert (t + more)[i..i + 4] == t[i..i + 4]; }
    HeaderEndIs(t + more, e);
  }

  function Then(first: Drained, second: Drained): Drained {
    Drained(second.decoder, first.bodies + second.bodies, second.threw)
  }

  /**
   A run that did not throw can be stopped and continued: more bytes later are as good as more bytes at once. A run
   that threw throws at the same place when there are more bytes, and leaves them in the buffer.
   */
  lemma {:induction false} DrainMore(d: Decoder, more: Bytes, good: Bytes -> bool)
    ensures var a := Drain(d, good);
      (a.threw ==> Drain(d.(buffer := d.buffer + more), good) == a.(decoder := a.decoder.(buffer := a.decoder.buffer + more))) &&
      (!a.threw ==> Drain(d.(buffer := d.buffer + more), good) == Then(a, Accept(a.decoder, more, good)))
    decreases |d.buffer|, if d.expected.Some? then 1 else 0
  {
    var t := d.buffer;
    match d.expected {
      case None =>
        var end := HeaderEnd(t);
        if end.None? {
          assert [] + Accept(d, more, good).bodies == Accept(d, more, good).bodies;
        } else {
          HeaderEndStays(t, more);
          var e := end.value;
          assert (t + more)[..e] == t[..e] && (t + more)[e + 4..] == t[e + 4..] + more;
          if ContentLength(t[..e]).Some? { DrainMore(Decoder(t[e + 4..], ContentLength(t[..e])), more, good); }
        }
      case Some(n) =>
        if |t| < n {
          assert [] + Accept(d, more, good).bodies == Accept(d, more, good).bodies;
        } else {
          assert (t + more)[..n] == t[..n] && (t + more)[n..] == t[n..] + more;
          if good(t[..n]) {
            DrainMore(Decoder(t[n..], None), more, good);
            var r := Drain(Decoder(t[n..], None), good);
            if !r.threw {
              var s := Accept(r.decoder, more, good);
              assert [t[..n]] + (r.bodies + s.bodies) == ([t[..n]] + r.bodies) + s.bodies;
            }
          }
        }
    }
  }

  function Concat(chunks: seq<Bytes>): Bytes {
    if chunks == [] then [] else chunks[0] + Concat(chunks[1..])
  }

  /** Chunks arriving one after the other, as long as none makes the decoder throw. */
  function AcceptAll(d: Decoder, chunks: seq<Bytes>, good: Bytes -> bool): Drained
    decreases |chunks|
  {
    if chunks == [] then Drained(d, [], false)
    else
      var a := Accept(d, chunks[0], good);
      if a.threw then a else Then(a, AcceptAll(a.decoder, chunks[1..], good))
  }

  // A decoder that has nothing to hand out.
  predicate Waiting(d: Decoder, good: Bytes -> bool) {
    Drain(d, good) == Drained(d, [], false)
  }

  lemma {:induction false} DrainWaits(d: Decoder, good: Bytes -> bool)
    ensures !Drain(d, good).threw ==> Waiting(Drain(d, good).decoder, good)
    decreases |d.buffer|, if d.expected.Some? then 1 else 0
  {
    var t := d.buffer;
    match d.expected {
      case None =>
        var end := HeaderEnd(t);
        if end.Some? && ContentLength(t[..end.value]).Some? { DrainWaits(Decoder(t[end.value + 4..], ContentLength(t[..end.value])), good); }
      case Some(n) =>
        if |t| >= n && good(t[..n]) { DrainWaits(Decoder(t[n..], None), good); }
    }
  }

  // Two runs hand out the same; the chunked one may have been stopped by a throw before the last bytes came.
  predicate SameUpToThrow(chunked: Drained, whole: Drained) {
    && chunked.bodies == whole.bodies && chunked.threw == whole.threw
    && chunked.decoder.expected == whole.decoder.expected && chunked.decoder.buffer <= whole.decoder.buffer
    && (!whole.threw ==> chunked == whole)
  }

  /**
   However the bytes are cut into chunks, the same bodies come out in the same order, and the decoder throws in the
   same place if it throws at all. Without a throw the same state is left; after one, only the bytes of the chunks
   that had not come yet are missing from the buffer.
   */
  lemma {:induction false} ChunkingIsInvisible(d: Decoder, chunks: seq<Bytes>, good: Bytes -> bool)
    requires Waiting(d, good)
    ensures SameUpToThrow(AcceptAll(d, chunks, good), Accept(d, Concat(chunks), good))
    decreases |chunks|
  {
    if chunks == [] {
      assert d.buffer + [] == d.buffer;
      assert d.(buffer := d.buffer) == d;
    } else {
      var first, rest := chunks[0], Concat(chunks[1..]);
      var grown := d.(buffer := d.buffer + first);
      assert d.buffer + (first + rest) == grown.buffer + rest;
      DrainMore(grown, rest, good);
      DrainWaits(grown, good);
      var a := Accept(d, first, good);
      if !a.threw { ChunkingIsInvisible(a.decoder, chunks[1..], good); }
    }
  }

  // ----- what was sent is what is handed out -----

  lemma {:induction false} DecimalDigits(n: nat)
    ensures Decimal(n) != [] && forall i | 0 <= i < |Decimal(n)| :: IsDigit(Decimal(n)[i])
    decreases n
  {
    if n >= 10 { DecimalDigits(n / 10); }
  }

  function ValueOf(digits: Bytes): int {
    if digits == [] then 0 else ValueOf(digits[..|digits| - 1]) * 10 + (digits[|digits| - 1] - 48)
  }

  lemma {:induction false} DecimalValue(n: nat)
    ensures ValueOf(Decimal(n)) == n
    decreases n
  {
    var d := Decimal(n);
    if n < 10 {
      assert d[..0] == [];
    } else {
      DecimalValue(n / 10);
      assert d[..|d| - 1] == Decimal(n / 10);
    }
  }

  lemma {:induction false} ReadDigitsOf(front: Bytes, digits: Bytes, k: nat, sofar: nat)
    requires (forall i | 0 <= i < |digits| :: IsDigit(digits[i])) && k <= |digits| && sofar == ValueOf(digits[..k])
    ensures ReadDigits(front + digits, |front| + k, sofar) == ValueOf(digits)
    decreases |digits| - k
  {
    var h := front + digits;
    if k == |digits| {
      assert digits[..k] == digits;
    } else {
      assert h[|front| + k] == digits[k] && Ascii(digits[k]) == digits[k];
      assert digits[..k + 1][..k] == digits[..k];
      assert ValueOf(digits[..k + 1]) == sofar * 10 + (digits[k] - 48);
      ReadDigitsOf(front, digits, k + 1, ValueOf(digits[..k + 1]));
    }
  }

  lemma SentFieldMatches(digits: Bytes)
    ensures FieldHere(FIELD_SENT + digits, 0, |FIELD|)
  {
    var h := FIELD_SENT + digits;
    forall i | 0 <= i < |FIELD| ensures Lower(Ascii(h[i])) == FIELD[i] { assert h[i] == FIELD_SENT[i]; }
  }

  lemma HeaderReadsBack(body: Bytes)
    ensures ContentLength(HeaderOf(body)) == Some(|body|)
  {
    var digits := Decimal(|body|);
    var h := FIELD_SENT + digits;
    DecimalDigits(|body|);
    DecimalValue(|body|);
    SentFieldMatches(digits);
    assert h[|FIELD|] == 32 && h[|FIELD_SENT|] == digits[0] && Ascii(digits[0]) == digits[0];
    assert SkipSpaces(h, |FIELD_SENT|) == |FIELD_SENT|;
    assert SkipSpaces(h, |FIELD|) == |FIELD_SENT|;
    ReadDigitsOf(FIELD_SENT, digits, 0, 0);
    assert digits[..0] == [];
  }

  lemma HeaderHasNoBreak(body: Bytes)
    ensures forall i | 0 <= i < |HeaderOf(body)| :: HeaderOf(body)[i] != CR
  {
    DecimalDigits(|body|);
    var h := HeaderOf(body);
    forall i | 0 <= i < |h| ensures h[i] != CR {
      if i < |FIELD_SENT| { assert h[i] == FIELD_SENT[i]; } else { assert h[i] == Decimal(|body|)[i - |FIELD_SENT|]; }
    }
  }

  lemma EndOfHeader(header: Bytes, rest: Bytes)
    requires forall i | 0 <= i < |header| :: header[i] != CR
    ensures HeaderEnd(header + SEPARATOR + rest) == Some(|header|)
  {
    var t := header + SEPARATOR + rest;
    assert t[|header|..|header| + 4] == SEPARATOR;
    forall i | 0 <= i < |header| ensures !BlankAt(t, i) {
      assert t[i] == header[i];
      if i + 4 <= |t| { assert t[i..i + 4][0] == t[i]; }
    }
    HeaderEndIs(t, |header|);
  }

  /** One framed body at the front of the buffer is handed out whole, whatever its length. */
  lemma DrainFrame(body: Bytes, rest: Bytes, good: Bytes -> bool)
    requires good(body)
    ensures var r := Drain(Decoder(rest, None), good);
      Drain(Decoder(Frame(body) + rest, None), good) == Drained(r.decoder, [body] + r.bodies, r.threw)
  {
    var header := HeaderOf(body);
    var t := Frame(body) + rest;
    assert t == header + SEPARATOR + (body + rest);
    HeaderHasNoBreak(body);
    EndOfHeader(header, body + rest);
    HeaderReadsBack(body);
    hide HeaderOf;
    hide HeaderEnd;
    hide ContentLength;
    assert t[..|header|] == header && t[|header| + 4..] == body + rest;
    assert (body + rest)[..|body|] == body && (body + rest)[|body|..] == rest;
    assert Drain(Decoder(body + rest, Some(|body|)), good) ==
      (var r := Drain(Decoder(rest, None), good); Drained(r.decoder, [body] + r.bodies, r.threw));
  }

  lemma {:induction false} DrainFrames(bodies: seq<Bytes>, good: Bytes -> bool)
    requires forall b | b in bodies :: good(b)
    ensures Drain(Decoder(FrameAll(bodies), None), good) == Drained(Decoder([], None), bodies, false)
    decreases |bodies|
  {
    if bodies == [] {
      assert HeaderEnd([]).None?;
    } else {
      DrainFrames(bodies[1..], good);
      DrainFrame(bodies[0], FrameAll(bodies[1..]), good);
      assert [bodies[0]] + bodies[1..] == bodies;
    }
  }

  /**
   For any messages framed by `send` and any way their bytes are cut into chunks, exactly those bodies
   are handed out, in order, and the buffer ends empty; bodies of length zero included.
   */
  lemma FramesSurviveChunking(bodies: seq<Bytes>, chunks: seq<Bytes>, good: Bytes -> bool)
    requires (forall b | b in bodies :: good(b)) && Concat(chunks) == FrameAll(bodies)
    ensures AcceptAll(Decoder([], None), chunks, good) == Drained(Decoder([], None), bodies, false)
  {
    var d := Decoder([], None);
    assert HeaderEnd([]).None?;
    assert [] + Concat(chunks) == FrameAll(bodies);
    DrainFrames(bodies, good);
    ChunkingIsInvisible(d, chunks, good);
  }
}
