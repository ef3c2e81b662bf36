/**
 The append-only event log: appending a batch one draft at a time, with every draft
 deduplicated on its event id and, independently, on its idempotency key.
 */
module EventLog {
  import opened Wrappers

  // `Minted` ids stand for fresh UUIDs: one per admitted work and position in its batch.
  datatype EventId = Minted(work: nat, index: nat) | Given(name: string)

  // `safe` tells whether the payload is canonical JSON.
  datatype Draft<+T> = Draft(id: EventId, key: Option<string>, safe: bool, body: T)

  datatype Row<+T> = Row(draft: Draft<T>, sequence: nat)

  datatype Log<+T> = Log(rows: seq<Row<T>>, byId: map<EventId, Row<T>>, byKey: map<string, Row<T>>)

  function Empty<T>(): Log<T> {
    Log([], map[], map[])
  }

  /** The row that makes appending `d` a no-op, if there is one. */
  function Existing<T>(log: Log<T>, d: Draft<T>): Option<Row<T>> {
    if d.id in log.byId then Some(log.byId[d.id])
    else if d.key.Some? && d.key.value in log.byKey then Some(log.byKey[d.key.value])
    else None
  }

  function Push<T>(log: Log<T>, d: Draft<T>, sequence: nat): Log<T> {
    var row := Row(d, sequence);
    Log(log.rows + [row], log.byId[d.id := row], if d.key.Some? then log.byKey[d.key.value := row] else log.byKey)
  }

  datatype Appended<T> = Appended(log: Log<T>, out: Option<seq<Row<T>>>)

  /** An append that nobody interrupts; it throws at the first unsafe payload and keeps what it has written. */
  function AppendRest<T>(log: Log<T>, drafts: seq<Draft<T>>, out: seq<Row<T>>): Appended<T>
    decreases |drafts|
  {
    if drafts == [] then Appended(log, Some(out))
    else
      var d := drafts[0];
      if !d.safe then Appended(log, None)
      else if Existing(log, d).Some? then AppendRest(log, drafts[1..], out + [Existing(log, d).value])
      else
        var row := Row(d, |log.rows| + 1);
        AppendRest(Push(log, d, |log.rows| + 1), drafts[1..], out + [row])
  }

  function AppendAll<T>(log: Log<T>, drafts: seq<Draft<T>>): Appended<T> {
    AppendRest(log, drafts, [])
  }

  // ----- the log and its indexes -----

  ghost predicate IsRow<T>(log: Log<T>, row: Row<T>) {
    1 <= row.sequence <= |log.rows| && log.rows[row.sequence - 1] == row
  }

  ghost predicate RowOk<T>(log: Log<T>, i: nat)
    requires i < |log.rows|
  {
    var row := log.rows[i];
    && row.sequence == i + 1
    && row.draft.id in log.byId && log.byId[row.draft.id] == row
    && (row.draft.key.Some? ==> row.draft.key.value in log.byKey && log.byKey[row.draft.key.value] == row)
  }

  ghost predicate WellFormed<T>(log: Log<T>) {
    && (forall i | 0 <= i < |log.rows| :: RowOk(log, i))
    && (forall id | id in log.byId :: log.byId[id].draft.id == id && IsRow(log, log.byId[id]))
    && (forall k | k in log.byKey :: log.byKey[k].draft.key == Some(k) && IsRow(log, log.byKey[k]))
  }

  ghost predicate Extends<T>(log: Log<T>, later: Log<T>) {
    && |log.rows| <= |later.rows| && later.rows[..|log.rows|] == log.rows
    && (forall id | id in log.byId :: id in later.byId && later.byId[id] == log.byId[id])
    && (forall k | k in log.byKey :: k in later.byKey && later.byKey[k] == log.byKey[k])
  }

  lemma PushRows<T>(log: Log<T>, d: Draft<T>, i: nat)
    requires WellFormed(log) && Existing(log, d).None? && i <= |log.rows|
    ensures RowOk(Push(log, d, |log.rows| + 1), i)
  {
    if i < |log.rows| { assert RowOk(log, i); }
  }

  lemma PushIndexes<T>(log: Log<T>, d: Draft<T>)
    requires WellFormed(log) && Existing(log, d).None?
    ensures var next := Push(log, d, |log.rows| + 1);
      && (forall id | id in next.byId :: next.byId[id].draft.id == id && IsRow(next, next.byId[id]))
      && (forall k | k in next.byKey :: next.byKey[k].draft.key == Some(k) && IsRow(next, next.byKey[k]))
  {
    hide RowOk;
    var next := Push(log, d, |log.rows| + 1);
    forall id | id in next.byId ensures next.byId[id].draft.id == id && IsRow(next, next.byId[id]) {
      if id != d.id { assert IsRow(log, log.byId[id]); }
    }
    forall k | k in next.byKey ensures next.byKey[k].draft.key == Some(k) && IsRow(next, next.byKey[k]) {
      if d.key != Some(k) { assert IsRow(log, log.byKey[k]); }
    }
  }

  lemma PushKeeps<T>(log: Log<T>, d: Draft<T>)
    requires WellFormed(log) && Existing(log, d).None?
    ensures WellFormed(Push(log, d, |log.rows| + 1)) && Extends(log, Push(log, d, |log.rows| + 1))
  {
    hide RowOk;
    hide IsRow;
    var next := Push(log, d, |log.rows| + 1);
    forall i | 0 <= i < |next.rows| ensures RowOk(next, i) { PushRows(log, d, i); }
    PushIndexes(log, d);
    assert next.rows[..|log.rows|] == log.rows;
  }

  /** The log only grows, row i keeps sequence i+1 and both indexes agree with the rows. */
  lemma {:induction false} AppendKeeps<T>(log: Log<T>, drafts: seq<Draft<T>>, out: seq<Row<T>>)
    requires WellFormed(log)
    ensures WellFormed(AppendRest(log, drafts, out).log) && Extends(log, AppendRest(log, drafts, out).log)
    decreases |drafts|
  {
    if drafts != [] && drafts[0].safe {
      var d := drafts[0];
      if Existing(log, d).Some? {
        AppendKeeps(log, drafts[1..], out + [Existing(log, d).value]);
      } else {
        PushKeeps(log, d);
        var next := Push(log, d, |log.rows| + 1);
        AppendKeeps(next, drafts[1..], out + [Row(d, |log.rows| + 1)]);
      }
    }
  }

  lemma {:induction false} OutPrefix<T>(log: Log<T>, drafts: seq<Draft<T>>, out: seq<Row<T>>)
    ensures AppendRest(log, drafts, out).log == AppendAll(log, drafts).log
    ensures AppendRest(log, drafts, out).out ==
      if AppendAll(log, drafts).out.Some? then Some(out + AppendAll(log, drafts).out.value) else None
    decreases |drafts|
  {
    if drafts == [] {
      assert out + [] == out;
    } else if drafts[0].safe {
      var d := drafts[0];
      var row := if Existing(log, d).Some? then Existing(log, d).value else Row(d, |log.rows| + 1);
      var next := if Existing(log, d).Some? then log else Push(log, d, |log.rows| + 1);
      OutPrefix(next, drafts[1..], out + [row]);
      OutPrefix(next, drafts[1..], [] + [row]);
      if AppendAll(next, drafts[1..]).out.Some? {
        assert out + ([row] + AppendAll(next, drafts[1..]).out.value) == (out + [row]) + AppendAll(next, drafts[1..]).out.value;
        assert [] + [row] == [row];
      }
    }
  }

  lemma RowBelow<T>(log: Log<T>, d: Draft<T>)
    requires WellFormed(log)
    ensures Existing(log, d).Some? ==> IsRow(log, Existing(log, d).value)
  {
  }

  function Taken<T>(log: Log<T>, d: Draft<T>): Row<T> {
    if Existing(log, d).Some? then Existing(log, d).value else Row(d, |log.rows| + 1)
  }

  function After<T>(log: Log<T>, d: Draft<T>): Log<T> {
    if Existing(log, d).Some? then log else Push(log, d, |log.rows| + 1)
  }

  // An append is its first draft followed by an append of the others.
  lemma AppendFirst<T>(log: Log<T>, drafts: seq<Draft<T>>)
    requires drafts != [] && drafts[0].safe
    ensures var rest := AppendAll(After(log, drafts[0]), drafts[1..]);
      AppendAll(log, drafts) ==
        Appended(rest.log, if rest.out.Some? then Some([Taken(log, drafts[0])] + rest.out.value) else None)
  {
    OutPrefix(After(log, drafts[0]), drafts[1..], [] + [Taken(log, drafts[0])]);
    assert [] + [Taken(log, drafts[0])] == [Taken(log, drafts[0])];
  }

  lemma AfterKeeps<T>(log: Log<T>, d: Draft<T>)
    requires WellFormed(log)
    ensures WellFormed(After(log, d)) && Extends(log, After(log, d)) && Existing(After(log, d), d).Some?
  {
    if Existing(log, d).None? { PushKeeps(log, d); }
  }

  // An append that throws leaves what it would have left had it ended before the unsafe payload.
  lemma {:induction false} UnsafeStops<T>(log: Log<T>, drafts: seq<Draft<T>>, c: nat)
    requires c < |drafts| && !drafts[c].safe && forall i | 0 <= i < c :: drafts[i].safe
    ensures AppendAll(log, drafts) == Appended(AppendAll(log, drafts[..c]).log, None)
    decreases c
  {
    if c > 0 {
      AppendFirst(log, drafts);
      AppendFirst(log, drafts[..c]);
      assert drafts[..c][1..] == drafts[1..][..c - 1];
      UnsafeStops(After(log, drafts[0]), drafts[1..], c - 1);
    }
  }

  // ----- appending again -----

  lemma {:induction false} AllExisting<T>(log: Log<T>, drafts: seq<Draft<T>>)
    requires forall i | 0 <= i < |drafts| :: drafts[i].safe && Existing(log, drafts[i]).Some?
    ensures AppendAll(log, drafts).log == log && AppendAll(log, drafts).out.Some?
    decreases |drafts|
  {
    if drafts != [] {
      AppendFirst(log, drafts);
      AllExisting(log, drafts[1..]);
    }
  }

  lemma {:induction false} AppendCovers<T>(log: Log<T>, drafts: seq<Draft<T>>)
    requires WellFormed(log) && AppendAll(log, drafts).out.Some?
    ensures forall i | 0 <= i < |drafts| :: drafts[i].safe && Existing(AppendAll(log, drafts).log, drafts[i]).Some?
    decreases |drafts|
  {
    if drafts != [] {
      AppendFirst(log, drafts);
      AfterKeeps(log, drafts[0]);
      AppendCovers(After(log, drafts[0]), drafts[1..]);
      AppendKeeps(After(log, drafts[0]), drafts[1..], []);
      forall i | 0 < i < |drafts| ensures drafts[i].safe && Existing(AppendAll(log, drafts).log, drafts[i]).Some? {
        assert drafts[i] == drafts[1..][i - 1];
      }
    }
  }

  /** Appending a batch a second time adds no row and indexes nothing new, whatever was appended in between. */
  lemma Idempotent<T>(log: Log<T>, later: Log<T>, drafts: seq<Draft<T>>)
    requires WellFormed(log) && AppendAll(log, drafts).out.Some?
    requires Extends(AppendAll(log, drafts).log, later)
    ensures AppendAll(later, drafts).log == later && AppendAll(later, drafts).out.Some?
  {
    AppendCovers(log, drafts);
    AllExisting(later, drafts);
  }

  // ----- predicted sequences -----

  // No draft of the batch is taken by the log or by an earlier draft of the batch.
  ghost predicate FreshBatch<T>(log: Log<T>, drafts: seq<Draft<T>>) {
    && (forall i | 0 <= i < |drafts| :: drafts[i].safe && Existing(log, drafts[i]).None?)
    && (forall i, j | 0 <= i < j < |drafts| :: Apart(drafts[i], drafts[j]))
  }

  ghost predicate Apart<T>(d: Draft<T>, e: Draft<T>) {
    d.id != e.id && (d.key.Some? ==> d.key != e.key)
  }

  function Numbered<T>(drafts: seq<Draft<T>>, head: nat): seq<Row<T>> {
    seq(|drafts|, i requires 0 <= i < |drafts| => Row(drafts[i], head + i + 1))
  }

  // Pushing one draft leaves the others fresh exactly if they are apart from it.
  lemma FreshAfter<T>(log: Log<T>, d: Draft<T>, e: Draft<T>)
    requires Existing(log, d).None?
    ensures Existing(After(log, d), e).None? <==> Existing(log, e).None? && Apart(d, e)
  {
  }

  lemma FreshFirst<T>(log: Log<T>, drafts: seq<Draft<T>>)
    requires drafts != [] && drafts[0].safe && Existing(log, drafts[0]).None?
    ensures FreshBatch(log, drafts) <==> FreshBatch(After(log, drafts[0]), drafts[1..])
  {
    var d, rest, next := drafts[0], drafts[1..], After(log, drafts[0]);
    forall i | 0 <= i < |rest| ensures rest[i] == drafts[i + 1] { FreshAfter(log, d, rest[i]); }
    if FreshBatch(log, drafts) {
      forall i | 0 <= i < |rest| ensures rest[i].safe && Existing(next, rest[i]).None? { FreshAfter(log, d, rest[i]); }
      forall i, j | 0 <= i < j < |rest| ensures Apart(rest[i], rest[j]) { assert Apart(drafts[i + 1], drafts[j + 1]); }
    }
    if FreshBatch(next, rest) {
      forall i | 0 < i < |drafts| ensures drafts[i].safe && Existing(log, drafts[i]).None? && Apart(d, drafts[i]) {
        assert drafts[i] == rest[i - 1];
        FreshAfter(log, d, drafts[i]);
      }
      forall i, j | 0 <= i < j < |drafts| ensures Apart(drafts[i], drafts[j]) {
        if i > 0 { assert Apart(rest[i - 1], rest[j - 1]); }
      }
    }
  }

  /** A fresh batch is appended whole, and draft i gets exactly the predicted sequence head + i + 1. */
  lemma {:induction false} FreshAppend<T>(log: Log<T>, drafts: seq<Draft<T>>)
    requires FreshBatch(log, drafts)
    ensures AppendAll(log, drafts).out == Some(Numbered(drafts, |log.rows|))
    ensures AppendAll(log, drafts).log.rows == log.rows + Numbered(drafts, |log.rows|)
    decreases |drafts|
  {
    if drafts != [] {
      var row, n := Row(drafts[0], |log.rows| + 1), |log.rows|;
      FreshFirst(log, drafts);
      AppendFirst(log, drafts);
      FreshAppend(After(log, drafts[0]), drafts[1..]);
      assert [row] + Numbered(drafts[1..], n + 1) == Numbered(drafts, n);
      assert (log.rows + [row]) + Numbered(drafts[1..], n + 1) == log.rows + Numbered(drafts, n);
    }
  }

  /** The check that a terminal or reasoning batch makes on the rows it got back. */
  predicate NotInterleaved<T>(out: seq<Row<T>>, head: nat) {
    forall i | 0 <= i < |out| :: out[i].sequence == head + i + 1
  }

  lemma {:induction false} GuardFresh<T>(log: Log<T>, drafts: seq<Draft<T>>)
    requires WellFormed(log) && AppendAll(log, drafts).out.Some?
    requires NotInterleaved(AppendAll(log, drafts).out.value, |log.rows|)
    ensures FreshBatch(log, drafts)
    decreases |drafts|
  {
    if drafts != [] {
      AppendFirst(log, drafts);
      var out := AppendAll(log, drafts).out.value;
      assert out[0] == Taken(log, drafts[0]);
      RowBelow(log, drafts[0]);
      AfterKeeps(log, drafts[0]);
      var tail := AppendAll(After(log, drafts[0]), drafts[1..]).out.value;
      forall i | 0 <= i < |tail| ensures tail[i].sequence == |log.rows| + 1 + i + 1 { assert tail[i] == out[i + 1]; }
      GuardFresh(After(log, drafts[0]), drafts[1..]);
      FreshFirst(log, drafts);
    }
  }

  /** The "interleaved" guard of an uninterrupted append passes exactly on fresh batches. */
  lemma GuardIffFresh<T>(log: Log<T>, drafts: seq<Draft<T>>)
    requires WellFormed(log) && AppendAll(log, drafts).out.Some?
    ensures NotInterleaved(AppendAll(log, drafts).out.value, |log.rows|) <==> FreshBatch(log, drafts)
  {
    if FreshBatch(log, drafts) { FreshAppend(log, drafts); }
    if NotInterleaved(AppendAll(log, drafts).out.value, |log.rows|) { GuardFresh(log, drafts); }
  }
}
