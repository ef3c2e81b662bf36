/** The in-memory event store and the canonical admission queue as objects. */
module EventStore {
  import opened Wrappers
  import opened EventLog
  import opened AdmissionQueue

  // How many rows lie at or below `from`, and how many up to `to`.
  function Skipped(from: Option<int>, n: nat): nat {
    if from.None? || from.value < 0 then 0 else if from.value > n then n else from.value
  }

  function Included(to: Option<int>, n: nat): nat {
    if to.None? || to.value > n then n else if to.value < 0 then 0 else to.value
  }

  /** The stretch that `Replay` returns is exactly the rows whose sequence is in range. */
  lemma ReplayIsExact<T>(log: Log<T>, from: Option<int>, to: Option<int>, k: nat)
    requires WellFormed(log) && k < |log.rows|
    ensures Skipped(from, |log.rows|) <= k < Included(to, |log.rows|) <==>
      (from.Some? ==> log.rows[k].sequence > from.value) && (to.Some? ==> log.rows[k].sequence <= to.value)
  {
    assert RowOk(log, k);
  }

  // ----- a replay during which rows are appended -----

  /** Where the next row of a replay lies that has got to `index`, when the log has n rows; None ends it for good. */
  function NextAt(n: nat, index: nat, from: Option<int>, to: Option<int>): (p: Option<nat>)
    ensures p.Some? ==> index <= p.value < n
  {
    var p := if from.None? || from.value < index then index else from.value;
    if p < n && (to.None? || p < to.value) then Some(p) else None
  }

  /** What a consumer gets whose i-th request finds the log `logs[i]`. */
  function Collected<T>(logs: seq<Log<T>>, index: nat, from: Option<int>, to: Option<int>): seq<Row<T>>
    decreases |logs|
  {
    if logs == [] then []
    else
      var p := NextAt(|logs[0].rows|, index, from, to);
      if p.None? then [] else [logs[0].rows[p.value]] + Collected(logs[1..], p.value + 1, from, to)
  }

  // The last of these requests, and no earlier one, finds the end.
  predicate EndsWithLast<T>(logs: seq<Log<T>>, index: nat, from: Option<int>, to: Option<int>)
    decreases |logs|
  {
    logs != [] &&
    var p := NextAt(|logs[0].rows|, index, from, to);
    if p.None? then |logs| == 1 else EndsWithLast(logs[1..], p.value + 1, from, to)
  }

  ghost predicate Growing<T>(logs: seq<Log<T>>) {
    forall i, j | 0 <= i <= j < |logs| :: logs[i].rows <= logs[j].rows
  }

  function Stretch<T>(rows: seq<Row<T>>, index: nat, from: Option<int>, to: Option<int>): seq<Row<T>> {
    var lo, hi := Skipped(from, |rows|), Included(to, |rows|);
    var start := if lo < index then index else lo;
    if start <= hi then rows[start..hi] else []
  }

  lemma StretchNext<T>(rows: seq<Row<T>>, n: nat, index: nat, from: Option<int>, to: Option<int>)
    requires n <= |rows|
    ensures var p := NextAt(n, index, from, to);
      && (p.Some? ==> Stretch(rows, index, from, to) == [rows[p.value]] + Stretch(rows, p.value + 1, from, to))
      && (p.None? && n == |rows| ==> Stretch(rows, index, from, to) == [])
  {
    var p, hi := NextAt(n, index, from, to), Included(to, |rows|);
    if p.Some? { assert rows[p.value..hi] == [rows[p.value]] + rows[p.value + 1..hi]; }
  }

  /** However the log grows between the requests, a replay yields exactly the stretch in range of the log that it ends on. */
  lemma {:induction false} ReplayFollowsTheLog<T>(logs: seq<Log<T>>, index: nat, from: Option<int>, to: Option<int>)
    requires Growing(logs) && EndsWithLast(logs, index, from, to)
    ensures Collected(logs, index, from, to) == Stretch(logs[|logs| - 1].rows, index, from, to)
    decreases |logs|
  {
    var p, rows := NextAt(|logs[0].rows|, index, from, to), logs[|logs| - 1].rows;
    assert logs[0].rows <= rows;
    StretchNext(rows, |logs[0].rows|, index, from, to);
    hide Stretch;
    hide NextAt;
    if p.Some? {
      var rest := logs[1..];
      assert forall i | 0 <= i < |rest| :: rest[i] == logs[i + 1];
      ReplayFollowsTheLog(rest, p.value + 1, from, to);
      assert logs[0].rows[p.value] == rows[p.value];
    }
  }

  /** The generator of `replay`: rows appended before a request are seen by it. */
  class ReplayGenerator<T(!new)> {
    const store: InMemoryEventStore<T>
    const from: Option<int>
    const to: Option<int>
    var index: nat

    constructor (store: InMemoryEventStore<T>, from: Option<int>, to: Option<int>)
      ensures this.store == store && this.from == from && this.to == to && index == 0
    {
      this.store, this.from, this.to, index := store, from, to, 0;
    }

    method Next() returns (event: Option<Row<T>>)
      requires WellFormed(store.View())
      modifies this
      ensures var p := NextAt(|store.rows|, old(index), from, to);
        if p.None? then event.None? else event == Some(store.rows[p.value]) && index == p.value + 1
    {
      while index < |store.rows|
        invariant NextAt(|store.rows|, index, from, to) == NextAt(|store.rows|, old(index), from, to)
      {
        assert RowOk(store.View(), index);
        var row := store.rows[index];
        index := index + 1;
        if from.Some? && row.sequence < from.value + 1 { continue; }
        if to.Some? && row.sequence > to.value { return None; }
        return Some(row);
      }
      event := None;
    }
  }

  class InMemoryEventStore<T(!new)> {
    var rows: seq<Row<T>>
    var byEventId: map<EventId, Row<T>>
    var byIdempotencyKey: map<string, Row<T>>

    function View(): Log<T>
      reads this
    {
      Log(rows, byEventId, byIdempotencyKey)
    }

    constructor ()
      ensures View() == Empty() && WellFormed(View())
    {
      rows, byEventId, byIdempotencyKey := [], map[], map[];
    }

    /** One uninterrupted append; None means that it threw at an unsafe payload. */
    method Append(drafts: seq<Draft<T>>) returns (out: Option<seq<Row<T>>>)
      requires WellFormed(View())
      modifies this
      ensures Appended(View(), out) == AppendAll(old(View()), drafts)
      ensures WellFormed(View()) && Extends(old(View()), View())
    {
      AppendKeeps(View(), drafts, []);
      var persisted: seq<Row<T>> := [];
      for i := 0 to |drafts|
        invariant AppendRest(View(), drafts[i..], persisted) == AppendAll(old(View()), drafts)
      {
        var draft := drafts[i];
        assert drafts[i..][0] == draft && drafts[i..][1..] == drafts[i + 1..];
        if !draft.safe { return None; }
        if draft.id in byEventId {
          persisted := persisted + [byEventId[draft.id]];
          continue;
        }
        if draft.key.Some? {
          if draft.key.value in byIdempotencyKey {
            persisted := persisted + [byIdempotencyKey[draft.key.value]];
            continue;
          }
        }
        var row := Row(draft, |rows| + 1);
        rows := rows + [row];
        byEventId := byEventId[draft.id := row];
        if draft.key.Some? { byIdempotencyKey := byIdempotencyKey[draft.key.value := row]; }
        persisted := persisted + [row];
      }
      out := Some(persisted);
    }

    /** A replay that nothing interrupts: the rows with a sequence above `from` and up to `to`, in order. */
    method Replay(from: Option<int>, to: Option<int>) returns (events: seq<Row<T>>)
      requires WellFormed(View())
      ensures events == Stretch(rows, 0, from, to)
    {
      var lo, hi := Skipped(from, |rows|), Included(to, |rows|);
      events := [];
      var i := 0;
      while i < |rows|
        invariant 0 <= i <= |rows| && (i <= hi || i <= lo)
        invariant events == if lo <= i then rows[lo..i] else []
      {
        assert RowOk(View(), i);
        var row := rows[i];
        if from.Some? && row.sequence < from.value + 1 { i := i + 1; continue; }
        if to.Some? && row.sequence > to.value { break; }
        events := events + [row];
        i := i + 1;
      }
    }

    method HeadSequence() returns (head: nat)
      requires WellFormed(View())
      ensures head == |rows| && forall r | r in rows :: r.sequence <= head
    {
      forall k | 0 <= k < |rows| ensures rows[k].sequence <= |rows| { assert RowOk(View(), k); }
      head := |rows|;
    }

    method Get(id: EventId) returns (event: Option<Row<T>>)
      requires WellFormed(View())
      ensures event.Some? ==> event.value in rows && event.value.draft.id == id
      ensures event.None? ==> forall r | r in rows :: r.draft.id != id
    {
      if id in byEventId {
        assert IsRow(View(), byEventId[id]);
        event := Some(byEventId[id]);
      } else {
        forall k | 0 <= k < |rows| ensures rows[k].draft.id != id { assert RowOk(View(), k); }
        event := None;
      }
    }
  }

  class CanonicalAdmissionQueue<T(!new)> {
    const store: InMemoryEventStore<T>
    var jobs: seq<Job<T>>
    var tail: Option<nat>

    ghost function View(): Queue<T>
      reads this, store
    {
      Queue(store.View(), jobs, tail)
    }

    ghost predicate Valid()
      reads this, store
    {
      Inv(View()) && WellFormed(store.View())
    }

    constructor (store: InMemoryEventStore<T>)
      requires store.View() == Empty<T>()
      ensures this.store == store && View() == NewQueue() && Valid()
    {
      this.store := store;
      jobs, tail := [], None;
      new;
      assert Serial(View(), 0);
    }

    /** Chain the work to the current tail and become the tail. */
    method Enqueue(work: Work<T>) returns (k: nat)
      requires Valid()
      modifies this
      ensures View() == Apply(old(View()), Action.Enqueue(work)) && Valid() && k == |old(jobs)|
    {
      hide Inv;
      StepKeeps(View(), Action.Enqueue(work));
      PartialWellFormed(View(), Action.Enqueue(work));
      k := |jobs|;
      jobs := jobs + [Job(work, tail, Waiting)];
      tail := Some(k);
    }

    /** The tail this work waits for has settled, either way. */
    method Start(i: nat)
      requires Valid() && Enabled(View(), Action.Start(i))
      modifies this
      ensures View() == Apply(old(View()), Action.Start(i)) && Valid()
    {
      hide Inv;
      StepKeeps(View(), Action.Start(i));
      match jobs[i].work
      case AppendNow(drafts) =>
        jobs := jobs[i := jobs[i].(stage := Proceed(store.View(), drafts, []))];
      case ReadThen(_) =>
        jobs := jobs[i := jobs[i].(stage := Reading(store.rows))];
    }

    /** The awaited read or digest has arrived: push the row whose sequence was chosen before the await. */
    method Resume(i: nat)
      requires Valid() && Enabled(View(), Action.Resume(i))
      modifies this, store
      ensures View() == Apply(old(View()), Action.Resume(i)) && Valid()
      ensures Extends(old(store.View()), store.View())
    {
      hide Inv;
      StepKeeps(View(), Action.Resume(i));
      PartialWellFormed(View(), Action.Resume(i));
      match jobs[i].stage
      case Reading(snapshot) =>
        var built := Built(i, jobs[i].work, snapshot);
        jobs := jobs[i := jobs[i].(stage := if built.Some? then Proceed(store.View(), built.value, []) else Failed)];
      case Digesting(todo, out, sequence) =>
        var row := Row(todo[0], sequence);
        store.rows := store.rows + [row];
        store.byEventId := store.byEventId[todo[0].id := row];
        if todo[0].key.Some? { store.byIdempotencyKey := store.byIdempotencyKey[todo[0].key.value := row]; }
        jobs := jobs[i := jobs[i].(stage := Proceed(store.View(), todo[1..], out + [row]))];
    }
  }
}
