/**
 The durable workspace effect generation: the scan that accepts or refuses a log, and the
 ordinary settlement of an operation, which reads the head, scans, and appends its terminal batch.
 */
module EffectGeneration {
  import opened Wrappers
  import opened EventLog
  import opened AdmissionQueue

  const MAX_SAFE_INTEGER: int := 9007199254740991

  // The parts of the terminal payloads that the log's own checks read.
  datatype Body =
    | Advanced(operation: string, previous: int, generation: int, confirmed: bool)
    | Completed(operation: string)
    | Quiesced(operation: string)
    | Evidence(operation: string)
    | Correlated(evidenceSequence: int)
    | Other

  function EffectKey(operation: string): string {
    "workspace.effect_generation.advanced:" + operation
  }

  lemma EffectKeyInjective()
    ensures forall a, b :: EffectKey(a) == EffectKey(b) ==> a == b
  {
    forall a, b | EffectKey(a) == EffectKey(b) ensures a == b {
      var n := |EffectKey("")|;
      assert EffectKey(a)[n..] == a && EffectKey(b)[n..] == b;
    }
  }

  // ----- the scan -----

  /** The advance events of a log, in order. */
  function Advances(rows: seq<Row<Body>>): (r: seq<Body>)
    ensures forall j | 0 <= j < |r| :: r[j].Advanced?
  {
    if rows == [] then []
    else
      var last := rows[|rows| - 1].draft.body;
      Advances(rows[..|rows| - 1]) + (if last.Advanced? then [last] else [])
  }

  predicate SafeInteger(n: int) {
    -MAX_SAFE_INTEGER <= n <= MAX_SAFE_INTEGER
  }

  /** What continuity means: the j-th advance goes from j to j + 1, confirmed, each for an operation of its own. */
  predicate Continuous(advances: seq<Body>) {
    && (forall j | 0 <= j < |advances| ::
          advances[j].Advanced? && advances[j].previous == j && advances[j].generation == j + 1 &&
          advances[j].confirmed && advances[j].operation != "")
    && (forall i, j | 0 <= i < |advances| && i < j < |advances| :: advances[i].operation != advances[j].operation)
    && |advances| <= MAX_SAFE_INTEGER
  }

  predicate HasAdvance(rows: seq<Row<Body>>, operation: string) {
    exists i :: 0 <= i < |rows| && rows[i].draft.body.Advanced? && rows[i].draft.body.operation == operation
  }

  lemma {:induction false} AdvancesSnoc(rows: seq<Row<Body>>, more: seq<Row<Body>>)
    ensures Advances(rows + more) == Advances(rows) + Advances(more)
    decreases |more|
  {
    if more == [] {
      assert rows + more == rows;
    } else {
      assert (rows + more)[..|rows + more| - 1] == rows + more[..|more| - 1];
      AdvancesSnoc(rows, more[..|more| - 1]);
    }
  }

  lemma {:induction false} AdvanceIn(rows: seq<Row<Body>>, operation: string)
    ensures HasAdvance(rows, operation) <==> exists j :: 0 <= j < |Advances(rows)| && Advances(rows)[j].operation == operation
    decreases |rows|
  {
    if rows != [] {
      var n := |rows| - 1;
      AdvanceIn(rows[..n], operation);
      if HasAdvance(rows, operation) {
        var i :| 0 <= i < |rows| && rows[i].draft.body.Advanced? && rows[i].draft.body.operation == operation;
        if i < n {
          assert rows[..n][i] == rows[i];
          var j :| 0 <= j < |Advances(rows[..n])| && Advances(rows[..n])[j].operation == operation;
          assert Advances(rows)[j] == Advances(rows[..n])[j];
        } else {
          assert Advances(rows)[|Advances(rows)| - 1].operation == operation;
        }
      }
      if j :| 0 <= j < |Advances(rows)| && Advances(rows)[j].operation == operation {
        if j < |Advances(rows[..n])| {
          assert Advances(rows[..n])[j].operation == operation;
          var i :| 0 <= i < n && rows[..n][i].draft.body.Advanced? && rows[..n][i].draft.body.operation == operation;
          assert rows[i] == rows[..n][i];
        } else {
          assert rows[n].draft.body.operation == operation;
        }
      }
    }
  }

  lemma AdvancesOne(row: Row<Body>)
    ensures Advances([row]) == if row.draft.body.Advanced? then [row.draft.body] else []
  {
    assert [row][..0] == [];
  }

  lemma AdvancesUpTo(rows: seq<Row<Body>>, i: nat)
    requires i < |rows|
    ensures var body := rows[i].draft.body;
      Advances(rows[..i + 1]) == if body.Advanced? then Advances(rows[..i]) + [body] else Advances(rows[..i])
  {
    assert rows[..i + 1] == rows[..i] + [rows[i]];
    AdvancesSnoc(rows[..i], [rows[i]]);
    AdvancesOne(rows[i]);
  }

  lemma AdvancesPrefix(rows: seq<Row<Body>>, i: nat)
    requires i <= |rows|
    ensures Advances(rows[..i]) <= Advances(rows)
  {
    assert rows == rows[..i] + rows[i..];
    AdvancesSnoc(rows[..i], rows[i..]);
  }

  // An advance event that the scan refuses breaks the continuity of the whole log.
  lemma RefusedAdvance(was: seq<Body>, body: Body, all: seq<Body>)
    requires Continuous(was) && body.Advanced? && was + [body] <= all
    requires !Continuous(was + [body])
    ensures !Continuous(all)
  {
    var now := was + [body];
    assert forall j | 0 <= j < |now| :: now[j] == all[j];
  }

  ghost predicate OperationsOf(ids: set<string>, advances: seq<Body>) {
    && (forall j | 0 <= j < |advances| :: advances[j].Advanced? && advances[j].operation in ids)
    && (forall op | op in ids :: exists j :: 0 <= j < |advances| && advances[j].Advanced? && advances[j].operation == op)
  }

  lemma ContinuousSnoc(was: seq<Body>, body: Body, ids: set<string>)
    requires Continuous(was) && OperationsOf(ids, was) && body.Advanced?
    ensures Continuous(was + [body]) <==>
      body.previous == |was| && body.generation == |was| + 1 && SafeInteger(body.generation) &&
      body.operation != "" && body.operation !in ids && body.confirmed
    ensures OperationsOf(ids + {body.operation}, was + [body])
  {
    var now := was + [body];
    assert now[|was|] == body;
    assert forall j | 0 <= j < |was| :: now[j] == was[j];
    if body.operation in ids {
      var j :| 0 <= j < |was| && was[j].operation == body.operation;
      assert now[j].operation == now[|was|].operation;
    }
    forall op | op in ids + {body.operation}
      ensures exists j :: 0 <= j < |now| && now[j].Advanced? && now[j].operation == op
    {
      if op in ids {
        var j :| 0 <= j < |was| && was[j].Advanced? && was[j].operation == op;
        assert now[j].operation == op;
      } else {
        assert now[|was|].operation == op;
      }
    }
  }

  /**
   The scan of `durableWorkspaceEffectGeneration`: it accepts exactly the continuous logs and
   returns the number of advance events; None stands for the throw.
   */
  method DurableWorkspaceEffectGeneration(rows: seq<Row<Body>>) returns (r: Option<nat>)
    ensures r.Some? <==> Continuous(Advances(rows))
    ensures r.Some? ==> r.value == |Advances(rows)|
  {
    var current: int := 0;
    var operationIds: set<string> := {};
    for i := 0 to |rows|
      invariant Continuous(Advances(rows[..i])) && current == |Advances(rows[..i])|
      invariant OperationsOf(operationIds, Advances(rows[..i]))
    {
      AdvancesUpTo(rows, i);
      var body := rows[i].draft.body;
      if !body.Advanced? { continue; }
      ContinuousSnoc(Advances(rows[..i]), body, operationIds);
      if !SafeInteger(body.previous) || body.previous < 0 || !SafeInteger(body.generation) || body.generation <= 0 ||
         body.previous != current || body.generation != current + 1 ||
         body.operation == "" || body.operation in operationIds || !body.confirmed {
        AdvancesPrefix(rows, i + 1);
        RefusedAdvance(Advances(rows[..i]), body, Advances(rows));
        return None;
      }
      operationIds := operationIds + {body.operation};
      current := body.generation;
    }
    assert rows[..|rows|] == rows;
    r := Some(current);
  }

  // ----- the ordinary settlement -----

  // Which of the payloads that carry results are canonical; the others hold strings, booleans and safe integers only.
  datatype Payloads = Payloads(quiesced: bool, evidence: bool, correlated: bool)

  // What the broker knows when an operation has ended.
  datatype Settlement = Settlement(operation: string, mayWrite: bool, succeeded: bool, quiesced: bool, correlated: bool, safe: Payloads)

  function Terminal(s: Settlement, head: nat, generation: Option<nat>): seq<Entry<Body>> {
    var completed := [Entry(None, true, Completed(s.operation))];
    var quiesced := if s.quiesced then [Entry(None, s.safe.quiesced, Quiesced(s.operation))] else [];
    var advanced := if generation.None? then []
      else [Entry(Some(EffectKey(s.operation)), true, Advanced(s.operation, generation.value, generation.value + 1, true))];
    var before := completed + quiesced + advanced;
    var evidence := [Entry(None, s.safe.evidence, Evidence(s.operation))];
    var correlated := if s.correlated then [Entry(None, s.safe.correlated, Correlated(head + |before| + 1))] else [];
    before + evidence + correlated
  }

  predicate AllSafe(s: Settlement) {
    (s.quiesced ==> s.safe.quiesced) && s.safe.evidence && (s.correlated ==> s.safe.correlated)
  }

  /** How many drafts of the terminal batch come before the first one that the store refuses. */
  function SafeCount(entries: seq<Entry<Body>>): (c: nat)
    ensures c <= |entries| && (c < |entries| ==> !entries[c].safe) && forall i | 0 <= i < c :: entries[i].safe
  {
    if entries == [] || !entries[0].safe then 0 else 1 + SafeCount(entries[1..])
  }

  /** The generation a settlement starts from, if it is one that advances. */
  function GenerationFor(s: Settlement, rows: seq<Row<Body>>): Option<nat> {
    if s.mayWrite && s.succeeded && !HasAdvance(rows, s.operation) then Some(|Advances(rows)|) else None
  }

  /** The batch a settlement appends after it has read `rows`; None when it throws. */
  function Settle(s: Settlement, rows: seq<Row<Body>>): Option<seq<Entry<Body>>> {
    var generation := GenerationFor(s, rows);
    if generation.Some? && (!Continuous(Advances(rows)) || generation.value + 1 > MAX_SAFE_INTEGER) then None
    else Some(Terminal(s, |rows|, generation))
  }

  /** A work that is either an ordinary settlement or appends nothing about effect generations. */
  ghost predicate Plain(key: Option<string>, body: Body) {
    !body.Advanced? && (key.Some? ==> forall op :: key.value != EffectKey(op))
  }

  ghost predicate SettlementWork(w: Work<Body>, s: Settlement) {
    w.ReadThen? && s.operation != "" && forall rows :: w.build(rows) == Settle(s, rows)
  }

  ghost predicate OrdinaryWork(w: Work<Body>) {
    || (exists s :: SettlementWork(w, s))
    || (w.ReadThen? && forall rows, e :: w.build(rows).Some? && e in w.build(rows).value ==> Plain(e.key, e.body))
    || (w.AppendNow? && forall d | d in w.drafts :: Plain(d.key, d.body) && d.id.Given?)
  }

  // ----- what ordinary runs keep -----

  // Effect keys belong to the advance event of the same operation, and minted ids to earlier works.
  ghost predicate EffectLog(log: Log<Body>, works: nat) {
    && WellFormed(log) && Continuous(Advances(log.rows))
    && (forall i | 0 <= i < |log.rows| :: KeyOk(log.rows[i].draft.key, log.rows[i].draft.body) && IdOk(log.rows[i].draft.id, works))
  }

  ghost predicate KeyOk(key: Option<string>, body: Body) {
    if body.Advanced? then key == Some(EffectKey(body.operation)) else Plain(key, body)
  }

  ghost predicate IdOk(id: EventId, works: nat) {
    id.Minted? ==> id.work < works
  }

  // A batch of plain drafts leaves the advance events alone.
  lemma {:induction false} PlainKeeps(log: Log<Body>, drafts: seq<Draft<Body>>, works: nat)
    requires EffectLog(log, works)
    requires forall d | d in drafts :: Plain(d.key, d.body) && IdOk(d.id, works)
    ensures EffectLog(AppendAll(log, drafts).log, works)
    ensures Advances(AppendAll(log, drafts).log.rows) == Advances(log.rows)
    decreases |drafts|
  {
    if drafts != [] && drafts[0].safe {
      AppendFirst(log, drafts);
      AfterKeeps(log, drafts[0]);
      assert drafts[0] in drafts;
      var next := After(log, drafts[0]);
      if Existing(log, drafts[0]).None? {
        AdvancesSnoc(log.rows, [Row(drafts[0], |log.rows| + 1)]);
        forall i | 0 <= i < |next.rows| ensures KeyOk(next.rows[i].draft.key, next.rows[i].draft.body) && IdOk(next.rows[i].draft.id, works) {
          if i < |log.rows| { assert next.rows[i] == log.rows[i]; }
        }
      }
      PlainKeeps(next, drafts[1..], works);
    }
  }

  lemma SettleEntries(s: Settlement, head: nat, generation: Option<nat>)
    requires s.operation != ""
    ensures var entries := Terminal(s, head, generation);
      && (forall i | 0 <= i < |entries| :: KeyOk(entries[i].key, entries[i].body))
      && (forall i | 0 <= i < |entries| && entries[i].key.Some? ::
            generation.Some? && entries[i].key == Some(EffectKey(s.operation)))
      && (forall i, j | 0 <= i < j < |entries| && entries[i].key.Some? :: entries[j].key.None?)
  {
  }

  lemma SafeIff(s: Settlement, head: nat, generation: Option<nat>)
    ensures var entries := Terminal(s, head, generation); SafeCount(entries) == |entries| <==> AllSafe(s)
  {
    var entries, n := Terminal(s, head, generation), SafeCount(Terminal(s, head, generation));
    var e := (if s.quiesced then 2 else 1) + (if generation.Some? then 1 else 0);
    hide SafeCount;
    assert entries[e].safe == s.safe.evidence && (s.quiesced ==> entries[1].safe == s.safe.quiesced);
    assert s.correlated ==> entries[e + 1].safe == s.safe.correlated;
    assert forall i | 0 <= i < |entries| ::
        entries[i].safe || i == e || (s.quiesced && i == 1) || (s.correlated && i == e + 1);
  }

  lemma RowOfId(log: Log<Body>, id: EventId)
    requires WellFormed(log) && id in log.byId
    ensures IsRow(log, log.byId[id]) && log.byId[id].draft.id == id
  {
  }

  lemma RowOfKey(log: Log<Body>, key: string)
    requires WellFormed(log) && key in log.byKey
    ensures IsRow(log, log.byKey[key]) && log.byKey[key].draft.key == Some(key)
  {
  }

  lemma MintedFree(log: Log<Body>, k: nat, i: nat)
    requires EffectLog(log, k)
    ensures Minted(k, i) !in log.byId
  {
    if Minted(k, i) in log.byId { RowOfId(log, Minted(k, i)); }
  }

  lemma KeyFree(log: Log<Body>, k: nat, operation: string)
    requires EffectLog(log, k) && !HasAdvance(log.rows, operation)
    ensures EffectKey(operation) !in log.byKey
  {
    EffectKeyInjective();
    if EffectKey(operation) in log.byKey { RowOfKey(log, EffectKey(operation)); }
  }

  /** The drafts of a settlement that the store takes. */
  function SafeDrafts(s: Settlement, k: nat, rows: seq<Row<Body>>): (r: seq<Draft<Body>>)
    requires Settle(s, rows).Some?
  {
    Mint(k, Settle(s, rows).value[..SafeCount(Settle(s, rows).value)])
  }

  // A settlement's own drafts are never taken.
  lemma SettleFresh(log: Log<Body>, k: nat, s: Settlement)
    requires EffectLog(log, k) && s.operation != "" && Settle(s, log.rows).Some?
    ensures FreshBatch(log, SafeDrafts(s, k, log.rows))
  {
    var generation := GenerationFor(s, log.rows);
    var entries := Settle(s, log.rows).value;
    var drafts := SafeDrafts(s, k, log.rows);
    SettleEntries(s, |log.rows|, generation);
    if generation.Some? { KeyFree(log, k, s.operation); }
    forall i | 0 <= i < |drafts| ensures drafts[i].safe && Existing(log, drafts[i]).None? {
      assert drafts[i].key == entries[i].key && drafts[i].safe == entries[i].safe;
      MintedFree(log, k, i);
    }
    forall i, j | 0 <= i < j < |drafts| ensures Apart(drafts[i], drafts[j]) { assert drafts[i].key == entries[i].key && drafts[j].key == entries[j].key; }
  }

  // Where the terminal batch advances.
  lemma TerminalShape(s: Settlement, head: nat, generation: Option<nat>)
    ensures var entries, b := Terminal(s, head, generation), if s.quiesced then 2 else 1;
      && |entries| >= b + (if generation.Some? then 1 else 0)
      && (forall i | 0 <= i < |entries| && (i != b || generation.None?) :: !entries[i].body.Advanced?)
      && (generation.Some? ==> entries[b].body == Advanced(s.operation, generation.value, generation.value + 1, true))
  {
  }

  /** What the first c drafts of the terminal batch advance. */
  function AdvanceWithin(s: Settlement, generation: Option<nat>, c: nat): seq<Body> {
    if generation.Some? && (if s.quiesced then 2 else 1) < c then [Advanced(s.operation, generation.value, generation.value + 1, true)] else []
  }

  lemma {:induction false} AdvancesOfTerminal(s: Settlement, head: nat, generation: Option<nat>, rows: seq<Row<Body>>)
    requires |rows| <= |Terminal(s, head, generation)|
    requires forall i | 0 <= i < |rows| :: rows[i].draft.body == Terminal(s, head, generation)[i].body
    ensures Advances(rows) == AdvanceWithin(s, generation, |rows|)
  {
    TerminalShape(s, head, generation);
    hide Terminal;
    var b := if s.quiesced then 2 else 1;
    if generation.Some? && b < |rows| {
      NoAdvances(rows[..b]);
      NoAdvances(rows[b + 1..]);
      assert rows == (rows[..b] + [rows[b]]) + rows[b + 1..];
      AdvancesSnoc(rows[..b] + [rows[b]], rows[b + 1..]);
      AdvancesSnoc(rows[..b], [rows[b]]);
      AdvancesOne(rows[b]);
    } else {
      NoAdvances(rows);
    }
  }

  lemma {:induction false} NoAdvances(rows: seq<Row<Body>>)
    requires forall i | 0 <= i < |rows| :: !rows[i].draft.body.Advanced?
    ensures Advances(rows) == []
    decreases |rows|
  {
    if rows != [] { NoAdvances(rows[..|rows| - 1]); }
  }

  lemma ContinuousNext(advances: seq<Body>, operation: string)
    requires Continuous(advances) && operation != "" && |advances| + 1 <= MAX_SAFE_INTEGER
    requires forall j | 0 <= j < |advances| :: advances[j].operation != operation
    ensures Continuous(advances + [Advanced(operation, |advances|, |advances| + 1, true)])
  {
  }

  lemma AddedKeeps(log: Log<Body>, next: Log<Body>, added: seq<Row<Body>>, k: nat)
    requires EffectLog(log, k) && WellFormed(next) && next.rows == log.rows + added
    requires Continuous(Advances(log.rows) + Advances(added))
    requires forall i | 0 <= i < |added| :: KeyOk(added[i].draft.key, added[i].draft.body) && added[i].draft.id == Minted(k, i)
    ensures EffectLog(next, k + 1)
  {
    hide WellFormed;
    hide Continuous;
    hide Advances;
    hide KeyOk;
    AdvancesSnoc(log.rows, added);
    forall i | 0 <= i < |next.rows|
      ensures KeyOk(next.rows[i].draft.key, next.rows[i].draft.body) && IdOk(next.rows[i].draft.id, k + 1)
    {
      if i < |log.rows| { assert next.rows[i] == log.rows[i]; } else { assert next.rows[i] == added[i - |log.rows|]; }
    }
  }

  // The rows a settlement appends, and what they advance.
  lemma SettleAppends(log: Log<Body>, k: nat, s: Settlement)
    requires EffectLog(log, k) && s.operation != "" && Settle(s, log.rows).Some?
    ensures var entries, taken := Settle(s, log.rows).value, SafeDrafts(s, k, log.rows);
      && AppendAll(log, Mint(k, entries)).out ==
           (if SafeCount(entries) < |entries| then None else Some(Numbered(Mint(k, entries), |log.rows|)))
      && AppendAll(log, Mint(k, entries)).log.rows == log.rows + Numbered(taken, |log.rows|)
      && Advances(Numbered(taken, |log.rows|)) == AdvanceWithin(s, GenerationFor(s, log.rows), |taken|)
  {
    hide EffectLog;
    hide FreshBatch;
    hide Advances;
    SettleFresh(log, k, s);
    var entries, taken := Settle(s, log.rows).value, SafeDrafts(s, k, log.rows);
    var c, drafts := SafeCount(entries), Mint(k, entries);
    FreshAppend(log, taken);
    AdvancesOfTerminal(s, |log.rows|, GenerationFor(s, log.rows), Numbered(taken, |log.rows|));
    hide Settle;
    hide SafeCount;
    assert taken == drafts[..c];
    if c < |entries| { UnsafeStops(log, drafts, c); } else { assert taken == drafts; }
  }

  lemma SettleContinues(log: Log<Body>, s: Settlement, c: nat)
    requires Continuous(Advances(log.rows)) && s.operation != "" && Settle(s, log.rows).Some?
    ensures Continuous(Advances(log.rows) + AdvanceWithin(s, GenerationFor(s, log.rows), c))
  {
    hide Terminal;
    if AdvanceWithin(s, GenerationFor(s, log.rows), c) != [] {
      AdvanceIn(log.rows, s.operation);
      ContinuousNext(Advances(log.rows), s.operation);
    } else {
      assert Advances(log.rows) + [] == Advances(log.rows);
    }
  }

  /** One settlement run whole, or up to a payload that is refused: its advance, if any, continues the generation. */
  lemma SettleKeeps(log: Log<Body>, k: nat, s: Settlement, w: Work<Body>)
    requires EffectLog(log, k) && SettlementWork(w, s)
    ensures EffectLog(Perform(log, k, w).log, k + 1)
  {
    assert WellFormed(log) && Continuous(Advances(log.rows));
    if Settle(s, log.rows).Some? {
      var drafts, taken := Mint(k, Settle(s, log.rows).value), SafeDrafts(s, k, log.rows);
      SettleAppends(log, k, s);
      AppendKeeps(log, drafts, []);
      SettleEntries(s, |log.rows|, GenerationFor(s, log.rows));
      SettleContinues(log, s, |taken|);
      hide EffectLog;
      hide WellFormed;
      hide Continuous;
      hide Advances;
      hide Terminal;
      hide GenerationFor;
      AddedKeeps(log, AppendAll(log, drafts).log, Numbered(taken, |log.rows|), k);
      assert Perform(log, k, w) == AppendAll(log, drafts);
    } else {
      WorksGrow(log, k);
    }
  }

  lemma WorksGrow(log: Log<Body>, k: nat)
    requires EffectLog(log, k)
    ensures EffectLog(log, k + 1)
  {
  }

  lemma OrdinaryKeeps(log: Log<Body>, k: nat, w: Work<Body>)
    requires EffectLog(log, k) && OrdinaryWork(w)
    ensures EffectLog(Perform(log, k, w).log, k + 1)
  {
    if s :| SettlementWork(w, s) {
      SettleKeeps(log, k, s, w);
    } else {
      var built := Built(k, w, log.rows);
      if built.Some? {
        forall d | d in built.value ensures Plain(d.key, d.body) && IdOk(d.id, k + 1) {
          if w.ReadThen? {
            var i :| 0 <= i < |built.value| && built.value[i] == d;
            assert w.build(log.rows).value[i] in w.build(log.rows).value;
          }
        }
        WorksGrow(log, k);
        PlainKeeps(log, built.value, k + 1);
      }
    }
  }

  lemma {:induction false} ReplayedEffects(jobs: seq<Job<Body>>)
    requires forall k | 0 <= k < |jobs| :: OrdinaryWork(jobs[k].work)
    ensures EffectLog(Replayed(jobs), |jobs|)
    decreases |jobs|
  {
    if jobs != [] {
      var n := |jobs| - 1;
      ReplayedEffects(jobs[..n]);
      OrdinaryKeeps(Replayed(jobs[..n]), n, jobs[n].work);
    }
  }

  lemma ContinuousPrefix(was: seq<Body>, all: seq<Body>)
    requires Continuous(all) && was <= all
    ensures Continuous(was)
  {
    assert forall j | 0 <= j < |was| :: was[j] == all[j];
  }

  lemma ReachableWellFormed(q: Queue<Body>)
    requires Reachable(q)
    ensures WellFormed(q.log)
  {
    var actions :| q == Run(NewQueue(), actions);
    assert Serial(NewQueue<Body>(), 0);
    LogStaysWellFormed(NewQueue<Body>(), actions);
  }

  /**
   Over every interleaving of ordinary works, in the middle of batches too, the log is continuous:
   the scan accepts it, generations are consecutive from 1 and no operation advances twice.
   */
  lemma EffectsStayContinuous(q: Queue<Body>)
    requires Reachable(q) && forall k | 0 <= k < |q.jobs| :: OrdinaryWork(q.jobs[k].work)
    ensures Continuous(Advances(q.log.rows))
  {
    ReachableInv(q);
    ReachableWellFormed(q);
    var n: nat :| Serial(q, n);
    if n == |q.jobs| {
      ReplayedEffects(q.jobs);
    } else {
      var base, stage := Replayed(q.jobs[..n]), q.jobs[n].stage;
      ReplayedEffects(q.jobs[..n]);
      if stage.Digesting? {
        OrdinaryKeeps(base, n, q.jobs[n].work);
        AppendKeeps(q.log, stage.todo, stage.out);
        var last := Perform(base, n, q.jobs[n].work).log;
        AdvancesPrefix(last.rows, |q.log.rows|);
        ContinuousPrefix(Advances(q.log.rows), Advances(last.rows));
      }
    }
  }

  ghost predicate EvidencePredicted(rows: seq<Row<Body>>, correlated: bool) {
    forall e | 0 <= e < |rows| && rows[e].draft.body.Evidence? && correlated ::
      e + 1 < |rows| && rows[e + 1].draft.body == Correlated(rows[e].sequence)
  }

  /**
   Every settlement that is over either failed, on the integer limit or on a payload that is not canonical, or
   appended its whole batch: the "interleaved" guard passes, the evidence id embeds the sequence the log gave the
   evidence row, and it advanced the generation exactly when it wrote, succeeded and had not advanced before.
   */
  lemma SettlementPredictsRight(q: Queue<Body>, k: nat, s: Settlement)
    requires Reachable(q) && forall i | 0 <= i < |q.jobs| :: OrdinaryWork(q.jobs[i].work)
    requires k < |q.jobs| && SettlementWork(q.jobs[k].work, s) && Over(q.jobs[k])
    ensures var base, stage := Replayed(q.jobs[..k]), q.jobs[k].stage;
      var generation := GenerationFor(s, base.rows);
      && (stage.Failed? <==> (generation.Some? && generation.value + 1 > MAX_SAFE_INTEGER) || !AllSafe(s))
      && (stage.Fulfilled? ==>
            && NotInterleaved(stage.rows, |base.rows|) && EvidencePredicted(stage.rows, s.correlated)
            && Advances(stage.rows) ==
                 if generation.None? then [] else [Advanced(s.operation, generation.value, generation.value + 1, true)])
  {
    hide EffectLog;
    hide Continuous;
    hide Terminal;
    hide Serial;
    hide NotInterleaved;
    hide EvidencePredicted;
    ReachableInv(q);
    var n: nat :| Serial(q, n);
    LaterNotOver(q, n, k);
    OverSettled(q, k, n);
    var base := Replayed(q.jobs[..k]);
    ReplayedEffects(q.jobs[..k]);
    SettleOutcome(base, k, s);
    assert Perform(base, k, q.jobs[k].work) == if Settle(s, base.rows).Some?
      then AppendAll(base, Mint(k, Settle(s, base.rows).value)) else Appended(base, None);
  }

  /**
   A settlement that fails on a payload keeps what it had appended before: it has advanced the generation exactly if
   the refused payload came after the advance event, and then no retry advances again.
   */
  lemma FailedSettlementMayAdvance(log: Log<Body>, k: nat, s: Settlement, w: Work<Body>)
    requires EffectLog(log, k) && SettlementWork(w, s) && Settle(s, log.rows).Some? && !AllSafe(s)
    ensures Perform(log, k, w).out.None?
    ensures HasAdvance(Perform(log, k, w).log.rows, s.operation) <==>
      HasAdvance(log.rows, s.operation) || (s.mayWrite && s.succeeded && (s.quiesced ==> s.safe.quiesced))
  {
    var generation, entries := GenerationFor(s, log.rows), Settle(s, log.rows).value;
    var taken := SafeDrafts(s, k, log.rows);
    SettleAppends(log, k, s);
    SafeIff(s, |log.rows|, generation);
    AdvanceBeforeRefusal(s, |log.rows|, generation);
    assert Perform(log, k, w) == AppendAll(log, Mint(k, entries));
    hide Terminal;
    hide SafeCount;
    var added := Numbered(taken, |log.rows|);
    AdvancesSnoc(log.rows, added);
    AdvanceIn(log.rows, s.operation);
    AdvanceIn(log.rows + added, s.operation);
    AdvanceOf(Advances(log.rows), AdvanceWithin(s, generation, |taken|), s.operation);
  }

  lemma AdvanceOf(a: seq<Body>, b: seq<Body>, operation: string)
    requires forall j | 0 <= j < |a + b| :: (a + b)[j].Advanced?
    ensures (exists j :: 0 <= j < |a + b| && (a + b)[j].operation == operation) <==>
      (exists j :: 0 <= j < |a| && a[j].Advanced? && a[j].operation == operation) ||
      (exists j :: 0 <= j < |b| && b[j].Advanced? && b[j].operation == operation)
  {
    if j :| 0 <= j < |a + b| && (a + b)[j].operation == operation {
      if j < |a| { assert a[j].operation == operation; } else { assert b[j - |a|].operation == operation; }
    }
    if j :| 0 <= j < |a| && a[j].Advanced? && a[j].operation == operation { assert (a + b)[j].operation == operation; }
    if j :| 0 <= j < |b| && b[j].Advanced? && b[j].operation == operation { assert (a + b)[|a| + j].operation == operation; }
  }

  lemma AdvanceBeforeRefusal(s: Settlement, head: nat, generation: Option<nat>)
    requires !AllSafe(s)
    ensures (if s.quiesced then 2 else 1) < SafeCount(Terminal(s, head, generation)) <==>
      (s.quiesced ==> s.safe.quiesced) && (generation.Some? || s.safe.evidence)
  {
    var entries, b := Terminal(s, head, generation), if s.quiesced then 2 else 1;
    var c := SafeCount(entries);
    hide SafeCount;
    assert s.quiesced ==> entries[1].safe == s.safe.quiesced;
    assert generation.None? ==> entries[b].safe == s.safe.evidence;
    assert generation.Some? ==> entries[b].safe;
    assert entries[0].safe;
  }

  // What one settlement, run whole, gives back.
  lemma SettleOutcome(log: Log<Body>, k: nat, s: Settlement)
    requires EffectLog(log, k) && s.operation != ""
    ensures var generation := GenerationFor(s, log.rows);
      && (Settle(s, log.rows).None? <==> generation.Some? && generation.value + 1 > MAX_SAFE_INTEGER)
      && (Settle(s, log.rows).Some? ==>
            var out := AppendAll(log, Mint(k, Settle(s, log.rows).value)).out;
            && (out.Some? <==> AllSafe(s))
            && (out.Some? ==>
                  && NotInterleaved(out.value, |log.rows|) && EvidencePredicted(out.value, s.correlated)
                  && Advances(out.value) ==
                       if generation.None? then [] else [Advanced(s.operation, generation.value, generation.value + 1, true)]))
  {
    assert Continuous(Advances(log.rows));
    hide EffectLog;
    hide Advances;
    hide Continuous;
    var generation := GenerationFor(s, log.rows);
    if Settle(s, log.rows).Some? {
      SettleAppends(log, k, s);
      SafeIff(s, |log.rows|, generation);
      TerminalShape(s, |log.rows|, generation);
      var entries := Settle(s, log.rows).value;
      hide AppendAll;
      hide SafeCount;
      if AllSafe(s) { assert entries[..|entries|] == entries; }
      TerminalPredicts(s, k, |log.rows|, generation);
    }
  }

  // Numbering the terminal batch from the head puts the evidence row where its id says.
  lemma TerminalPredicts(s: Settlement, k: nat, head: nat, generation: Option<nat>)
    ensures var rows := Numbered(Mint(k, Terminal(s, head, generation)), head);
      NotInterleaved(rows, head) && EvidencePredicted(rows, s.correlated)
  {
  }

  lemma LaterNotOver(q: Queue<Body>, n: nat, k: nat)
    requires Serial(q, n) && k < |q.jobs| && Over(q.jobs[k])
    ensures k < n
  {
  }

  lemma OverSettled(q: Queue<Body>, k: nat, n: nat)
    requires k < n && Serial(q, n)
    ensures Underway(Replayed(q.jobs[..k + 1]), Replayed(q.jobs[..k]), k, q.jobs[k]) && Over(q.jobs[k])
  {
    assert Settled(q.jobs, k);
  }
}
