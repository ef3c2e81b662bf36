/**
 Reasoning batches: symbolic references between the intents of a batch are resolved, before the
 append, to ids that embed the sequence the log is about to assign.
 */
module ReasoningBatch {
  import opened Wrappers
  import opened EventLog
  import opened AdmissionQueue
  import opened PayloadPath

  function CanonicalType(t: string): string {
    match t
    case "objective" => "objective.set"
    case "hypothesis" => "hypothesis.created"
    case "assumption" => "assumption.recorded"
    case "alternative" => "alternative.deferred"
    case "decision" => "decision.recorded"
    case "link_evidence" => "evidence.linked"
    case "falsifier_evaluation" => "falsifier.evaluated"
    case "verification_contract" => "verification.planned"
    case _ => t
  }

  function KindOfType(t: string): Option<string> {
    match t
    case "objective" => Some("objective")
    case "objective.set" => Some("objective")
    case "hypothesis" => Some("hypothesis")
    case "hypothesis.created" => Some("hypothesis")
    case "assumption" => Some("assumption")
    case "assumption.recorded" => Some("assumption")
    case "alternative" => Some("alternative")
    case "alternative.deferred" => Some("alternative")
    case "decision" => Some("decision")
    case "decision.recorded" => Some("decision")
    case "verification_contract" => Some("verification_contract")
    case "verification.planned" => Some("verification_contract")
    case "falsifier_evaluation" => Some("falsifier_evaluation")
    case "falsifier.evaluated" => Some("falsifier_evaluation")
    case _ => None
  }

  function NodeKind(t: string): Option<string> {
    if KindOfType(t).Some? then KindOfType(t) else KindOfType(CanonicalType(t))
  }

  datatype Intent = Intent(kind: string, payload: Json)

  datatype Target = Target(intentIndex: int, path: string)

  datatype SymbolicRef = SymbolicRef(defines: int, references: seq<Target>)

  datatype Batch = Batch(intents: seq<Intent>, refs: seq<SymbolicRef>)

  // ----- which batches resolve -----

  predicate ValidTarget(n: nat, t: Target) {
    0 <= t.intentIndex < n && Parts(t.path) != []
  }

  predicate ValidRef(intents: seq<Intent>, r: SymbolicRef) {
    && 0 <= r.defines < |intents| && NodeKind(intents[r.defines].kind).Some?
    && (forall j | 0 <= j < |r.references| :: ValidTarget(|intents|, r.references[j]))
  }

  predicate AllObjects(intents: seq<Intent>) {
    forall i | 0 <= i < |intents| :: intents[i].payload.Object?
  }

  predicate ValidBatch(b: Batch) {
    AllObjects(b.intents) && forall i | 0 <= i < |b.refs| :: ValidRef(b.intents, b.refs[i])
  }

  // ----- the writes a batch makes, in order -----

  // `defines` is the intent whose id is written into the payload of `target`.
  datatype Write = Write(defines: int, target: Target)

  function WritesOf(defines: int, targets: seq<Target>): seq<Write> {
    seq(|targets|, j requires 0 <= j < |targets| => Write(defines, targets[j]))
  }

  function WritesUpTo(refs: seq<SymbolicRef>, n: nat): seq<Write>
    requires n <= |refs|
  {
    if n == 0 then [] else WritesUpTo(refs, n - 1) + WritesOf(refs[n - 1].defines, refs[n - 1].references)
  }

  function AllWrites(refs: seq<SymbolicRef>): seq<Write> {
    WritesUpTo(refs, |refs|)
  }

  function IdOf(session: string, head: nat, intents: seq<Intent>, defines: int): Json {
    if 0 <= defines < |intents| && NodeKind(intents[defines].kind).Some?
    then Reference(session, head + defines + 1, NodeKind(intents[defines].kind).value)
    else Illegal
  }

  function Written(payloads: seq<Json>, session: string, head: nat, intents: seq<Intent>, writes: seq<Write>): (r: seq<Json>)
    ensures |r| == |payloads|
    decreases |writes|
  {
    if writes == [] then payloads
    else
      var w := writes[|writes| - 1];
      var before := Written(payloads, session, head, intents, writes[..|writes| - 1]);
      if 0 <= w.target.intentIndex < |before|
      then before[w.target.intentIndex := SetIn(before[w.target.intentIndex], Parts(w.target.path), IdOf(session, head, intents, w.defines))]
      else before
  }

  predicate AllCanonical(payloads: seq<Json>) {
    forall i | 0 <= i < |payloads| :: Canonical(payloads[i])
  }

  function Payloads(intents: seq<Intent>): seq<Json> {
    seq(|intents|, i requires 0 <= i < |intents| => intents[i].payload)
  }

  function Resolution(session: string, head: nat, b: Batch): seq<Json> {
    Written(Payloads(b.intents), session, head, b.intents, AllWrites(b.refs))
  }

  lemma WrittenSnoc(payloads: seq<Json>, session: string, head: nat, intents: seq<Intent>, writes: seq<Write>, w: Write)
    requires 0 <= w.target.intentIndex < |payloads|
    ensures var before := Written(payloads, session, head, intents, writes);
      Written(payloads, session, head, intents, writes + [w]) ==
        before[w.target.intentIndex := SetIn(before[w.target.intentIndex], Parts(w.target.path), IdOf(session, head, intents, w.defines))]
  {
    assert (writes + [w])[..|writes|] == writes;
  }

  /** The targets of one reference; None stands for the throws. */
  method ResolveTargets(payloads: seq<Json>, resolvedId: Json, targets: seq<Target>, ghost session: string, ghost head: nat,
                        ghost intents: seq<Intent>, ghost defines: int, ghost start: seq<Json>, ghost before: seq<Write>)
      returns (r: Option<seq<Json>>)
    requires payloads == Written(start, session, head, intents, before) && resolvedId == IdOf(session, head, intents, defines)
    ensures r.Some? <==> forall j | 0 <= j < |targets| :: ValidTarget(|payloads|, targets[j])
    ensures r.Some? ==> r.value == Written(start, session, head, intents, before + WritesOf(defines, targets))
  {
    hide Written;
    hide Parts;
    ghost var here := WritesOf(defines, targets);
    var current := payloads;
    assert before + here[..0] == before;
    for j := 0 to |targets|
      invariant forall l | 0 <= l < j :: ValidTarget(|payloads|, targets[l])
      invariant |current| == |payloads| == |start|
      invariant current == Written(start, session, head, intents, before + here[..j])
    {
      var target := targets[j];
      if !(0 <= target.intentIndex < |current|) { return None; }
      var parts := Parts(target.path);
      if parts == [] { return None; }
      WrittenSnoc(start, session, head, intents, before + here[..j], here[j]);
      assert before + here[..j + 1] == (before + here[..j]) + [here[j]];
      current := current[target.intentIndex := SetIn(current[target.intentIndex], parts, resolvedId)];
    }
    assert here[..|targets|] == here;
    r := Some(current);
  }

  /** One symbolic reference: the id of the intent that defines it goes into every target. */
  method ResolveRef(payloads: seq<Json>, ref: SymbolicRef, session: string, head: nat, intents: seq<Intent>,
                    ghost start: seq<Json>, ghost before: seq<Write>) returns (r: Option<seq<Json>>)
    requires |payloads| == |intents| && payloads == Written(start, session, head, intents, before)
    ensures r.Some? <==> ValidRef(intents, ref)
    ensures r.Some? ==> |r.value| == |intents| && r.value == Written(start, session, head, intents, before + WritesOf(ref.defines, ref.references))
  {
    hide Written;
    hide ValidTarget;
    if !(0 <= ref.defines < |intents|) { return None; }
    var kind := NodeKind(intents[ref.defines].kind);
    if kind.None? { return None; }
    var resolvedId := Reference(session, head + ref.defines + 1, kind.value);
    r := ResolveTargets(payloads, resolvedId, ref.references, session, head, intents, ref.defines, start, before);
  }

  /** The copies of the payloads, which must all be objects. */
  method CopyPayloads(intents: seq<Intent>) returns (r: Option<seq<Json>>)
    ensures r.Some? <==> AllObjects(intents)
    ensures r.Some? ==> |r.value| == |intents| && r.value == Payloads(intents)
  {
    var payloads: seq<Json> := [];
    for i := 0 to |intents|
      invariant payloads == Payloads(intents)[..i]
      invariant forall j | 0 <= j < i :: intents[j].payload.Object?
    {
      if !intents[i].payload.Object? { return None; }
      payloads := payloads + [intents[i].payload];
    }
    r := Some(payloads);
  }

  /** The resolution of a whole batch; None stands for each of the throws. */
  method Resolve(session: string, head: nat, b: Batch) returns (r: Option<seq<Json>>)
    ensures r.Some? <==> ValidBatch(b)
    ensures r.Some? ==> r.value == Resolution(session, head, b)
  {
    var start := CopyPayloads(b.intents);
    if start.None? { return None; }
    hide Written;
    hide ValidRef;
    hide Payloads;
    hide AllObjects;
    hide WritesUpTo;
    var payloads := start.value;
    WrittenNothing(payloads, session, head, b.intents, b.refs);
    for i := 0 to |b.refs|
      invariant forall j | 0 <= j < i :: ValidRef(b.intents, b.refs[j])
      invariant |payloads| == |b.intents|
      invariant payloads == Written(start.value, session, head, b.intents, WritesUpTo(b.refs, i))
    {
      var next := ResolveRef(payloads, b.refs[i], session, head, b.intents, start.value, WritesUpTo(b.refs, i));
      if next.None? { return None; }
      WritesNext(b.refs, i);
      payloads := next.value;
    }
    r := Some(payloads);
  }

  lemma WrittenNothing(payloads: seq<Json>, session: string, head: nat, intents: seq<Intent>, refs: seq<SymbolicRef>)
    ensures Written(payloads, session, head, intents, WritesUpTo(refs, 0)) == payloads
  {
  }

  lemma WritesNext(refs: seq<SymbolicRef>, i: nat)
    requires i < |refs|
    ensures WritesUpTo(refs, i + 1) == WritesUpTo(refs, i) + WritesOf(refs[i].defines, refs[i].references)
  {
  }

  // ----- what the writes leave in the payloads -----

  // No later write touches the same payload along the same path.
  ghost predicate Survives(writes: seq<Write>, j: nat)
    requires j < |writes|
  {
    forall l | j < l < |writes| ::
      writes[l].target.intentIndex == writes[j].target.intentIndex ==>
        !Related(Parts(writes[l].target.path), Parts(writes[j].target.path))
  }

  lemma {:induction false} LastWriteStays(payloads: seq<Json>, session: string, head: nat, intents: seq<Intent>, writes: seq<Write>, j: nat)
    requires j < |writes| && 0 <= writes[j].target.intentIndex < |payloads| && Survives(writes, j)
    ensures GetIn(Written(payloads, session, head, intents, writes)[writes[j].target.intentIndex], Parts(writes[j].target.path))
      == Some(IdOf(session, head, intents, writes[j].defines))
    decreases |writes|
  {
    var n := |writes| - 1;
    var before := Written(payloads, session, head, intents, writes[..n]);
    var w, i := writes[n], writes[j].target.intentIndex;
    if j == n {
      GetSet(before[i], Parts(w.target.path), IdOf(session, head, intents, w.defines));
    } else {
      assert writes[..n][j] == writes[j];
      LastWriteStays(payloads, session, head, intents, writes[..n], j);
      if w.target.intentIndex == i {
        GetOther(before[i], Parts(w.target.path), IdOf(session, head, intents, w.defines), Parts(writes[j].target.path));
      }
    }
  }

  lemma {:induction false} OtherPathsStay(payloads: seq<Json>, session: string, head: nat, intents: seq<Intent>, writes: seq<Write>,
                                          i: nat, path: seq<string>)
    requires i < |payloads|
    requires forall l | 0 <= l < |writes| :: writes[l].target.intentIndex == i ==> !Related(Parts(writes[l].target.path), path)
    ensures GetIn(Written(payloads, session, head, intents, writes)[i], path) == GetIn(payloads[i], path)
    decreases |writes|
  {
    if writes != [] {
      var n := |writes| - 1;
      var w := writes[n];
      forall l | 0 <= l < n ensures writes[..n][l] == writes[l] { }
      OtherPathsStay(payloads, session, head, intents, writes[..n], i, path);
      if w.target.intentIndex == i {
        GetOther(Written(payloads, session, head, intents, writes[..n])[i], Parts(w.target.path),
                 IdOf(session, head, intents, w.defines), path);
      }
    }
  }

  // ----- the batch as a work of the queue -----

  function Entries(session: string, head: nat, b: Batch): seq<Entry<Intent>> {
    var resolved := Resolution(session, head, b);
    seq(|b.intents|, i requires 0 <= i < |b.intents| =>
      Entry(None, Canonical(resolved[i]), Intent(CanonicalType(b.intents[i].kind), resolved[i])))
  }

  function Build(session: string, b: Batch, rows: seq<Row<Intent>>): Option<seq<Entry<Intent>>> {
    if ValidBatch(b) then Some(Entries(session, |rows|, b)) else None
  }

  ghost predicate BatchWork(w: Work<Intent>, session: string, b: Batch) {
    w.ReadThen? && forall rows :: w.build(rows) == Build(session, b, rows)
  }

  // Ids of drafts that come from outside the queue are not minted by it.
  ghost predicate ForeignIds<T(!new)>(w: Work<T>) {
    w.AppendNow? ==> forall d | d in w.drafts :: d.id.Given?
  }

  ghost predicate MintedBelow<T(!new)>(log: Log<T>, works: nat) {
    forall id | id in log.byId && id.Minted? :: id.work < works
  }

  lemma {:induction false} AppendMints<T(!new)>(log: Log<T>, drafts: seq<Draft<T>>, works: nat)
    requires MintedBelow(log, works) && forall d | d in drafts :: d.id.Minted? ==> d.id.work < works
    ensures MintedBelow(AppendAll(log, drafts).log, works)
    decreases |drafts|
  {
    if drafts != [] && drafts[0].safe {
      AppendFirst(log, drafts);
      assert drafts[0] in drafts;
      AppendMints(After(log, drafts[0]), drafts[1..], works);
    }
  }

  lemma {:induction false} ReplayMints<T(!new)>(jobs: seq<Job<T>>)
    requires forall i | 0 <= i < |jobs| :: ForeignIds(jobs[i].work)
    ensures MintedBelow(Replayed(jobs), |jobs|)
    decreases |jobs|
  {
    if jobs != [] {
      var n := |jobs| - 1;
      var base := Replayed(jobs[..n]);
      var built := Built(n, jobs[n].work, base.rows);
      ReplayMints(jobs[..n]);
      if built.Some? { AppendMints(base, built.value, n + 1); }
    }
  }

  // The drafts of a batch are its own and carry no keys.
  lemma BatchFresh(log: Log<Intent>, k: nat, entries: seq<Entry<Intent>>)
    requires MintedBelow(log, k) && forall i | 0 <= i < |entries| :: entries[i].key.None? && entries[i].safe
    ensures FreshBatch(log, Mint(k, entries))
  {
  }

  lemma {:induction false} UnsafeFails(log: Log<Intent>, k: nat, entries: seq<Entry<Intent>>)
    requires WellFormed(log)
    ensures AppendAll(log, Mint(k, entries)).out.Some? ==> forall i | 0 <= i < |entries| :: entries[i].safe
  {
    if AppendAll(log, Mint(k, entries)).out.Some? {
      AppendCovers(log, Mint(k, entries));
      forall i | 0 <= i < |entries| ensures entries[i].safe { assert Mint(k, entries)[i].safe; }
    }
  }

  lemma EntriesSafe(session: string, head: nat, b: Batch)
    ensures (forall i | 0 <= i < |b.intents| :: Entries(session, head, b)[i].safe) <==> AllCanonical(Resolution(session, head, b))
  {
    var resolved := Resolution(session, head, b);
    forall i | 0 <= i < |b.intents| ensures Entries(session, head, b)[i].safe <==> Canonical(resolved[i]) { }
  }

  // What a resolved batch, run whole, gives back.
  lemma BatchAppends(log: Log<Intent>, k: nat, session: string, b: Batch)
    requires WellFormed(log) && MintedBelow(log, k)
    ensures var out := AppendAll(log, Mint(k, Entries(session, |log.rows|, b))).out;
      && (out.Some? <==> AllCanonical(Resolution(session, |log.rows|, b)))
      && (out.Some? ==>
            && |out.value| == |b.intents| && NotInterleaved(out.value, |log.rows|)
            && (forall i | 0 <= i < |b.intents| ::
                  out.value[i].draft.body == Intent(CanonicalType(b.intents[i].kind), Resolution(session, |log.rows|, b)[i])))
  {
    var entries := Entries(session, |log.rows|, b);
    EntriesSafe(session, |log.rows|, b);
    UnsafeFails(log, k, entries);
    hide Canonical;
    hide Written;
    hide AppendAll;
    if AllCanonical(Resolution(session, |log.rows|, b)) {
      BatchFresh(log, k, entries);
      FreshAppend(log, Mint(k, entries));
    }
  }

  ghost predicate Queued(q: Queue<Intent>, k: nat, session: string, b: Batch) {
    && Reachable(q) && k < |q.jobs| && BatchWork(q.jobs[k].work, session, b)
    && (forall i | 0 <= i < |q.jobs| :: ForeignIds(q.jobs[i].work))
  }

  lemma JobOver(q: Queue<Intent>, k: nat)
    requires Reachable(q) && k < |q.jobs| && Over(q.jobs[k])
    ensures var base := Replayed(q.jobs[..k]);
      && WellFormed(base)
      && Perform(base, k, q.jobs[k].work).out == if q.jobs[k].stage.Fulfilled? then Some(q.jobs[k].stage.rows) else None
  {
    ReachableInv(q);
    var n: nat :| Serial(q, n);
    assert k < n;
    assert Settled(q.jobs, k);
    ReplayedWellFormed(q.jobs[..k]);
  }

  /**
   A batch fails exactly if it does not resolve or resolves to a payload that is not canonical;
   otherwise it is appended whole and its "interleaved" guard passes.
   */
  lemma BatchOutcome(q: Queue<Intent>, k: nat, session: string, b: Batch)
    requires Queued(q, k, session, b) && Over(q.jobs[k])
    ensures var head, stage := |Replayed(q.jobs[..k]).rows|, q.jobs[k].stage;
      && (stage.Failed? <==> !ValidBatch(b) || !AllCanonical(Resolution(session, head, b)))
      && (stage.Fulfilled? ==>
            && |stage.rows| == |b.intents| && NotInterleaved(stage.rows, head)
            && (forall i | 0 <= i < |b.intents| ::
                  stage.rows[i].draft.body == Intent(CanonicalType(b.intents[i].kind), Resolution(session, head, b)[i])))
  {
    JobOver(q, k);
    ReplayMints(q.jobs[..k]);
    BatchAppends(Replayed(q.jobs[..k]), k, session, b);
  }

  /**
   Every symbolic reference that no later one overwrites holds the id of the event that its defining
   intent became: the sequence in the id is the one the log assigned.
   */
  lemma ReferencesNameTheirEvents(q: Queue<Intent>, k: nat, session: string, b: Batch, j: nat)
    requires Queued(q, k, session, b) && q.jobs[k].stage.Fulfilled?
    requires j < |AllWrites(b.refs)| && Survives(AllWrites(b.refs), j)
    ensures var w, rows := AllWrites(b.refs)[j], q.jobs[k].stage.rows;
      && 0 <= w.defines < |b.intents| == |rows| && 0 <= w.target.intentIndex < |rows|
      && NodeKind(b.intents[w.defines].kind).Some?
      && GetIn(rows[w.target.intentIndex].draft.body.payload, Parts(w.target.path)) ==
           Some(Reference(session, rows[w.defines].sequence, NodeKind(b.intents[w.defines].kind).value))
  {
    hide Reachable;
    hide Resolution;
    BatchOutcome(q, k, session, b);
    WriteOfRef(b, j);
    ReferenceStays(session, |Replayed(q.jobs[..k]).rows|, b, j);
  }

  lemma {:induction false} WriteOf(refs: seq<SymbolicRef>, n: nat, j: nat)
    requires n <= |refs| && j < |WritesUpTo(refs, n)|
    ensures exists i, l ::
      (0 <= i < |refs| && 0 <= l < |refs[i].references| && WritesUpTo(refs, n)[j] == Write(refs[i].defines, refs[i].references[l]))
    decreases n
  {
    var before := WritesUpTo(refs, n - 1);
    if j < |before| {
      WriteOf(refs, n - 1, j);
    } else {
      assert WritesUpTo(refs, n)[j] == Write(refs[n - 1].defines, refs[n - 1].references[j - |before|]);
    }
  }

  lemma WriteOfRef(b: Batch, j: nat)
    requires ValidBatch(b) && j < |AllWrites(b.refs)|
    ensures var w := AllWrites(b.refs)[j];
      0 <= w.defines < |b.intents| && NodeKind(b.intents[w.defines].kind).Some? && ValidTarget(|b.intents|, w.target)
  {
    WriteOf(b.refs, |b.refs|, j);
    var i, l :| 0 <= i < |b.refs| && 0 <= l < |b.refs[i].references| &&
      AllWrites(b.refs)[j] == Write(b.refs[i].defines, b.refs[i].references[l]);
    assert ValidRef(b.intents, b.refs[i]) && ValidTarget(|b.intents|, b.refs[i].references[l]);
  }

  lemma ReferenceStays(session: string, head: nat, b: Batch, j: nat)
    requires ValidBatch(b) && j < |AllWrites(b.refs)| && Survives(AllWrites(b.refs), j)
    requires ValidTarget(|b.intents|, AllWrites(b.refs)[j].target)
    ensures var w := AllWrites(b.refs)[j];
      GetIn(Resolution(session, head, b)[w.target.intentIndex], Parts(w.target.path)) == Some(IdOf(session, head, b.intents, w.defines))
  {
    LastWriteStays(Payloads(b.intents), session, head, b.intents, AllWrites(b.refs), j);
  }

  /** Resolving changes a payload only along the paths that are references of the batch. */
  lemma OnlyReferencesChange(session: string, head: nat, b: Batch, i: nat, path: seq<string>)
    requires i < |b.intents|
    requires forall l | 0 <= l < |AllWrites(b.refs)| ::
      AllWrites(b.refs)[l].target.intentIndex == i ==> !Related(Parts(AllWrites(b.refs)[l].target.path), path)
    ensures GetIn(Resolution(session, head, b)[i], path) == GetIn(b.intents[i].payload, path)
  {
    OtherPathsStay(Payloads(b.intents), session, head, b.intents, AllWrites(b.refs), i, path);
  }
}
