/** The public projection of a session: entities, events, and the reducer that a client folds over them. */
module PublicProtocol {
  import opened Wrappers
  import opened Ordering

  datatype Role = User | Assistant | ToolResult

  datatype Message = Message(eventId: string, sequence: nat, role: Role, text: string)

  datatype ExecutionStatus = Running | CancelRequested | Completed

  datatype Execution = Execution(executionId: string, sourceCommandId: string, status: ExecutionStatus, startedAt: string,
                                 completedAt: Option<string>)

  datatype Lifecycle = Requested | Started | Terminal
  datatype Outcome = Succeeded | Failed | Cancelled | TimedOut
  datatype EffectStatus = Confirmed | Absent | Indeterminate | NotApplicable
  datatype Reconciliation = NotRequired | Pending | Resolved | Unresolved

  datatype Operation = Operation(operationId: string, toolName: string, lifecycle: Lifecycle, outcome: Option<Outcome>,
                                 effect: EffectStatus, reconciliation: Reconciliation, startedAt: Option<string>, completedAt: Option<string>)

  datatype QueueItem = QueueItem(queueItemId: string, sourceCommandId: string, position: int, text: string, admittedAt: string)

  datatype Decision = AllowOnce | AllowAlways | Deny

  // `resolved` holds the decision once there is one; until then the interaction is pending.
  datatype Interaction = Interaction(interactionId: string, toolName: string, description: string, operationId: Option<string>,
                                     resolved: Option<Decision>)

  datatype SessionStatus = Active | Stopped

  datatype Disposition = AUTO | START_NOW | GUIDE | QUEUE

  datatype Body =
    | SessionUpdated(status: SessionStatus)
    | TranscriptAppended(message: Message)
    | OperationUpserted(operation: Operation)
    | InputAdmitted(commandId: string, text: string, requested: Disposition, admitted: Disposition,
                    fallback: Option<string>, target: Option<string>, item: Option<string>)
    | ExecutionUpserted(execution: Execution)
    | QueueUpserted(queueItem: QueueItem)
    | QueueRemoved(queueItemId: string)
    | PermissionUpserted(interaction: Interaction)
    | OutputDelta(delta: string)
    | ProtocolTerminal

  datatype Cause = ByUser | ByHost | ByAgent | ByCapability | ByRecovery

  datatype PublicEvent = PublicEvent(sessionId: string, fromCursor: nat, sequence: nat, occurredAt: string, cause: Cause, body: Body)

  datatype Session = Session(status: SessionStatus, active: Option<string>)

  datatype Snapshot = Snapshot(sessionId: string, cursor: nat, session: Session, transcript: seq<Message>, executions: seq<Execution>,
                               operations: seq<Operation>, queue: seq<QueueItem>, pending: seq<Interaction>)

  function Initial(sessionId: string): Snapshot {
    Snapshot(sessionId, 0, Session(Active, None), [], [], [], [], [])
  }

  // ----- lists keyed by id -----

  /** The first item with this id. */
  function Lookup<T>(items: seq<T>, getId: T -> string, id: string): Option<T> {
    if items == [] then None
    else if getId(items[0]) == id then Some(items[0])
    else Lookup(items[1..], getId, id)
  }

  function UpsertById<T>(items: seq<T>, getId: T -> string, value: T): seq<T> {
    if items == [] then [value]
    else if getId(items[0]) == getId(value) then [value] + items[1..]
    else [items[0]] + UpsertById(items[1..], getId, value)
  }

  ghost predicate Distinct<T(!new)>(items: seq<T>, getId: T -> string) {
    forall i, j | 0 <= i < j < |items| :: getId(items[i]) != getId(items[j])
  }

  lemma {:induction false} LookupUpsert<T>(items: seq<T>, getId: T -> string, value: T, id: string)
    ensures Lookup(UpsertById(items, getId, value), getId, id) == if id == getId(value) then Some(value) else Lookup(items, getId, id)
    decreases |items|
  {
    if items != [] && getId(items[0]) != getId(value) { LookupUpsert(items[1..], getId, value, id); }
  }

  lemma {:induction false} UpsertIds<T>(items: seq<T>, getId: T -> string, value: T, x: T)
    ensures x in UpsertById(items, getId, value) ==> x == value || (x in items)
    ensures value in UpsertById(items, getId, value)
    decreases |items|
  {
    if items != [] && getId(items[0]) != getId(value) { UpsertIds(items[1..], getId, value, x); }
  }

  lemma {:induction false} UpsertDistinct<T(!new)>(items: seq<T>, getId: T -> string, value: T)
    requires Distinct(items, getId)
    ensures Distinct(UpsertById(items, getId, value), getId)
    decreases |items|
  {
    if items != [] && getId(items[0]) != getId(value) {
      var rest := items[1..];
      UpsertDistinct(rest, getId, value);
      var next := UpsertById(rest, getId, value);
      forall j | 0 <= j < |next| ensures getId(items[0]) != getId(next[j]) {
        UpsertIds(rest, getId, value, next[j]);
        if next[j] != value { var k :| 0 <= k < |rest| && rest[k] == next[j]; assert items[k + 1] == next[j]; }
      }
    }
  }

  // ----- the queue's order -----

  predicate QueueLe(a: QueueItem, b: QueueItem) {
    a.position < b.position || (a.position == b.position && LexLe(Units(a.queueItemId), Units(b.queueItemId)))
  }

  function InsertItem(x: QueueItem, items: seq<QueueItem>): seq<QueueItem> {
    if items == [] || QueueLe(x, items[0]) then [x] + items else [items[0]] + InsertItem(x, items[1..])
  }

  function SortQueue(items: seq<QueueItem>): seq<QueueItem> {
    if items == [] then [] else InsertItem(items[0], SortQueue(items[1..]))
  }

  ghost predicate QueueSorted(items: seq<QueueItem>) {
    forall i, j | 0 <= i < j < |items| :: QueueLe(items[i], items[j])
  }

  lemma QueueLeTotal(a: QueueItem, b: QueueItem)
    ensures QueueLe(a, b) || QueueLe(b, a)
  {
    LexTotal(Units(a.queueItemId), Units(b.queueItemId));
  }

  lemma QueueLeTransitive(a: QueueItem, b: QueueItem, c: QueueItem)
    requires QueueLe(a, b) && QueueLe(b, c)
    ensures QueueLe(a, c)
  {
    if a.position == b.position == c.position { LexTransitive(Units(a.queueItemId), Units(b.queueItemId), Units(c.queueItemId)); }
  }

  lemma {:induction false} InsertSorts(x: QueueItem, items: seq<QueueItem>)
    requires QueueSorted(items)
    ensures QueueSorted(InsertItem(x, items)) && multiset(InsertItem(x, items)) == multiset(items) + multiset{x}
    decreases |items|
  {
    var r := InsertItem(x, items);
    if items == [] || QueueLe(x, items[0]) {
      forall i, j | 0 <= i < j < |r| ensures QueueLe(r[i], r[j]) {
        if i == 0 && j > 1 { QueueLeTransitive(x, items[0], items[j - 1]); }
      }
    } else {
      QueueLeTotal(x, items[0]);
      InsertSorts(x, items[1..]);
      assert items == [items[0]] + items[1..];
      forall j | 0 < j < |r| ensures QueueLe(r[0], r[j]) {
        assert r[j] in multiset(InsertItem(x, items[1..]));
        assert r[j] == x || r[j] in items[1..];
      }
    }
  }

  /** Sorting gives the items back, in order of position and then id. */
  lemma {:induction false} SortQueueSorts(items: seq<QueueItem>)
    ensures QueueSorted(SortQueue(items)) && multiset(SortQueue(items)) == multiset(items)
    decreases |items|
  {
    if items != [] {
      SortQueueSorts(items[1..]);
      InsertSorts(items[0], SortQueue(items[1..]));
      assert items == [items[0]] + items[1..];
    }
  }

  // ----- the reducer -----

  function ExecutionId(e: Execution): string { e.executionId }
  function OperationId(o: Operation): string { o.operationId }
  function ItemId(i: QueueItem): string { i.queueItemId }
  function InteractionId(i: Interaction): string { i.interactionId }

  function PendingOf(items: seq<Interaction>): seq<Interaction> {
    if items == [] then []
    else (if items[0].resolved.None? then [items[0]] else []) + PendingOf(items[1..])
  }

  function WithoutItem(items: seq<QueueItem>, id: string): seq<QueueItem> {
    if items == [] then []
    else (if items[0].queueItemId != id then [items[0]] else []) + WithoutItem(items[1..], id)
  }

  /** The last execution of the list that is not completed. */
  function CurrentExecution(items: seq<Execution>): Option<string> {
    if items == [] then None
    else if items[|items| - 1].status != Completed then Some(items[|items| - 1].executionId)
    else CurrentExecution(items[..|items| - 1])
  }

  datatype ReduceError = SessionMismatch | SequenceGap(expected: nat, received: nat) | MustAdvance

  function Reduced(s: Snapshot, body: Body, sequence: nat): Snapshot {
    var next := s.(cursor := sequence);
    match body
    case TranscriptAppended(message) => next.(transcript := s.transcript + [message])
    case ExecutionUpserted(execution) =>
      var executions := UpsertById(s.executions, ExecutionId, execution);
      next.(executions := executions, session := Session(s.session.status, CurrentExecution(executions)))
    case OperationUpserted(operation) => next.(operations := UpsertById(s.operations, OperationId, operation))
    case QueueUpserted(item) => next.(queue := SortQueue(UpsertById(s.queue, ItemId, item)))
    case QueueRemoved(id) => next.(queue := WithoutItem(s.queue, id))
    case PermissionUpserted(interaction) => next.(pending := PendingOf(UpsertById(s.pending, InteractionId, interaction)))
    case SessionUpdated(status) => next.(session := Session(status, None))
    case InputAdmitted(_, _, _, _, _, _, _) => next
    case OutputDelta(_) => next
    case ProtocolTerminal => next.(session := Session(Stopped, None))
  }

  function Reduce(s: Snapshot, e: PublicEvent): Result<Snapshot, ReduceError> {
    if e.sessionId != s.sessionId then Err(SessionMismatch)
    else if e.fromCursor != s.cursor then Err(SequenceGap(s.cursor, e.fromCursor))
    else if e.sequence <= e.fromCursor then Err(MustAdvance)
    else Ok(Reduced(s, e.body, e.sequence))
  }

  function ReduceAll(s: Snapshot, events: seq<PublicEvent>): Result<Snapshot, ReduceError>
    decreases |events|
  {
    if events == [] then Ok(s)
    else match Reduce(s, events[0])
      case Ok(next) => ReduceAll(next, events[1..])
      case Err(e) => Err(e)
  }

  lemma {:induction false} ReduceConcat(s: Snapshot, a: seq<PublicEvent>, b: seq<PublicEvent>)
    ensures ReduceAll(s, a + b) == match ReduceAll(s, a) case Ok(next) => ReduceAll(next, b) case Err(e) => Err(e)
    decreases |a|
  {
    if a == [] {
      assert a + b == b;
    } else {
      assert (a + b)[1..] == a[1..] + b;
      match Reduce(s, a[0])
      case Ok(next) => ReduceConcat(next, a[1..], b);
      case Err(_) =>
    }
  }

  // ----- chains -----

  ghost predicate Link(sessionId: string, cursor: nat, e: PublicEvent) {
    e.sessionId == sessionId && e.fromCursor == cursor && e.sequence > cursor
  }

  ghost predicate LinkAt(sessionId: string, cursor: nat, events: seq<PublicEvent>, i: nat)
    requires i < |events|
  {
    Link(sessionId, if i == 0 then cursor else events[i - 1].sequence, events[i])
  }

  /** Every event continues the one before it, from `cursor` on, for one session. */
  ghost predicate Chained(sessionId: string, cursor: nat, events: seq<PublicEvent>) {
    forall i | 0 <= i < |events| :: LinkAt(sessionId, cursor, events, i)
  }

  function EndOf(cursor: nat, events: seq<PublicEvent>): nat {
    if events == [] then cursor else events[|events| - 1].sequence
  }

  /** The reducer accepts a list of events exactly if it is a chain that starts at the snapshot's cursor. */
  lemma {:induction false} ReducesIffChained(s: Snapshot, events: seq<PublicEvent>)
    ensures ReduceAll(s, events).Ok? <==> Chained(s.sessionId, s.cursor, events)
    ensures ReduceAll(s, events).Ok? ==>
      ReduceAll(s, events).value.cursor == EndOf(s.cursor, events) && ReduceAll(s, events).value.sessionId == s.sessionId
    decreases |events|
  {
    if events != [] {
      match Reduce(s, events[0])
      case Ok(next) =>
        ReducesIffChained(next, events[1..]);
        ChainedFirst(s.sessionId, s.cursor, events);
      case Err(_) => NotChained(s, events);
    }
  }

  lemma NotChained(s: Snapshot, events: seq<PublicEvent>)
    requires events != [] && Reduce(s, events[0]).Err?
    ensures !Chained(s.sessionId, s.cursor, events)
  {
    assert !LinkAt(s.sessionId, s.cursor, events, 0);
  }

  lemma ChainedFirst(sessionId: string, cursor: nat, events: seq<PublicEvent>)
    requires events != [] && Link(sessionId, cursor, events[0])
    ensures Chained(sessionId, cursor, events) <==> Chained(sessionId, events[0].sequence, events[1..])
  {
    var rest := events[1..];
    if Chained(sessionId, cursor, events) {
      forall i | 0 <= i < |rest| ensures LinkAt(sessionId, events[0].sequence, rest, i) {
        assert LinkAt(sessionId, cursor, events, i + 1);
      }
    }
    if Chained(sessionId, events[0].sequence, rest) {
      forall i | 0 <= i < |events| ensures LinkAt(sessionId, cursor, events, i) {
        if i > 0 { assert LinkAt(sessionId, events[0].sequence, rest, i - 1); }
      }
    }
  }

  /** Cursors strictly increase along a chain. */
  lemma {:induction false} ChainIncreases(sessionId: string, cursor: nat, events: seq<PublicEvent>, i: nat, j: nat)
    requires Chained(sessionId, cursor, events) && i < j < |events|
    ensures cursor < events[i].sequence < events[j].sequence
    decreases j
  {
    assert LinkAt(sessionId, cursor, events, j) && LinkAt(sessionId, cursor, events, i);
    if i + 1 < j { ChainIncreases(sessionId, cursor, events, i, j - 1); }
    if i > 0 { ChainIncreases(sessionId, cursor, events, i - 1, i); }
  }

  // ----- what every snapshot keeps -----

  ghost predicate SnapshotOk(s: Snapshot) {
    && Distinct(s.executions, ExecutionId) && Distinct(s.operations, OperationId)
    && Distinct(s.queue, ItemId) && Distinct(s.pending, InteractionId)
    && QueueSorted(s.queue)
    && (forall i | 0 <= i < |s.pending| :: s.pending[i].resolved.None?)
    && (s.session.active.Some? ==> s.session.active == CurrentExecution(s.executions))
  }

  lemma {:induction false} PendingIn(items: seq<Interaction>, x: Interaction)
    ensures x in PendingOf(items) <==> x in items && x.resolved.None?
    decreases |items|
  {
    if items != [] {
      PendingIn(items[1..], x);
      assert x in items <==> x == items[0] || x in items[1..];
    }
  }

  lemma {:induction false} PendingDistinct(items: seq<Interaction>)
    requires Distinct(items, InteractionId)
    ensures Distinct(PendingOf(items), InteractionId)
    decreases |items|
  {
    if items != [] {
      var rest := PendingOf(items[1..]);
      PendingDistinct(items[1..]);
      forall j | 0 <= j < |rest| ensures InteractionId(items[0]) != InteractionId(rest[j]) {
        PendingIn(items[1..], rest[j]);
        var k :| 0 <= k < |items[1..]| && items[1..][k] == rest[j];
        assert items[k + 1] == rest[j];
      }
    }
  }

  lemma {:induction false} WithoutIn(items: seq<QueueItem>, id: string, x: QueueItem)
    ensures x in WithoutItem(items, id) <==> x in items && x.queueItemId != id
    decreases |items|
  {
    if items != [] {
      WithoutIn(items[1..], id, x);
      assert x in items <==> x == items[0] || x in items[1..];
    }
  }

  lemma {:induction false} WithoutKeeps(items: seq<QueueItem>, id: string)
    requires Distinct(items, ItemId) && QueueSorted(items)
    ensures Distinct(WithoutItem(items, id), ItemId) && QueueSorted(WithoutItem(items, id))
    decreases |items|
  {
    if items != [] {
      var rest := WithoutItem(items[1..], id);
      WithoutKeeps(items[1..], id);
      forall j | 0 <= j < |rest| ensures ItemId(items[0]) != ItemId(rest[j]) && QueueLe(items[0], rest[j]) {
        WithoutIn(items[1..], id, rest[j]);
        var k :| 0 <= k < |items[1..]| && items[1..][k] == rest[j];
        assert items[k + 1] == rest[j];
      }
    }
  }

  lemma DistinctByCount(items: seq<QueueItem>, sorted: seq<QueueItem>)
    requires Distinct(items, ItemId) && multiset(items) == multiset(sorted)
    ensures Distinct(sorted, ItemId)
  {
    forall i, j | 0 <= i < j < |sorted| ensures ItemId(sorted[i]) != ItemId(sorted[j]) {
      assert sorted[i] in multiset(items) && sorted[j] in multiset(items);
      var k :| 0 <= k < |items| && items[k] == sorted[i];
      var l :| 0 <= l < |items| && items[l] == sorted[j];
      if k == l {
        TwiceCounted(sorted, i, j);
        OnceCounted(items, k);
      }
    }
  }

  lemma TwiceCounted(items: seq<QueueItem>, i: nat, j: nat)
    requires i < j < |items| && items[i] == items[j]
    ensures multiset(items)[items[i]] >= 2
  {
    assert items == items[..j] + [items[j]] + items[j + 1..];
    assert items[..j][i] == items[j];
  }

  lemma OnceCounted(items: seq<QueueItem>, k: nat)
    requires k < |items| && Distinct(items, ItemId)
    ensures multiset(items)[items[k]] == 1
  {
    assert items == items[..k] + [items[k]] + items[k + 1..];
    forall i | 0 <= i < |items| && i != k ensures items[i] != items[k] {
      assert ItemId(items[i]) != ItemId(items[k]);
    }
  }

  /** The reducer keeps ids unique, the queue in order of position and id, and only pending interactions. */
  lemma ReduceKeeps(s: Snapshot, body: Body, sequence: nat)
    requires SnapshotOk(s)
    ensures SnapshotOk(Reduced(s, body, sequence))
  {
    match body
    case ExecutionUpserted(x) => UpsertDistinct(s.executions, ExecutionId, x);
    case OperationUpserted(x) => UpsertDistinct(s.operations, OperationId, x);
    case QueueUpserted(x) =>
      var items := UpsertById(s.queue, ItemId, x);
      UpsertDistinct(s.queue, ItemId, x);
      SortQueueSorts(items);
      DistinctByCount(items, SortQueue(items));
    case QueueRemoved(id) => WithoutKeeps(s.queue, id);
    case PermissionUpserted(x) =>
      var items := UpsertById(s.pending, InteractionId, x);
      UpsertDistinct(s.pending, InteractionId, x);
      PendingDistinct(items);
      forall i | 0 <= i < |PendingOf(items)| ensures PendingOf(items)[i].resolved.None? { PendingIn(items, PendingOf(items)[i]); }
    case _ =>
  }
}
