/** Snapshots of the public stream: what they say about the log, and recovery from a cursor. */
module PublicSnapshots {
  import opened Wrappers
  import opened PublicProtocol
  import opened PublicStream

  // ----- snapshots -----

  function GetSnapshot(sessionId: string, events: seq<DomainEvent>): Result<Snapshot, ReduceError> {
    ReduceAll(Initial(sessionId), PublicEvents(sessionId, events))
  }

  /** The reducer never throws on the stream. */
  lemma SnapshotExists(sessionId: string, events: seq<DomainEvent>)
    requires Ordered(events)
    ensures GetSnapshot(sessionId, events).Ok?
    ensures GetSnapshot(sessionId, events).value.cursor == EndOf(0, PublicEvents(sessionId, events))
    ensures GetSnapshot(sessionId, events).value.sessionId == sessionId
  {
    StreamChained(sessionId, events);
    ReducesIffChained(Initial(sessionId), PublicEvents(sessionId, events));
  }

  // ----- what a snapshot says -----

  /** The queue as the log tells it: admitted and not promoted since. */
  function Waiting(events: seq<DomainEvent>, n: nat): map<string, QueueItem>
    requires n <= |events|
  {
    if n == 0 then map[]
    else
      var e := events[n - 1];
      match e.body
      case QueueItemAdmitted(id, command, position, text, admittedAt) =>
        Waiting(events, n - 1)[id := QueueItem(id, command, position, text, Or(admittedAt, e.occurredAt))]
      case QueueItemPromoted(id) => Waiting(events, n - 1) - {id}
      case _ => Waiting(events, n - 1)
  }

  function Transcript(events: seq<DomainEvent>, n: nat): seq<Message>
    requires n <= |events|
  {
    if n == 0 then []
    else
      var e := events[n - 1];
      match e.body
      case MessageAppended(role, text) => Transcript(events, n - 1) + [Message(e.eventId, e.sequence, role, text)]
      case _ => Transcript(events, n - 1)
  }

  // The keys of the local maps are the ids of what they hold.
  ghost predicate Keyed(t: Projection) {
    && (forall id | id in t.executions :: t.executions[id].executionId == id)
    && (forall id | id in t.operations :: t.operations[id].operationId == id)
    && (forall id | id in t.permissions :: t.permissions[id].interactionId == id)
  }

  function StillPending(m: map<string, Interaction>, id: string): Option<Interaction> {
    if id in m && m[id].resolved.None? then Some(m[id]) else None
  }

  ghost predicate MirrorsMaps(t: Projection, s: Snapshot) {
    && (forall id :: Lookup(s.executions, ExecutionId, id) == Get(t.executions, id))
    && (forall id :: Lookup(s.operations, OperationId, id) == Get(t.operations, id))
    && (forall id :: Lookup(s.pending, InteractionId, id) == StillPending(t.permissions, id))
  }

  ghost predicate MirrorsLog(events: seq<DomainEvent>, n: nat, s: Snapshot)
    requires n <= |events|
  {
    s.transcript == Transcript(events, n) && forall id :: Lookup(s.queue, ItemId, id) == Get(Waiting(events, n), id)
  }

  lemma {:induction false} LookupIff<T(!new)>(items: seq<T>, getId: T -> string, x: T)
    requires Distinct(items, getId)
    ensures Lookup(items, getId, getId(x)) == Some(x) <==> x in items
    decreases |items|
  {
    if items != [] {
      assert x in items <==> x == items[0] || x in items[1..];
      if getId(items[0]) != getId(x) {
        LookupIff(items[1..], getId, x);
      } else if x != items[0] {
        forall i | 0 <= i < |items| ensures items[i] != x { if i > 0 { assert getId(items[0]) != getId(items[i]); } }
      }
    }
  }

  lemma {:induction false} LookupHas<T>(items: seq<T>, getId: T -> string, id: string)
    ensures var r := Lookup(items, getId, id); r.Some? ==> r.value in items && getId(r.value) == id
    decreases |items|
  {
    if items != [] { LookupHas(items[1..], getId, id); }
  }

  // Lists with the same members, each with unique ids, look up the same.
  lemma LookupSame<T(!new)>(a: seq<T>, b: seq<T>, getId: T -> string, id: string)
    requires Distinct(a, getId) && Distinct(b, getId) && forall x :: x in a <==> x in b
    ensures Lookup(a, getId, id) == Lookup(b, getId, id)
  {
    LookupHas(a, getId, id);
    LookupHas(b, getId, id);
    if Lookup(a, getId, id).Some? { LookupIff(b, getId, Lookup(a, getId, id).value); }
    if Lookup(b, getId, id).Some? { LookupIff(a, getId, Lookup(b, getId, id).value); }
  }

  lemma LookupSorted(items: seq<QueueItem>, id: string)
    requires Distinct(items, ItemId)
    ensures Lookup(SortQueue(items), ItemId, id) == Lookup(items, ItemId, id)
  {
    SortQueueSorts(items);
    DistinctByCount(items, SortQueue(items));
    forall x ensures x in items <==> x in SortQueue(items) { assert x in multiset(items) <==> x in multiset(SortQueue(items)); }
    LookupSame(items, SortQueue(items), ItemId, id);
  }

  lemma {:induction false} LookupWithout(items: seq<QueueItem>, gone: string, id: string)
    ensures Lookup(WithoutItem(items, gone), ItemId, id) == if id == gone then None else Lookup(items, ItemId, id)
    decreases |items|
  {
    if items != [] {
      LookupWithout(items[1..], gone, id);
      var rest := WithoutItem(items[1..], gone);
      assert ([items[0]] + rest)[1..] == rest && [] + rest == rest;
    }
  }

  lemma LookupPending(items: seq<Interaction>, id: string)
    requires Distinct(items, InteractionId)
    ensures Lookup(PendingOf(items), InteractionId, id) ==
      var r := Lookup(items, InteractionId, id); if r.Some? && r.value.resolved.None? then r else None
  {
    PendingDistinct(items);
    var r, p := Lookup(items, InteractionId, id), Lookup(PendingOf(items), InteractionId, id);
    LookupHas(items, InteractionId, id);
    LookupHas(PendingOf(items), InteractionId, id);
    if p.Some? {
      PendingIn(items, p.value);
      LookupIff(items, InteractionId, p.value);
    }
    if r.Some? && r.value.resolved.None? {
      PendingIn(items, r.value);
      LookupIff(PendingOf(items), InteractionId, r.value);
    }
  }

  // What one translated event does to a snapshot.
  function Client(s: Snapshot, body: Option<Body>, sequence: nat): Snapshot {
    if body.Some? then Reduced(s, body.value, sequence) else s
  }

  lemma ExecutionMirrors(t: Projection, s: Snapshot, id: string, x: Execution, sequence: nat)
    requires MirrorsMaps(t, s) && x.executionId == id
    ensures MirrorsMaps(t.(executions := t.executions[id := x]), Reduced(s, ExecutionUpserted(x), sequence))
  {
    forall k ensures Lookup(UpsertById(s.executions, ExecutionId, x), ExecutionId, k) == Get(t.executions[id := x], k) {
      LookupUpsert(s.executions, ExecutionId, x, k);
      assert Lookup(s.executions, ExecutionId, k) == Get(t.executions, k);
    }
  }

  lemma OperationMirrors(t: Projection, s: Snapshot, id: string, x: Operation, sequence: nat)
    requires MirrorsMaps(t, s) && x.operationId == id
    ensures MirrorsMaps(t.(operations := t.operations[id := x]), Reduced(s, OperationUpserted(x), sequence))
  {
    forall k ensures Lookup(UpsertById(s.operations, OperationId, x), OperationId, k) == Get(t.operations[id := x], k) {
      LookupUpsert(s.operations, OperationId, x, k);
      assert Lookup(s.operations, OperationId, k) == Get(t.operations, k);
    }
  }

  lemma PermissionMirrors(t: Projection, s: Snapshot, id: string, x: Interaction, sequence: nat)
    requires MirrorsMaps(t, s) && SnapshotOk(s) && x.interactionId == id
    ensures MirrorsMaps(t.(permissions := t.permissions[id := x]), Reduced(s, PermissionUpserted(x), sequence))
  {
    var items := UpsertById(s.pending, InteractionId, x);
    UpsertDistinct(s.pending, InteractionId, x);
    forall k ensures Lookup(PendingOf(items), InteractionId, k) == StillPending(t.permissions[id := x], k) {
      LookupPending(items, k);
      LookupUpsert(s.pending, InteractionId, x, k);
      assert Lookup(s.pending, InteractionId, k) == StillPending(t.permissions, k);
    }
  }

  // What reaches the stream is what was just put into a local map, under its own id.
  lemma ActShape(t: Projection, e: DomainEvent)
    requires Keyed(t)
    ensures var act := ActOn(t, e);
      match act.body
      case None => act.maps == t
      case Some(ExecutionUpserted(x)) => act.maps == t.(executions := t.executions[x.executionId := x])
      case Some(OperationUpserted(x)) => act.maps == t.(operations := t.operations[x.operationId := x])
      case Some(PermissionUpserted(x)) => act.maps == t.(permissions := t.permissions[x.interactionId := x])
      case Some(_) => act.maps == t
  {
    hide Get;
    if IsOperation(e.body) && e.body.operationId != "" { OperationKeeps(t, e); }
  }

  lemma OperationKeeps(t: Projection, e: DomainEvent)
    requires Keyed(t) && IsOperation(e.body) && e.body.operationId != ""
    ensures var next := ToPublicOperation(Get(t.operations, e.body.operationId), e);
      next.Some? ==> next.value.operationId == e.body.operationId
  {
  }

  lemma OtherMirrors(t: Projection, s: Snapshot, body: Body, sequence: nat)
    requires MirrorsMaps(t, s) && !body.ExecutionUpserted? && !body.OperationUpserted? && !body.PermissionUpserted?
    ensures MirrorsMaps(t, Reduced(s, body, sequence))
  {
  }

  // The client's lists keep agreeing with the server's local maps.
  lemma MapsStep(t: Projection, s: Snapshot, e: DomainEvent)
    requires Keyed(t) && MirrorsMaps(t, s) && SnapshotOk(s)
    ensures var act := ActOn(t, e); Keyed(act.maps) && MirrorsMaps(act.maps, Client(s, act.body, e.sequence))
  {
    ActShape(t, e);
    hide ActOn;
    hide Reduced;
    hide MirrorsMaps;
    hide SnapshotOk;
    var act := ActOn(t, e);
    if act.body.Some? {
      match act.body.value
      case ExecutionUpserted(x) => ExecutionMirrors(t, s, x.executionId, x, e.sequence);
      case OperationUpserted(x) => OperationMirrors(t, s, x.operationId, x, e.sequence);
      case PermissionUpserted(x) => PermissionMirrors(t, s, x.interactionId, x, e.sequence);
      case _ => OtherMirrors(t, s, act.body.value, e.sequence);
    }
  }

  function ItemOf(e: DomainEvent): QueueItem
    requires e.body.QueueItemAdmitted?
  {
    QueueItem(e.body.queueItemId, e.body.itemCommandId, e.body.position, e.body.itemText, Or(e.body.admittedAt, e.occurredAt))
  }

  // Which events put a message or a queue change on the stream.
  lemma BodyShape(t: Projection, e: DomainEvent)
    ensures var body := ActOn(t, e).body;
      && (e.body.MessageAppended? ==> body == Some(TranscriptAppended(Message(e.eventId, e.sequence, e.body.role, e.body.text))))
      && (e.body.QueueItemAdmitted? ==> body == Some(QueueUpserted(ItemOf(e))))
      && (e.body.QueueItemPromoted? ==> body == Some(QueueRemoved(e.body.queueItemId)))
      && (!e.body.MessageAppended? && !e.body.QueueItemAdmitted? && !e.body.QueueItemPromoted? && body.Some? ==>
            !body.value.TranscriptAppended? && !body.value.QueueUpserted? && !body.value.QueueRemoved?)
  {
  }

  // What a public event does to the client's transcript and queue.
  lemma ReducedLog(s: Snapshot, body: Body, sequence: nat)
    ensures var next := Reduced(s, body, sequence);
      && next.transcript == (if body.TranscriptAppended? then s.transcript + [body.message] else s.transcript)
      && next.queue == (if body.QueueUpserted? then SortQueue(UpsertById(s.queue, ItemId, body.queueItem))
                        else if body.QueueRemoved? then WithoutItem(s.queue, body.queueItemId)
                        else s.queue)
  {
  }

  lemma LogShape(t: Projection, e: DomainEvent, s: Snapshot)
    ensures var next := Client(s, ActOn(t, e).body, e.sequence);
      && next.transcript == (if e.body.MessageAppended? then s.transcript + [Message(e.eventId, e.sequence, e.body.role, e.body.text)]
                             else s.transcript)
      && next.queue == (if e.body.QueueItemAdmitted? then SortQueue(UpsertById(s.queue, ItemId, ItemOf(e)))
                        else if e.body.QueueItemPromoted? then WithoutItem(s.queue, e.body.queueItemId)
                        else s.queue)
  {
    BodyShape(t, e);
    hide ActOn;
    hide Reduced;
    if ActOn(t, e).body.Some? { ReducedLog(s, ActOn(t, e).body.value, e.sequence); }
  }

  // The client's transcript and queue keep agreeing with the log.
  lemma LogStep(t: Projection, events: seq<DomainEvent>, n: nat, s: Snapshot)
    requires n < |events| && MirrorsLog(events, n, s) && SnapshotOk(s)
    ensures MirrorsLog(events, n + 1, Client(s, ActOn(t, events[n]).body, events[n].sequence))
  {
    var e := events[n];
    LogShape(t, e, s);
    hide ActOn;
    hide Client;
    if e.body.QueueItemAdmitted? {
      var x := ItemOf(e);
      var items := UpsertById(s.queue, ItemId, x);
      UpsertDistinct(s.queue, ItemId, x);
      forall k ensures Lookup(SortQueue(items), ItemId, k) == Get(Waiting(events, n)[x.queueItemId := x], k) {
        LookupSorted(items, k);
        LookupUpsert(s.queue, ItemId, x, k);
        assert Lookup(s.queue, ItemId, k) == Get(Waiting(events, n), k);
      }
    } else if e.body.QueueItemPromoted? {
      var id := e.body.queueItemId;
      forall k ensures Lookup(WithoutItem(s.queue, id), ItemId, k) == Get(Waiting(events, n) - {id}, k) {
        LookupWithout(s.queue, id, k);
        assert Lookup(s.queue, ItemId, k) == Get(Waiting(events, n), k);
      }
    }
  }

  /** Whether an execution event has reached the stream since the last session event. */
  function FollowsExecutions(sessionId: string, events: seq<DomainEvent>, n: nat): bool
    requires n <= |events|
  {
    if n == 0 then false
    else
      var body := ActOn(Project(sessionId, events, n - 1), events[n - 1]).body;
      if body.Some? && body.value.ExecutionUpserted? then true
      else if body.Some? && body.value.SessionUpdated? then false
      else FollowsExecutions(sessionId, events, n - 1)
  }

  ghost predicate Means(sessionId: string, events: seq<DomainEvent>, n: nat, s: Snapshot)
    requires n <= |events|
  {
    && SnapshotOk(s) && Keyed(Project(sessionId, events, n))
    && MirrorsMaps(Project(sessionId, events, n), s) && MirrorsLog(events, n, s)
    && s.session.active == (if FollowsExecutions(sessionId, events, n) then CurrentExecution(s.executions) else None)
  }

  lemma ActiveStep(sessionId: string, events: seq<DomainEvent>, n: nat, s: Snapshot)
    requires n < |events| && SnapshotOk(s)
    requires s.session.active == (if FollowsExecutions(sessionId, events, n) then CurrentExecution(s.executions) else None)
    ensures var next := Client(s, ActOn(Project(sessionId, events, n), events[n]).body, events[n].sequence);
      next.session.active == (if FollowsExecutions(sessionId, events, n + 1) then CurrentExecution(next.executions) else None)
  {
    var body := ActOn(Project(sessionId, events, n), events[n]).body;
    NeverTerminal(Project(sessionId, events, n), events[n]);
    hide ActOn;
    hide Project;
  }

  lemma NeverTerminal(t: Projection, e: DomainEvent)
    ensures var body := ActOn(t, e).body; body.Some? ==> !body.value.ProtocolTerminal? && !body.value.OutputDelta?
  {
  }

  lemma {:induction false} Folded(sessionId: string, events: seq<DomainEvent>, n: nat)
    requires Ordered(events) && n <= |events|
    ensures var r := ReduceAll(Initial(sessionId), Project(sessionId, events, n).out);
      r.Ok? && Means(sessionId, events, n, r.value)
    decreases n
  {
    if n == 0 {
      assert Means(sessionId, events, 0, Initial(sessionId));
    } else {
      var t, e := Project(sessionId, events, n - 1), events[n - 1];
      Folded(sessionId, events, n - 1);
      var s := ReduceAll(Initial(sessionId), t.out).value;
      var act := ActOn(t, e);
      MapsStep(t, s, e);
      LogStep(t, events, n - 1, s);
      ActiveStep(sessionId, events, n - 1, s);
      FoldStep(sessionId, events, n);
      hide ActOn;
      hide Reduced;
      if act.body.Some? { ReduceKeeps(s, act.body.value, e.sequence); }
      MapsOnly(act.maps, Project(sessionId, events, n), Client(s, act.body, e.sequence));
    }
  }

  lemma MapsOnly(t: Projection, u: Projection, s: Snapshot)
    requires MirrorsMaps(t, s) && Keyed(t)
    requires t.executions == u.executions && t.operations == u.operations && t.permissions == u.permissions
    ensures MirrorsMaps(u, s) && Keyed(u)
  {
  }

  // Folding the stream one event further.
  lemma FoldStep(sessionId: string, events: seq<DomainEvent>, n: nat)
    requires Ordered(events) && 0 < n <= |events|
    requires ReduceAll(Initial(sessionId), Project(sessionId, events, n - 1).out).Ok?
    ensures var t, e, u := Project(sessionId, events, n - 1), events[n - 1], Project(sessionId, events, n);
      && ReduceAll(Initial(sessionId), u.out) == Ok(Client(ReduceAll(Initial(sessionId), t.out).value, ActOn(t, e).body, e.sequence))
      && u.executions == ActOn(t, e).maps.executions && u.operations == ActOn(t, e).maps.operations
      && u.permissions == ActOn(t, e).maps.permissions
  {
    var t, e := Project(sessionId, events, n - 1), events[n - 1];
    var act := ActOn(t, e);
    hide ActOn;
    ProjectChains(sessionId, events, n - 1);
    ReducesIffChained(Initial(sessionId), t.out);
    if act.body.Some? {
      ReduceConcat(Initial(sessionId), t.out, [PublicEvent(sessionId, t.cursor, e.sequence, e.occurredAt, CauseOf(e.body), act.body.value)]);
    }
  }

  /**
   A snapshot agrees with the log: its executions, operations and pending interactions are those the
   server tracks, its transcript and queue are those the log tells, ids are unique, the queue is in
   order, and the active execution is the last unfinished one unless a session event came after it.
   */
  lemma SnapshotMeaning(sessionId: string, events: seq<DomainEvent>)
    requires Ordered(events)
    ensures GetSnapshot(sessionId, events).Ok? && Means(sessionId, events, |events|, GetSnapshot(sessionId, events).value)
  {
    Folded(sessionId, events, |events|);
  }

  // ----- recovery -----

  datatype Reason = FirstTime | Stale | Gap | HistoryUnavailable

  datatype Recovery = Resume(fromCursor: int, toCursor: int, events: seq<PublicEvent>) | Refresh(snapshot: Snapshot, reason: Reason)

  /** The events beyond a cursor. */
  function Beyond(events: seq<PublicEvent>, cursor: int): seq<PublicEvent> {
    if events == [] then []
    else (if events[0].sequence > cursor then [events[0]] else []) + Beyond(events[1..], cursor)
  }

  predicate ValidCursor(events: seq<PublicEvent>, cursor: int) {
    cursor == 0 || exists i :: 0 <= i < |events| && events[i].sequence == cursor
  }

  /** The answer to a cursor, given the snapshot of one read of the log and the events of a later read. */
  function Answer(snapshot: Snapshot, events: seq<PublicEvent>, cursor: Option<int>, maxReplay: int): Recovery {
    if cursor.None? then Refresh(snapshot, FirstTime)
    else if cursor.value == snapshot.cursor then Resume(snapshot.cursor, snapshot.cursor, [])
    else if !ValidCursor(events, cursor.value) || cursor.value > snapshot.cursor then Refresh(snapshot, Stale)
    else
      var missing := Beyond(events, cursor.value);
      if |missing| > maxReplay then Refresh(snapshot, HistoryUnavailable)
      else if |missing| > 0 && missing[0].fromCursor != cursor.value then Refresh(snapshot, Gap)
      else Resume(cursor.value, if missing == [] then cursor.value else missing[|missing| - 1].sequence, missing)
  }

  // Where a cursor stands in the stream: the number of events up to it.
  ghost predicate StandsAt(events: seq<PublicEvent>, cursor: int, k: nat) {
    k <= |events| && EndOf(0, events[..k]) == cursor
  }

  lemma {:induction false} BeyondIsSuffix(sessionId: string, from: nat, events: seq<PublicEvent>, cursor: nat)
    requires Chained(sessionId, from, events)
    ensures forall k: nat | k <= |events| && EndOf(from, events[..k]) == cursor :: Beyond(events, cursor) == events[k..]
    decreases |events|
  {
    forall k: nat | k <= |events| && EndOf(from, events[..k]) == cursor ensures Beyond(events, cursor) == events[k..] {
      if events != [] {
        assert LinkAt(sessionId, from, events, 0);
        ChainedFirst(sessionId, from, events);
        var rest := events[1..];
        BeyondIsSuffix(sessionId, events[0].sequence, rest, cursor);
        if k == 0 {
          AllBeyond(sessionId, from, events, cursor);
        } else {
          assert events[..k][1..] == rest[..k - 1];
          assert EndOf(events[0].sequence, rest[..k - 1]) == cursor;
          if k > 1 { ChainIncreases(sessionId, from, events, 0, k - 1); }
          assert Beyond(rest, cursor) == rest[k - 1..];
          assert [] + rest[k - 1..] == events[k..];
        }
      }
    }
  }

  lemma {:induction false} AllBeyond(sessionId: string, from: nat, events: seq<PublicEvent>, cursor: nat)
    requires Chained(sessionId, from, events) && cursor <= from
    ensures Beyond(events, cursor) == events
    decreases |events|
  {
    if events != [] {
      assert LinkAt(sessionId, from, events, 0);
      ChainedFirst(sessionId, from, events);
      AllBeyond(sessionId, events[0].sequence, events[1..], cursor);
      assert [events[0]] + events[1..] == events;
    }
  }

  lemma ValidStands(events: seq<PublicEvent>, cursor: int)
    ensures ValidCursor(events, cursor) <==> exists k: nat :: StandsAt(events, cursor, k)
  {
    if ValidCursor(events, cursor) {
      if cursor == 0 {
        assert StandsAt(events, 0, 0);
      } else {
        var i :| 0 <= i < |events| && events[i].sequence == cursor;
        assert StandsAt(events, cursor, i + 1);
      }
    }
    if k: nat :| StandsAt(events, cursor, k) {
      if k > 0 { assert events[k - 1].sequence == cursor; }
    }
  }

  /** A client that has folded the stream up to its k-th event. */
  function ClientAt(sessionId: string, events: seq<PublicEvent>, k: nat): Result<Snapshot, ReduceError>
    requires k <= |events|
  {
    ReduceAll(Initial(sessionId), events[..k])
  }

  /** Resuming at any point of the stream gives the full fold. */
  lemma ResumeIsFold(sessionId: string, events: seq<DomainEvent>, k: nat)
    requires Ordered(events) && k <= |PublicEvents(sessionId, events)|
    ensures var stream := PublicEvents(sessionId, events);
      ClientAt(sessionId, stream, k).Ok? && ReduceAll(ClientAt(sessionId, stream, k).value, stream[k..]) == GetSnapshot(sessionId, events)
  {
    var stream := PublicEvents(sessionId, events);
    assert stream[..k] + stream[k..] == stream;
    ReduceConcat(Initial(sessionId), stream[..k], stream[k..]);
    SnapshotExists(sessionId, events);
  }

  // A cursor of the longer stream that is not past the end of the shorter one stands in the shorter one too.
  lemma StandsInPrefix(sessionId: string, a: seq<PublicEvent>, b: seq<PublicEvent>, cursor: nat, k: nat)
    requires a <= b && Chained(sessionId, 0, b) && StandsAt(b, cursor, k)
    ensures k <= |a| <==> cursor <= EndOf(0, a)
    ensures k <= |a| ==> StandsAt(a, cursor, k)
  {
    assert b[..|a|] == a;
    if k <= |a| { assert a[..k] == b[..k]; }
    EndIncreases(sessionId, b, k, |a|);
    EndIncreases(sessionId, b, |a|, k);
  }

  // The first event beyond a cursor continues it exactly if the cursor stands in the stream.
  lemma BeyondContinues(sessionId: string, events: seq<PublicEvent>, cursor: nat, k: nat)
    requires Chained(sessionId, 0, events) && StandsAt(events, cursor, k)
    ensures Beyond(events, cursor) == events[k..]
    ensures k < |events| ==> events[k].fromCursor == cursor
  {
    BeyondIsSuffix(sessionId, 0, events, cursor);
    if k < |events| { assert LinkAt(sessionId, 0, events, k); }
  }

  lemma EndIncreases(sessionId: string, a: seq<PublicEvent>, j: nat, k: nat)
    requires Chained(sessionId, 0, a) && j <= |a| && k <= |a|
    ensures j < k ==> EndOf(0, a[..j]) < EndOf(0, a[..k])
  {
    if j < k {
      assert LinkAt(sessionId, 0, a, k - 1);
      if j > 0 { ChainIncreases(sessionId, 0, a, j - 1, k - 1); }
      if k > 1 { ChainIncreases(sessionId, 0, a, 0, k - 1); }
    }
  }

  /**
   What recovery does with a cursor, the log having grown or not between its two reads: a cursor that is
   no cursor of the first read is stale; any other is resumed with exactly the rest of the stream unless
   that is too much. The "gap" answer is never given.
   */
  lemma RecoveryAnswers(sessionId: string, snapshot: Snapshot, a: seq<PublicEvent>, b: seq<PublicEvent>, cursor: int, maxReplay: int)
      returns (k: nat)
    requires a <= b && Chained(sessionId, 0, b) && snapshot.cursor == EndOf(0, a)
    ensures ValidCursor(a, cursor) ==> StandsAt(a, cursor, k) && StandsAt(b, cursor, k)
    ensures Answer(snapshot, b, Some(cursor), maxReplay) ==
      if !ValidCursor(a, cursor) then Refresh(snapshot, Stale)
      else if k == |a| then Resume(cursor, cursor, [])
      else if |b| - k > maxReplay then Refresh(snapshot, HistoryUnavailable)
      else Resume(cursor, EndOf(0, b), b[k..])
  {
    k := 0;
    ValidStands(a, cursor);
    ValidStands(b, cursor);
    PrefixChained(sessionId, a, b);
    assert a[..|a|] == a && StandsAt(a, EndOf(0, a), |a|);
    if cursor < 0 {
      return;
    } else if j: nat :| StandsAt(b, cursor, j) {
      StandsInPrefix(sessionId, a, b, cursor, j);
      BeyondContinues(sessionId, b, cursor, j);
      NotBeyond(sessionId, a, cursor);
      if j <= |a| {
        k := j;
        EndIncreases(sessionId, a, k, |a|);
      }
    } else {
      ShorterInvalid(a, b, cursor);
    }
    hide Beyond;
    hide ValidCursor;
  }

  lemma NotBeyond(sessionId: string, a: seq<PublicEvent>, cursor: nat)
    requires Chained(sessionId, 0, a)
    ensures (exists k: nat :: StandsAt(a, cursor, k)) ==> cursor <= EndOf(0, a)
  {
    if k: nat :| StandsAt(a, cursor, k) {
      EndIncreases(sessionId, a, k, |a|);
      assert a[..|a|] == a;
    }
  }

  lemma PrefixChained(sessionId: string, a: seq<PublicEvent>, b: seq<PublicEvent>)
    requires a <= b && Chained(sessionId, 0, b)
    ensures Chained(sessionId, 0, a)
  {
    forall i | 0 <= i < |a| ensures LinkAt(sessionId, 0, a, i) { assert LinkAt(sessionId, 0, b, i); }
  }

  lemma ShorterInvalid(a: seq<PublicEvent>, b: seq<PublicEvent>, cursor: nat)
    requires a <= b && !(exists k: nat :: StandsAt(b, cursor, k))
    ensures !(exists k: nat :: StandsAt(a, cursor, k))
  {
    forall k: nat | StandsAt(a, cursor, k) ensures StandsAt(b, cursor, k) { assert a[..k] == b[..k]; }
  }

  /** Recovery of a session without a program port: `second` is the log as the second read found it. */
  function Recover(sessionId: string, first: seq<DomainEvent>, second: seq<DomainEvent>, cursor: Option<int>, maxReplay: int): Recovery
    requires Ordered(first)
  {
    SnapshotExists(sessionId, first);
    Answer(GetSnapshot(sessionId, first).value, PublicEvents(sessionId, second), cursor, maxReplay)
  }

  /** A client that stands at a valid cursor and folds what recovery hands it ends with a snapshot of the server's. */
  lemma RecoveryCompletes(sessionId: string, first: seq<DomainEvent>, second: seq<DomainEvent>, cursor: nat, maxReplay: int, client: Snapshot)
    requires Ordered(first) && Ordered(second) && first <= second
    requires exists k: nat :: StandsAt(PublicEvents(sessionId, first), cursor, k) && ClientAt(sessionId, PublicEvents(sessionId, first), k) == Ok(client)
    ensures var r := Recover(sessionId, first, second, Some(cursor), maxReplay);
      && GetSnapshot(sessionId, first).Ok?
      && (r.Resume? ==>
            var done := ReduceAll(client, r.events);
            && done == (if cursor == GetSnapshot(sessionId, first).value.cursor then GetSnapshot(sessionId, first) else GetSnapshot(sessionId, second))
            && done.Ok? && done.value.cursor == r.toCursor && r.fromCursor == cursor == client.cursor)
      && (r.Refresh? ==> r.reason == HistoryUnavailable && Ok(r.snapshot) == GetSnapshot(sessionId, first))
  {
    var a, b := PublicEvents(sessionId, first), PublicEvents(sessionId, second);
    StreamGrows(sessionId, first, second);
    StreamChained(sessionId, second);
    StreamChained(sessionId, first);
    SnapshotExists(sessionId, first);
    SnapshotExists(sessionId, second);
    var k: nat :| StandsAt(a, cursor, k) && ClientAt(sessionId, a, k) == Ok(client);
    ValidStands(a, cursor);
    var j := RecoveryAnswers(sessionId, GetSnapshot(sessionId, first).value, a, b, cursor, maxReplay);
    StandsOnce(sessionId, a, cursor, j, k);
    ResumeIsFold(sessionId, first, k);
    ResumeIsFold(sessionId, second, k);
    ReducesIffChained(Initial(sessionId), a[..k]);
    hide PublicEvents;
    hide Answer;
    assert a[..k] == b[..k];
    if k == |a| {
      assert a[k..] == [] && a[..k] == a;
    }
  }

  lemma StandsOnce(sessionId: string, a: seq<PublicEvent>, cursor: nat, j: nat, k: nat)
    requires Chained(sessionId, 0, a) && StandsAt(a, cursor, j) && StandsAt(a, cursor, k)
    ensures j == k
  {
    EndIncreases(sessionId, a, j, k);
    EndIncreases(sessionId, a, k, j);
  }
}
