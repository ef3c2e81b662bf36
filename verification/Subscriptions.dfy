/**
 Delivery of the public stream to subscribers: the table of buckets, one per session, unsubscribe closures
 that may be called more than once, and flushes that overlap each other and the log's growth.
 */
module Subscriptions {
  import opened Wrappers
  import opened PublicProtocol
  import opened PublicStream
  import opened PublicSnapshots

  // `received` lists the calls of the listener; `start` is the cursor the subscriber came with. Its
  // unsubscribe closure holds on to `bucket` and `sessionId`.
  datatype Sub = Sub(sessionId: string, bucket: nat, start: int, cursor: int, received: seq<PublicEvent>)

  // The set of a session's subscribers, in order of insertion.
  datatype Bucket = Bucket(sessionId: string, members: seq<nat>)

  // A flush holds on to the bucket it found before its await, and afterwards to the events it has read.
  datatype Flight =
    | Reading(sessionId: string, bucket: nat)
    | Ready(sessionId: string, bucket: nat, events: seq<PublicEvent>)
    | Landed

  datatype Hub = Hub(log: seq<DomainEvent>, subs: seq<Sub>, buckets: seq<Bucket>, table: map<string, nat>, flights: seq<Flight>)

  datatype Action =
    | Append(e: DomainEvent)
    | Subscribe(sessionId: string, cursor: int)
    | Unsubscribe(i: nat)             // a call of the closure that `Subscribe` returned, the first or a later one
    | BeginFlush(flushed: string)
    | Fetch(f: nat)                   // the read of the log that the flush awaits
    | Deliver(f: nat)

  function NewHub(log: seq<DomainEvent>): Hub {
    Hub(log, [], [], map[], [])
  }

  /** The delivery loop: it stops at the first event that does not continue the subscriber's cursor. */
  function Feed(sub: Sub, pending: seq<PublicEvent>): Sub
    decreases |pending|
  {
    if pending == [] || pending[0].fromCursor != sub.cursor then sub
    else Feed(sub.(cursor := pending[0].sequence, received := sub.received + [pending[0]]), pending[1..])
  }

  function Delivered(sub: Sub, events: seq<PublicEvent>): Sub {
    Feed(sub, Beyond(events, sub.cursor))
  }

  function Stream(h: Hub, sessionId: string): seq<PublicEvent> {
    PublicEvents(sessionId, SessionEvents(h.log, sessionId))
  }

  predicate Enabled(h: Hub, a: Action) {
    match a
    case Append(e) => e.sequence > 0 && forall x | x in h.log :: x.sequence < e.sequence
    case Unsubscribe(i) => i < |h.subs| && h.subs[i].bucket < |h.buckets|
    case Fetch(f) => f < |h.flights| && h.flights[f].Reading?
    case Deliver(f) => f < |h.flights| && h.flights[f].Ready? && h.flights[f].bucket < |h.buckets|
    case _ => true
  }

  /** The bucket that a subscriber of this session joins: the one in the table, or else a new one. */
  function Home(h: Hub, sessionId: string): nat {
    if sessionId in h.table then h.table[sessionId] else |h.buckets|
  }

  function Joined(h: Hub, sessionId: string, cursor: int): Hub {
    var b := Home(h, sessionId);
    var buckets := if sessionId in h.table then h.buckets else h.buckets + [Bucket(sessionId, [])];
    if b >= |buckets| then h
    else h.(subs := h.subs + [Sub(sessionId, b, cursor, cursor, [])],
            buckets := buckets[b := buckets[b].(members := buckets[b].members + [|h.subs|])],
            table := h.table[sessionId := b])
  }

  predicate AllDifferent(members: seq<nat>) {
    forall j, k | 0 <= j < k < |members| :: members[j] != members[k]
  }

  function Without(members: seq<nat>, i: nat): (r: seq<nat>)
    ensures forall x: nat :: x in r <==> x in members && x != i
    ensures AllDifferent(members) ==> AllDifferent(r)
  {
    if members == [] then []
    else
      var rest := Without(members[1..], i);
      assert forall k | 0 <= k < |rest| :: rest[k] in rest;
      (if members[0] == i then [] else [members[0]]) + rest
  }

  /** The closure's body: when its own bucket is empty afterwards, it drops whatever the table has for the session. */
  function Left(h: Hub, i: nat): Hub
    requires i < |h.subs| && h.subs[i].bucket < |h.buckets|
  {
    var b := h.subs[i].bucket;
    var members := Without(h.buckets[b].members, i);
    h.(buckets := h.buckets[b := h.buckets[b].(members := members)],
       table := if members == [] then h.table - {h.subs[i].sessionId} else h.table)
  }

  function DeliverTo(subs: seq<Sub>, members: seq<nat>, events: seq<PublicEvent>): (r: seq<Sub>)
    ensures |r| == |subs|
    ensures forall i | 0 <= i < |subs| :: r[i] == if i in members then Delivered(subs[i], events) else subs[i]
  {
    seq(|subs|, i requires 0 <= i < |subs| => if i in members then Delivered(subs[i], events) else subs[i])
  }

  function Apply(h: Hub, a: Action): Hub {
    if !Enabled(h, a) then h
    else match a
      case Append(e) => h.(log := h.log + [e])
      case Subscribe(sessionId, cursor) => Joined(h, sessionId, cursor)
      case Unsubscribe(i) => Left(h, i)
      case BeginFlush(sessionId) =>
        var b := Home(h, sessionId);
        if sessionId !in h.table || b >= |h.buckets| || h.buckets[b].members == [] then h
        else h.(flights := h.flights + [Reading(sessionId, b)])
      case Fetch(f) =>
        var flight := h.flights[f];
        h.(flights := h.flights[f := Ready(flight.sessionId, flight.bucket, Stream(h, flight.sessionId))])
      case Deliver(f) =>
        var flight := h.flights[f];
        h.(subs := DeliverTo(h.subs, h.buckets[flight.bucket].members, flight.events), flights := h.flights[f := Landed])
  }

  function Run(h: Hub, actions: seq<Action>): Hub
    decreases |actions|
  {
    if actions == [] then h else Run(Apply(h, actions[0]), actions[1..])
  }

  // ----- one delivery -----

  /** The subscriber has received the stretch of the stream that begins right after its start. */
  ghost predicate Segment(stream: seq<PublicEvent>, sub: Sub) {
    if sub.received == [] then sub.cursor == sub.start
    else exists a: nat :: SegmentAt(stream, sub, a)
  }

  ghost predicate SegmentAt(stream: seq<PublicEvent>, sub: Sub, a: nat) {
    && a + |sub.received| <= |stream| && stream[a..a + |sub.received|] == sub.received
    && EndOf(0, stream[..a]) == sub.start && EndOf(0, stream[..a + |sub.received|]) == sub.cursor
  }

  lemma {:induction false} FeedChain(sessionId: string, sub: Sub, pending: seq<PublicEvent>)
    requires sub.cursor >= 0 && Chained(sessionId, sub.cursor, pending)
    ensures Feed(sub, pending) == sub.(cursor := EndOf(sub.cursor, pending), received := sub.received + pending)
    decreases |pending|
  {
    if pending == [] {
      assert sub.received + [] == sub.received;
    } else {
      assert LinkAt(sessionId, sub.cursor, pending, 0);
      ChainedFirst(sessionId, sub.cursor, pending);
      FeedChain(sessionId, sub.(cursor := pending[0].sequence, received := sub.received + [pending[0]]), pending[1..]);
      assert (sub.received + [pending[0]]) + pending[1..] == sub.received + pending;
    }
  }

  lemma SuffixChained(sessionId: string, events: seq<PublicEvent>, k: nat)
    requires Chained(sessionId, 0, events) && k <= |events|
    ensures Chained(sessionId, EndOf(0, events[..k]), events[k..])
  {
    forall i | 0 <= i < |events| - k ensures LinkAt(sessionId, EndOf(0, events[..k]), events[k..], i) {
      assert LinkAt(sessionId, 0, events, k + i);
    }
  }

  // The first event beyond a cursor starts at the last cursor of the stream that is not beyond it.
  lemma {:induction false} FirstBeyond(sessionId: string, from: nat, events: seq<PublicEvent>, cursor: int)
    requires Chained(sessionId, from, events)
    ensures Beyond(events, cursor) != [] && Beyond(events, cursor)[0].fromCursor == cursor ==>
      exists k: nat :: k <= |events| && EndOf(from, events[..k]) == cursor
    decreases |events|
  {
    if events != [] {
      assert LinkAt(sessionId, from, events, 0);
      ChainedFirst(sessionId, from, events);
      if events[0].sequence > cursor {
        if events[0].fromCursor == cursor { assert EndOf(from, events[..0]) == cursor; }
      } else {
        FirstBeyond(sessionId, events[0].sequence, events[1..], cursor);
        assert [] + Beyond(events[1..], cursor) == Beyond(events[1..], cursor);
        if j: nat :| j <= |events[1..]| && EndOf(events[0].sequence, events[1..][..j]) == cursor {
          assert events[..j + 1] == [events[0]] + events[1..][..j];
          assert EndOf(from, events[..j + 1]) == cursor;
        }
      }
    }
  }

  /** A flush brings a subscriber whose cursor stands in the events it has read up to their end, and leaves any other alone. */
  lemma DeliveryCatchesUp(sessionId: string, sub: Sub, events: seq<PublicEvent>) returns (k: nat)
    requires Chained(sessionId, 0, events)
    ensures ValidCursor(events, sub.cursor) ==>
      && StandsAt(events, sub.cursor, k)
      && Delivered(sub, events) == sub.(cursor := EndOf(0, events), received := sub.received + events[k..])
    ensures !ValidCursor(events, sub.cursor) ==> Delivered(sub, events) == sub
  {
    k := 0;
    ValidStands(events, sub.cursor);
    NotContinued(sessionId, events, sub.cursor);
    hide ValidCursor;
    if j: nat :| StandsAt(events, sub.cursor, j) {
      k := j;
      BeyondIsSuffix(sessionId, 0, events, sub.cursor);
      SuffixChained(sessionId, events, k);
      FeedChain(sessionId, sub, events[k..]);
      if k == |events| { assert events[..k] == events && events[k..] == []; }
    }
  }

  lemma NotContinued(sessionId: string, events: seq<PublicEvent>, cursor: int)
    requires Chained(sessionId, 0, events)
    ensures !ValidCursor(events, cursor) ==> Beyond(events, cursor) == [] || Beyond(events, cursor)[0].fromCursor != cursor
  {
    ValidStands(events, cursor);
    FirstBeyond(sessionId, 0, events, cursor);
    hide ValidCursor;
    if Beyond(events, cursor) != [] && Beyond(events, cursor)[0].fromCursor == cursor {
      var j: nat :| j <= |events| && EndOf(0, events[..j]) == cursor;
      assert StandsAt(events, cursor, j);
    }
  }

  // A delivery extends the segment.
  lemma DeliveryKeepsSegment(sessionId: string, stream: seq<PublicEvent>, sub: Sub, events: seq<PublicEvent>)
    requires Chained(sessionId, 0, stream) && events <= stream && Segment(stream, sub)
    ensures Segment(stream, Delivered(sub, events))
  {
    PrefixChained(sessionId, events, stream);
    var k := DeliveryCatchesUp(sessionId, sub, events);
    hide Delivered;
    if ValidCursor(events, sub.cursor) {
      hide ValidCursor;
      assert events[..k] == stream[..k];
      if sub.received == [] {
        FirstStretch(stream, sub, events, k);
      } else {
        var a: nat :| SegmentAt(stream, sub, a);
        StandsOnce(sessionId, stream, sub.cursor, k, a + |sub.received|);
        LongerStretch(stream, sub, events, a, k);
      }
    }
  }

  function Extended(sub: Sub, events: seq<PublicEvent>, k: nat): Sub
    requires k <= |events|
  {
    sub.(cursor := EndOf(0, events), received := sub.received + events[k..])
  }

  lemma FirstStretch(stream: seq<PublicEvent>, sub: Sub, events: seq<PublicEvent>, k: nat)
    requires events <= stream && sub.received == [] && sub.cursor == sub.start && StandsAt(events, sub.cursor, k)
    ensures Segment(stream, Extended(sub, events, k))
  {
    var next := Extended(sub, events, k);
    assert stream[..|events|] == events && stream[..k] == events[..k];
    if next.received == [] {
      assert events[..k] == events;
    } else {
      assert stream[k..k + |next.received|] == next.received;
      assert SegmentAt(stream, next, k);
    }
  }

  lemma LongerStretch(stream: seq<PublicEvent>, sub: Sub, events: seq<PublicEvent>, a: nat, k: nat)
    requires events <= stream && sub.received != [] && SegmentAt(stream, sub, a) && k == a + |sub.received| <= |events|
    ensures Segment(stream, Extended(sub, events, k))
  {
    var next := Extended(sub, events, k);
    assert stream[..|events|] == events;
    assert stream[a..|events|] == stream[a..k] + stream[k..|events|];
    assert SegmentAt(stream, next, a);
  }

  lemma GrownSegment(stream: seq<PublicEvent>, longer: seq<PublicEvent>, sub: Sub)
    requires stream <= longer && Segment(stream, sub)
    ensures Segment(longer, sub)
  {
    if sub.received != [] {
      var a: nat :| SegmentAt(stream, sub, a);
      var b := a + |sub.received|;
      assert longer[a..b] == stream[a..b] && longer[..a] == stream[..a] && longer[..b] == stream[..b];
      assert SegmentAt(longer, sub, a);
    }
  }

  // ----- all interleavings -----

  /** The subscriber is in the set it was put into: its closure has not been called. */
  predicate Connected(h: Hub, i: nat) {
    i < |h.subs| && h.subs[i].bucket < |h.buckets| && i in h.buckets[h.subs[i].bucket].members
  }

  ghost predicate SubOk(h: Hub, i: nat)
    requires i < |h.subs|
  {
    var sub := h.subs[i];
    && sub.bucket < |h.buckets| && h.buckets[sub.bucket].sessionId == sub.sessionId
    && Segment(Stream(h, sub.sessionId), sub)
  }

  ghost predicate MembersOk(h: Hub, b: nat)
    requires b < |h.buckets|
  {
    AllDifferent(h.buckets[b].members) && forall i | i in h.buckets[b].members :: i < |h.subs| && h.subs[i].bucket == b
  }

  ghost predicate FlightOk(h: Hub, flight: Flight) {
    && (!flight.Landed? ==> flight.bucket < |h.buckets| && h.buckets[flight.bucket].sessionId == flight.sessionId)
    && (flight.Ready? ==> flight.events <= Stream(h, flight.sessionId))
  }

  // What the table lists is never empty.
  ghost predicate TableOk(h: Hub) {
    forall s | s in h.table ::
      h.table[s] < |h.buckets| && h.buckets[h.table[s]].sessionId == s && h.buckets[h.table[s]].members != []
  }

  ghost predicate Inv(h: Hub) {
    && Ordered(h.log) && TableOk(h)
    && (forall i | 0 <= i < |h.subs| :: SubOk(h, i))
    && (forall b | 0 <= b < |h.buckets| :: MembersOk(h, b))
    && (forall f | 0 <= f < |h.flights| :: FlightOk(h, h.flights[f]))
  }

  lemma StreamIsChain(h: Hub, sessionId: string)
    requires Ordered(h.log)
    ensures Chained(sessionId, 0, Stream(h, sessionId))
  {
    SessionOrdered(h.log, sessionId);
    StreamChained(sessionId, SessionEvents(h.log, sessionId));
  }

  lemma LongerStream(h: Hub, e: DomainEvent, sessionId: string)
    requires Ordered(h.log) && Enabled(h, Append(e))
    ensures Stream(h, sessionId) <= Stream(Apply(h, Append(e)), sessionId)
  {
    var r := Apply(h, Append(e));
    SessionGrows(h.log, [e], sessionId);
    StreamGrows(sessionId, SessionEvents(h.log, sessionId), SessionEvents(r.log, sessionId));
  }

  lemma AppendKeeps(h: Hub, e: DomainEvent)
    requires Inv(h) && Enabled(h, Append(e))
    ensures Inv(Apply(h, Append(e)))
  {
    var r := Apply(h, Append(e));
    hide Segment;
    hide Stream;
    forall i | 0 <= i < |r.subs| ensures SubOk(r, i) {
      assert SubOk(h, i);
      LongerStream(h, e, h.subs[i].sessionId);
      GrownSegment(Stream(h, h.subs[i].sessionId), Stream(r, h.subs[i].sessionId), h.subs[i]);
    }
    forall b | 0 <= b < |r.buckets| ensures MembersOk(r, b) { assert MembersOk(h, b); }
    forall f | 0 <= f < |r.flights| ensures FlightOk(r, r.flights[f]) {
      assert FlightOk(h, h.flights[f]);
      if r.flights[f].Ready? { LongerStream(h, e, r.flights[f].sessionId); }
    }
  }

  lemma JoinKeeps(h: Hub, sessionId: string, cursor: int)
    requires Inv(h)
    ensures Inv(Joined(h, sessionId, cursor))
  {
    var r := Joined(h, sessionId, cursor);
    hide Segment;
    assert forall s :: Stream(r, s) == Stream(h, s);
    hide Stream;
    forall i | 0 <= i < |r.subs| ensures SubOk(r, i) {
      if i < |h.subs| { assert SubOk(h, i); } else { FreshSegment(Stream(r, sessionId), r.subs[i]); }
    }
    forall b | 0 <= b < |r.buckets| ensures MembersOk(r, b) {
      if b < |h.buckets| {
        assert MembersOk(h, b);
        assert |h.subs| !in h.buckets[b].members;
      }
    }
    forall f | 0 <= f < |r.flights| ensures FlightOk(r, r.flights[f]) { assert FlightOk(h, h.flights[f]); }
  }

  lemma FreshSegment(stream: seq<PublicEvent>, sub: Sub)
    requires sub.received == [] && sub.cursor == sub.start
    ensures Segment(stream, sub)
  {
  }

  lemma LeaveKeeps(h: Hub, i: nat)
    requires Inv(h) && Enabled(h, Unsubscribe(i))
    ensures Inv(Left(h, i))
  {
    var r := Left(h, i);
    hide Segment;
    assert forall s :: Stream(r, s) == Stream(h, s);
    hide Stream;
    forall j | 0 <= j < |r.subs| ensures SubOk(r, j) { assert SubOk(h, j); }
    forall b | 0 <= b < |r.buckets| ensures MembersOk(r, b) { assert MembersOk(h, b); }
    forall f | 0 <= f < |r.flights| ensures FlightOk(r, r.flights[f]) { assert FlightOk(h, h.flights[f]); }
    assert SubOk(h, i);
  }

  lemma FetchKeeps(h: Hub, f: nat)
    requires Inv(h) && Enabled(h, Fetch(f))
    ensures Inv(Apply(h, Fetch(f)))
  {
    var r := Apply(h, Fetch(f));
    hide Segment;
    assert forall s :: Stream(r, s) == Stream(h, s);
    hide Stream;
    forall j | 0 <= j < |r.subs| ensures SubOk(r, j) { assert SubOk(h, j); }
    forall b | 0 <= b < |r.buckets| ensures MembersOk(r, b) { assert MembersOk(h, b); }
    forall g | 0 <= g < |r.flights| ensures FlightOk(r, r.flights[g]) { assert FlightOk(h, h.flights[g]); }
  }

  lemma BeginKeeps(h: Hub, sessionId: string)
    requires Inv(h)
    ensures Inv(Apply(h, BeginFlush(sessionId)))
  {
    var r := Apply(h, BeginFlush(sessionId));
    hide Segment;
    assert forall s :: Stream(r, s) == Stream(h, s);
    hide Stream;
    forall j | 0 <= j < |r.subs| ensures SubOk(r, j) { assert SubOk(h, j); }
    forall b | 0 <= b < |r.buckets| ensures MembersOk(r, b) { assert MembersOk(h, b); }
    forall f | 0 <= f < |r.flights| ensures FlightOk(r, r.flights[f]) { if f < |h.flights| { assert FlightOk(h, h.flights[f]); } }
  }

  lemma {:induction false} FeedFixes(sub: Sub, pending: seq<PublicEvent>)
    ensures var r := Feed(sub, pending); r.sessionId == sub.sessionId && r.bucket == sub.bucket && r.start == sub.start
    decreases |pending|
  {
    if !(pending == [] || pending[0].fromCursor != sub.cursor) {
      FeedFixes(sub.(cursor := pending[0].sequence, received := sub.received + [pending[0]]), pending[1..]);
    }
  }

  lemma DeliverKeeps(h: Hub, f: nat)
    requires Inv(h) && Enabled(h, Deliver(f))
    ensures Inv(Apply(h, Deliver(f)))
  {
    var r := Apply(h, Deliver(f));
    var flight := h.flights[f];
    assert FlightOk(h, flight) && MembersOk(h, flight.bucket);
    hide Segment;
    assert forall s :: Stream(r, s) == Stream(h, s);
    hide Stream;
    forall i | 0 <= i < |r.subs|
      ensures SubOk(r, i) && r.subs[i].bucket == h.subs[i].bucket
    {
      assert SubOk(h, i);
      FeedFixes(h.subs[i], Beyond(flight.events, h.subs[i].cursor));
      if i in h.buckets[flight.bucket].members {
        StreamIsChain(h, flight.sessionId);
        DeliveryKeepsSegment(flight.sessionId, Stream(h, flight.sessionId), h.subs[i], flight.events);
      }
    }
    hide Delivered;
    forall b | 0 <= b < |r.buckets| ensures MembersOk(r, b) { assert MembersOk(h, b); }
    forall g | 0 <= g < |r.flights| ensures FlightOk(r, r.flights[g]) { assert FlightOk(h, h.flights[g]); }
  }

  lemma StepKeeps(h: Hub, a: Action)
    requires Inv(h)
    ensures Inv(Apply(h, a))
  {
    if Enabled(h, a) {
      match a {
        case Append(e) => AppendKeeps(h, e);
        case Subscribe(sessionId, cursor) => JoinKeeps(h, sessionId, cursor);
        case Unsubscribe(i) => LeaveKeeps(h, i);
        case BeginFlush(sessionId) => BeginKeeps(h, sessionId);
        case Fetch(f) => FetchKeeps(h, f);
        case Deliver(f) => DeliverKeeps(h, f);
      }
    }
  }

  lemma {:induction false} RunKeeps(h: Hub, actions: seq<Action>)
    requires Inv(h)
    ensures Inv(Run(h, actions))
    decreases |actions|
  {
    if actions != [] {
      StepKeeps(h, actions[0]);
      RunKeeps(Apply(h, actions[0]), actions[1..]);
    }
  }

  /**
   Under every interleaving of appends, subscriptions, calls of unsubscribe closures (repeated ones too) and
   overlapping flushes, what a subscriber has received is one contiguous stretch of its session's public stream,
   beginning right after its start cursor: in order, with no gap and no repeat.
   */
  lemma ContiguousDelivery(log: seq<DomainEvent>, actions: seq<Action>, i: nat)
    requires Ordered(log) && i < |Run(NewHub(log), actions).subs|
    ensures var r := Run(NewHub(log), actions); var sub := r.subs[i];
      Segment(Stream(r, sub.sessionId), sub) && Chained(sub.sessionId, 0, Stream(r, sub.sessionId))
  {
    RunKeeps(NewHub(log), actions);
    var r := Run(NewHub(log), actions);
    assert SubOk(r, i);
    StreamIsChain(r, r.subs[i].sessionId);
  }

  // ----- whom a flush reaches -----

  /** The subscriber has received everything up to the end of its session's stream. */
  predicate Level(h: Hub, i: nat)
    requires i < |h.subs|
  {
    h.subs[i].cursor == EndOf(0, Stream(h, h.subs[i].sessionId))
  }

  // The flush has read the session's stream as it is now.
  predicate ReadNow(h: Hub, flight: Flight, sessionId: string) {
    flight.Ready? && flight.sessionId == sessionId && flight.events == Stream(h, sessionId)
  }

  /** A flush that has read the current stream levels exactly the members of the bucket it found before its await. */
  lemma FlushLevels(h: Hub, i: nat, f: nat)
    requires Inv(h) && i < |h.subs| && ValidCursor(Stream(h, h.subs[i].sessionId), h.subs[i].cursor)
    requires f < |h.flights| && ReadNow(h, h.flights[f], h.subs[i].sessionId)
    ensures Level(Apply(h, Deliver(f)), i) <==> Level(h, i) || (Connected(h, i) && h.subs[i].bucket == h.flights[f].bucket)
  {
    var flight := h.flights[f];
    assert FlightOk(h, flight) && MembersOk(h, flight.bucket);
    StreamIsChain(h, flight.sessionId);
    FeedFixes(h.subs[i], Beyond(flight.events, h.subs[i].cursor));
    var k := DeliveryCatchesUp(flight.sessionId, h.subs[i], Stream(h, flight.sessionId));
    hide Delivered;
  }

  lemma StepFixes(h: Hub, a: Action, i: nat)
    requires Inv(h) && i < |h.subs|
    ensures var r := Apply(h, a);
      && i < |r.subs| && r.subs[i].bucket == h.subs[i].bucket && r.subs[i].sessionId == h.subs[i].sessionId
      && (Connected(r, i) <==> Connected(h, i) && a != Unsubscribe(i))
  {
    assert SubOk(h, i);
    var r := Apply(h, a);
    hide Segment;
    hide Stream;
    if a.Deliver? && Enabled(h, a) {
      FeedFixes(h.subs[i], Beyond(h.flights[a.f].events, h.subs[i].cursor));
      hide Delivered;
    }
  }

  /** A subscriber keeps its bucket, and it is in it until its closure is called; it never comes back. */
  lemma {:induction false} ConnectedUntilCalled(h: Hub, actions: seq<Action>, i: nat)
    requires Inv(h) && i < |h.subs|
    ensures var r := Run(h, actions);
      && i < |r.subs| && r.subs[i].bucket == h.subs[i].bucket && r.subs[i].sessionId == h.subs[i].sessionId
      && (Connected(r, i) <==> Connected(h, i) && Unsubscribe(i) !in actions)
    decreases |actions|
  {
    if actions != [] {
      StepFixes(h, actions[0], i);
      StepKeeps(h, actions[0]);
      ConnectedUntilCalled(Apply(h, actions[0]), actions[1..], i);
      assert Unsubscribe(i) in actions <==> actions[0] == Unsubscribe(i) || Unsubscribe(i) in actions[1..];
    }
  }

  lemma {:induction false} FlightKeepsBucket(h: Hub, actions: seq<Action>, f: nat)
    requires f < |h.flights|
    ensures var r := Run(h, actions);
      f < |r.flights| && (!r.flights[f].Landed? ==>
        !h.flights[f].Landed? && r.flights[f].bucket == h.flights[f].bucket && r.flights[f].sessionId == h.flights[f].sessionId)
    decreases |actions|
  {
    if actions != [] { FlightKeepsBucket(Apply(h, actions[0]), actions[1..], f); }
  }

  lemma {:induction false} RunConcat(h: Hub, a: seq<Action>, b: seq<Action>)
    ensures Run(h, a + b) == Run(Run(h, a), b)
    decreases |a|
  {
    if a == [] {
      assert a + b == b;
    } else {
      assert (a + b)[0] == a[0] && (a + b)[1..] == a[1..] + b;
      RunConcat(Apply(h, a[0]), a[1..], b);
    }
  }

  // The flush that is started in `h` and has read the stream by `r`; subscriber `i` is behind and connected there.
  ghost predicate Awaited(h: Hub, r: Hub, sessionId: string, i: nat) {
    && Connected(r, i) && r.subs[i].sessionId == sessionId && !Level(r, i) && ValidCursor(Stream(r, sessionId), r.subs[i].cursor)
    && |h.flights| < |r.flights| && ReadNow(r, r.flights[|h.flights|], sessionId)
  }

  /**
   Whatever happens between the start of a flush and its delivery, it levels a subscriber that was there before
   exactly if the table listed the subscriber's own bucket when the flush started.
   */
  lemma FlushReachesEarlier(h: Hub, between: seq<Action>, sessionId: string, i: nat)
    requires Inv(h) && sessionId in h.table && i < |h.subs|
    requires Awaited(h, Run(Apply(h, BeginFlush(sessionId)), between), sessionId, i)
    ensures var r := Run(Apply(h, BeginFlush(sessionId)), between);
      Level(Apply(r, Deliver(|h.flights|)), i) <==> h.table[sessionId] == h.subs[i].bucket
  {
    var g := Apply(h, BeginFlush(sessionId));
    BeginKeeps(h, sessionId);
    StepFixes(h, BeginFlush(sessionId), i);
    RunKeeps(g, between);
    ConnectedUntilCalled(g, between, i);
    FlightKeepsBucket(g, between, |h.flights|);
    FlushLevels(Run(g, between), i, |h.flights|);
  }

  /** So as long as no connected subscriber has been lost from the table, a flush levels everyone who was connected when it started. */
  lemma FlushReachesConnected(h: Hub, between: seq<Action>, i: nat)
    requires Inv(h) && AllListed(h) && Connected(h, i)
    requires Awaited(h, Run(Apply(h, BeginFlush(h.subs[i].sessionId)), between), h.subs[i].sessionId, i)
    ensures Level(Apply(Run(Apply(h, BeginFlush(h.subs[i].sessionId)), between), Deliver(|h.flights|)), i)
  {
    FlushReachesEarlier(h, between, h.subs[i].sessionId, i);
  }

  /** One who comes while the flush is under way is levelled exactly if the table still lists the bucket that the flush found. */
  lemma FlushReachesNewcomer(h: Hub, before: seq<Action>, cursor: int, after: seq<Action>, sessionId: string)
    requires Inv(h) && sessionId in h.table
    requires var m := Run(Apply(h, BeginFlush(sessionId)), before);
      Awaited(h, Run(Apply(m, Subscribe(sessionId, cursor)), after), sessionId, |m.subs|)
    ensures var m := Run(Apply(h, BeginFlush(sessionId)), before); var r := Run(Apply(m, Subscribe(sessionId, cursor)), after);
      Level(Apply(r, Deliver(|h.flights|)), |m.subs|) <==> sessionId in m.table && m.table[sessionId] == h.table[sessionId]
  {
    var g := Apply(h, BeginFlush(sessionId));
    var m := Run(g, before);
    var n := Apply(m, Subscribe(sessionId, cursor));
    BeginKeeps(h, sessionId);
    RunKeeps(g, before);
    JoinKeeps(m, sessionId, cursor);
    RunKeeps(n, after);
    FlightKeepsBucket(g, before, |h.flights|);
    FlightKeepsBucket(n, after, |h.flights|);
    BucketsGrow(g, before);
    ConnectedUntilCalled(n, after, |m.subs|);
    FlushLevels(Run(n, after), |m.subs|, |h.flights|);
  }

  lemma {:induction false} BucketsGrow(h: Hub, actions: seq<Action>)
    ensures |Run(h, actions).buckets| >= |h.buckets|
    decreases |actions|
  {
    if actions != [] { BucketsGrow(Apply(h, actions[0]), actions[1..]); }
  }

  // ----- closures that are called again -----

  /** Every connected subscriber is in the bucket that the table lists for its session, where the next flush finds it. */
  ghost predicate AllListed(h: Hub) {
    forall i: nat | Connected(h, i) :: h.subs[i].sessionId in h.table && h.table[h.subs[i].sessionId] == h.subs[i].bucket
  }

  /** A closure is called again although its bucket is empty by now and the session has another one in the table. */
  predicate Stale(h: Hub, a: Action) {
    a.Unsubscribe? && Enabled(h, a) && h.buckets[h.subs[a.i].bucket].members == [] && h.subs[a.i].sessionId in h.table
  }

  predicate AnyStale(h: Hub, actions: seq<Action>)
    decreases |actions|
  {
    actions != [] && (Stale(h, actions[0]) || AnyStale(Apply(h, actions[0]), actions[1..]))
  }

  ghost predicate AlwaysListed(h: Hub, actions: seq<Action>)
    decreases |actions|
  {
    AllListed(h) && (actions != [] ==> AlwaysListed(Apply(h, actions[0]), actions[1..]))
  }

  lemma StepLists(h: Hub, a: Action)
    requires Inv(h) && AllListed(h)
    ensures AllListed(Apply(h, a)) <==> !Stale(h, a)
  {
    hide Segment;
    hide Stream;
    hide Delivered;
    var r := Apply(h, a);
    if Stale(h, a) {
      var b := h.table[h.subs[a.i].sessionId];
      var j := h.buckets[b].members[0];
      assert SubOk(h, a.i) && MembersOk(h, b) && j in h.buckets[b].members;
      assert SubOk(h, j);
      assert Connected(r, j) && h.subs[j].sessionId !in r.table;
    } else {
      forall i: nat | Connected(r, i) ensures r.subs[i].sessionId in r.table && r.table[r.subs[i].sessionId] == r.subs[i].bucket {
        if i < |h.subs| {
          StepFixes(h, a, i);
          assert SubOk(h, i);
          if a.Unsubscribe? && Enabled(h, a) { LeaveLists(h, a.i, i); }
        } else {
          assert a.Subscribe?;
        }
      }
    }
  }

  lemma LeaveLists(h: Hub, i: nat, j: nat)
    requires Inv(h) && AllListed(h) && Enabled(h, Unsubscribe(i)) && !Stale(h, Unsubscribe(i)) && j != i && Connected(h, j)
    ensures var r := Left(h, i); h.subs[j].sessionId in r.table && r.table[h.subs[j].sessionId] == h.subs[j].bucket
  {
    assert SubOk(h, i) && SubOk(h, j);
    var members := h.buckets[h.subs[i].bucket].members;
    assert Without(members, i) == [] && h.subs[j].sessionId == h.subs[i].sessionId ==> h.subs[j].bucket != h.subs[i].bucket by {
      assert j in h.buckets[h.subs[j].bucket].members;
    }
    if members != [] && members[0] == i { assert Connected(h, i); }
    if members != [] && members[0] != i { assert members[0] in Without(members, i); }
  }

  /** Over every run: no connected subscriber is ever lost from the table exactly if no closure is called at such a time. */
  lemma {:induction false} ListedIffNeverStale(h: Hub, actions: seq<Action>)
    requires Inv(h) && AllListed(h)
    ensures AlwaysListed(h, actions) <==> !AnyStale(h, actions)
    decreases |actions|
  {
    if actions != [] {
      StepLists(h, actions[0]);
      StepKeeps(h, actions[0]);
      if AllListed(Apply(h, actions[0])) { ListedIffNeverStale(Apply(h, actions[0]), actions[1..]); }
      else { assert !AlwaysListed(Apply(h, actions[0]), actions[1..]); }
    }
  }

  predicate CalledOnce(actions: seq<Action>) {
    forall j, k | 0 <= j < k < |actions| && actions[j].Unsubscribe? :: actions[k] != actions[j]
  }

  /** Calling each closure at most once is enough. */
  lemma OnceIsEnough(log: seq<DomainEvent>, actions: seq<Action>)
    requires Ordered(log) && CalledOnce(actions)
    ensures AlwaysListed(NewHub(log), actions)
  {
    OnceNeverStale(NewHub(log), actions);
    ListedIffNeverStale(NewHub(log), actions);
  }

  lemma {:induction false} OnceNeverStale(h: Hub, actions: seq<Action>)
    requires Inv(h) && CalledOnce(actions)
    requires forall i: nat | i < |h.subs| :: Connected(h, i) || Unsubscribe(i) !in actions
    ensures !AnyStale(h, actions)
    decreases |actions|
  {
    if actions != [] {
      var r := Apply(h, actions[0]);
      assert actions[0] in actions;
      assert !Stale(h, actions[0]);
      StepKeeps(h, actions[0]);
      forall i: nat | i < |r.subs| ensures Connected(r, i) || Unsubscribe(i) !in actions[1..] {
        if i < |h.subs| {
          StepFixes(h, actions[0], i);
          assert forall k | 0 <= k < |actions[1..]| :: actions[1..][k] == actions[k + 1];
        }
      }
      assert CalledOnce(actions[1..]) by {
        forall j, k | 0 <= j < k < |actions[1..]| && actions[1..][j].Unsubscribe? ensures actions[1..][k] != actions[1..][j] {
          assert actions[1..][j] == actions[j + 1] && actions[1..][k] == actions[k + 1];
        }
      }
      OnceNeverStale(r, actions[1..]);
    }
  }

  // Neither the table nor a flush under way leads to the subscriber.
  ghost predicate Lost(h: Hub, i: nat) {
    && i < |h.subs|
    && (forall s | s in h.table :: h.table[s] != h.subs[i].bucket)
    && (forall f | 0 <= f < |h.flights| && !h.flights[f].Landed? :: h.flights[f].bucket != h.subs[i].bucket)
  }

  /** A subscriber that has been lost receives nothing ever after, whoever subscribes, publishes or flushes. */
  lemma {:induction false} LostForEver(h: Hub, actions: seq<Action>, i: nat)
    requires Inv(h) && Lost(h, i)
    ensures i < |Run(h, actions).subs| && Run(h, actions).subs[i] == h.subs[i]
    decreases |actions|
  {
    if actions != [] {
      StepLoses(h, actions[0], i);
      StepKeeps(h, actions[0]);
      LostForEver(Apply(h, actions[0]), actions[1..], i);
    }
  }

  lemma StepLoses(h: Hub, a: Action, i: nat)
    requires Inv(h) && Lost(h, i)
    ensures Lost(Apply(h, a), i) && Apply(h, a).subs[i] == h.subs[i]
  {
    hide Segment;
    hide Stream;
    hide Delivered;
    assert SubOk(h, i);
    if a.Deliver? && Enabled(h, a) { assert MembersOk(h, h.flights[a.f].bucket); }
  }

  // ----- two runs that go wrong -----

  lemma StartedStream(e: DomainEvent)
    requires e.sequence > 0 && e.body.SessionStarted?
    ensures |PublicEvents(e.sessionId, SessionEvents([e], e.sessionId))| == 1
    ensures EndOf(0, PublicEvents(e.sessionId, SessionEvents([e], e.sessionId))) == e.sequence
  {
    assert [e][..0] == [];
    assert SessionEvents([e], e.sessionId) == [e];
    assert PublicEvents(e.sessionId, [e]) == Translate(Project(e.sessionId, [e], 0), e.sessionId, e).out;
  }

  // A subscriber of a session that the table does not list, alone in a bucket of its own.
  lemma FirstJoins(h: Hub, s: string, cursor: int)
    requires s !in h.table
    ensures Apply(h, Subscribe(s, cursor)) ==
      h.(subs := h.subs + [Sub(s, |h.buckets|, cursor, cursor, [])], buckets := h.buckets + [Bucket(s, [|h.subs|])],
         table := h.table[s := |h.buckets|])
  {
    var r := Apply(h, Subscribe(s, cursor));
    assert r.buckets[|h.buckets|] == Bucket(s, [|h.subs|]);
  }

  // It leaves, for the first time or once more.
  lemma LastLeaves(h: Hub, i: nat)
    requires Enabled(h, Unsubscribe(i)) && h.buckets[h.subs[i].bucket].members == [i]
    ensures Apply(h, Unsubscribe(i)) ==
      h.(buckets := h.buckets[h.subs[i].bucket := h.buckets[h.subs[i].bucket].(members := [])], table := h.table - {h.subs[i].sessionId})
  {
    assert Without([i], i) == [];
  }

  // Subscribe, unsubscribe and subscribe again, with a flush begun in between or not.
  function Replaced(log: seq<DomainEvent>, s: string, cursor: int, flights: seq<Flight>): Hub {
    Hub(log, [Sub(s, 0, cursor, cursor, []), Sub(s, 1, cursor, cursor, [])], [Bucket(s, []), Bucket(s, [1])], map[s := 1], flights)
  }

  lemma Replace(log: seq<DomainEvent>, s: string, cursor: int)
    ensures var h := Apply(NewHub(log), Subscribe(s, cursor));
      && Apply(Apply(h, Unsubscribe(0)), Subscribe(s, cursor)) == Replaced(log, s, cursor, [])
      && Apply(Apply(Apply(h, BeginFlush(s)), Unsubscribe(0)), Subscribe(s, cursor)) == Replaced(log, s, cursor, [Reading(s, 0)])
  {
    FirstJoins(NewHub(log), s, cursor);
    var h := Apply(NewHub(log), Subscribe(s, cursor));
    var g := Apply(h, BeginFlush(s));
    assert g == h.(flights := [Reading(s, 0)]);
    LastLeaves(h, 0);
    LastLeaves(g, 0);
    FirstJoins(Apply(h, Unsubscribe(0)), s, cursor);
    FirstJoins(Apply(g, Unsubscribe(0)), s, cursor);
    assert map[s := 0] - {s} == map[];
  }

  lemma RunTwo(h: Hub, actions: seq<Action>)
    requires |actions| >= 2
    ensures Run(h, actions) == Run(Apply(Apply(h, actions[0]), actions[1]), actions[2..])
  {
    hide Apply;
    assert actions[1..][1..] == actions[2..];
  }

  // The flush of an empty bucket changes nothing.
  lemma Lands(h: Hub)
    requires |h.flights| == 1 && h.flights[0].Reading? && h.flights[0].bucket < |h.buckets| && h.buckets[h.flights[0].bucket].members == []
    ensures Apply(Apply(h, Fetch(0)), Deliver(0)) == h.(flights := [Landed])
  {
    hide Stream;
    hide Delivered;
    var g := Apply(h, Fetch(0));
    assert DeliverTo(g.subs, [], g.flights[0].events) == g.subs;
    assert g.flights[0 := Landed] == [Landed];
  }

  /**
   The only subscriber leaves while a flush is reading, and another comes: the flush delivers to the bucket it
   found, which nobody is in any more, and the new subscriber gets nothing.
   */
  lemma FlushMissesNewcomer(e: DomainEvent)
    requires e.sequence > 0 && e.body.SessionStarted?
    ensures var s := e.sessionId;
      var r := Run(NewHub([e]), [Subscribe(s, 0), BeginFlush(s), Unsubscribe(0), Subscribe(s, 0), Fetch(0), Deliver(0)]);
      Connected(r, 1) && r.flights == [Landed] && r.subs[1].received == [] && !Level(r, 1)
  {
    var s := e.sessionId;
    var acts := [Subscribe(s, 0), BeginFlush(s), Unsubscribe(0), Subscribe(s, 0), Fetch(0), Deliver(0)];
    StartedStream(e);
    Replace([e], s, 0);
    hide PublicEvents;
    hide SessionEvents;
    var h := Replaced([e], s, 0, [Reading(s, 0)]);
    var g := Apply(h, Fetch(0));
    var r := Apply(g, Deliver(0));
    Lands(h);
    hide Apply;
    hide Level;
    RunTwo(NewHub([e]), acts);
    RunTwo(Apply(Apply(NewHub([e]), acts[0]), acts[1]), acts[2..]);
    RunTwo(h, acts[2..][2..]);
    assert acts[2..][2..] == [Fetch(0), Deliver(0)] && acts[2..][2..][2..] == [];
    assert acts[2..][0] == Unsubscribe(0) && acts[2..][1] == Subscribe(s, 0);
    assert Run(r, []) == r;
  }

  lemma RunFour(h: Hub, actions: seq<Action>)
    requires |actions| == 4
    ensures Run(h, actions) == Apply(Apply(Apply(Apply(h, actions[0]), actions[1]), actions[2]), actions[3])
  {
    hide Apply;
    RunTwo(h, actions);
    RunTwo(Apply(Apply(h, actions[0]), actions[1]), actions[2..]);
    assert actions[2..][2..] == [];
  }

  lemma CalledTwice(log: seq<DomainEvent>, s: string, cursor: int)
    ensures Run(NewHub(log), [Subscribe(s, cursor), Unsubscribe(0), Subscribe(s, cursor), Unsubscribe(0)]) ==
      Replaced(log, s, cursor, []).(table := map[])
  {
    Replace(log, s, cursor);
    var h := Replaced(log, s, cursor, []);
    assert Apply(h, Unsubscribe(0)) == h.(table := map[]);
    hide Apply;
    RunFour(NewHub(log), [Subscribe(s, cursor), Unsubscribe(0), Subscribe(s, cursor), Unsubscribe(0)]);
  }

  /**
   A closure that is called a second time, after another subscriber has come, takes that one's bucket out of the
   table: the subscriber stays connected and nothing reaches it any more.
   */
  lemma SecondCallLosesAnother(log: seq<DomainEvent>, s: string, cursor: int, later: seq<Action>)
    requires Ordered(log)
    ensures var h := Run(NewHub(log), [Subscribe(s, cursor), Unsubscribe(0), Subscribe(s, cursor), Unsubscribe(0)]);
      Connected(h, 1) && s !in h.table && 1 < |Run(h, later).subs| && Run(h, later).subs[1].received == []
  {
    var acts := [Subscribe(s, cursor), Unsubscribe(0), Subscribe(s, cursor), Unsubscribe(0)];
    RunKeeps(NewHub(log), acts);
    CalledTwice(log, s, cursor);
    LostForEver(Run(NewHub(log), acts), later, 1);
  }

  // ----- the object -----

  class Subscription {
    const sessionId: string
    const bucket: nat
    ghost const start: int
    var cursor: int
    var received: seq<PublicEvent>

    ghost function View(): Sub
      reads this
    {
      Sub(sessionId, bucket, start, cursor, received)
    }

    constructor (sessionId: string, bucket: nat, cursor: int)
      ensures View() == Sub(sessionId, bucket, cursor, cursor, [])
    {
      this.sessionId, this.bucket, this.cursor, received, start := sessionId, bucket, cursor, [], cursor;
    }

    /** The loop over the pending events, with its break. */
    method Deliver(events: seq<PublicEvent>)
      modifies this
      ensures View() == Delivered(old(View()), events)
    {
      var pending := Beyond(events, cursor);
      var i := 0;
      while i < |pending|
        invariant 0 <= i <= |pending|
        invariant Feed(View(), pending[i..]) == Feed(old(View()), pending)
      {
        var event := pending[i];
        assert pending[i..][0] == event && pending[i..][1..] == pending[i + 1..];
        if event.fromCursor != cursor { break; }
        received := received + [event];
        cursor := event.sequence;
        i := i + 1;
      }
    }
  }

  /** The part of the application service that keeps subscribers; `log` is the store, buckets are named by their index. */
  class Subscribers {
    var log: seq<DomainEvent>
    var subscriptions: seq<Subscription>
    var buckets: seq<Bucket>
    var subscribers: map<string, nat>
    ghost var flights: seq<Flight>

    ghost function Views(): (r: seq<Sub>)
      reads this, subscriptions
      ensures |r| == |subscriptions| && forall i | 0 <= i < |r| :: r[i] == subscriptions[i].View()
    {
      seq(|subscriptions|, i requires 0 <= i < |subscriptions| reads this, subscriptions => subscriptions[i].View())
    }

    ghost function View(): Hub
      reads this, subscriptions
    {
      Hub(log, Views(), buckets, subscribers, flights)
    }

    ghost predicate Valid()
      reads this, subscriptions
    {
      Inv(View()) && (forall i, j | 0 <= i < j < |subscriptions| :: subscriptions[i] != subscriptions[j])
    }

    constructor (log: seq<DomainEvent>)
      requires Ordered(log)
      ensures View() == NewHub(log) && Valid()
    {
      this.log, subscriptions, buckets, subscribers, flights := log, [], [], map[], [];
    }

    method Subscribe(sessionId: string, cursor: int) returns (i: nat)
      requires Valid()
      modifies this
      ensures View() == Apply(old(View()), Action.Subscribe(sessionId, cursor)) && Valid()
      ensures i == |old(subscriptions)| && Connected(View(), i)
    {
      StepKeeps(View(), Action.Subscribe(sessionId, cursor));
      assert TableOk(View());
      hide Inv;
      i := |subscriptions|;
      var bucket: nat;
      if sessionId in subscribers {
        bucket := subscribers[sessionId];
      } else {
        bucket := |buckets|;
        buckets := buckets + [Bucket(sessionId, [])];
      }
      var subscription := new Subscription(sessionId, bucket, cursor);
      subscriptions := subscriptions + [subscription];
      buckets := buckets[bucket := buckets[bucket].(members := buckets[bucket].members + [i])];
      subscribers := subscribers[sessionId := bucket];
      assert View().subs == old(View()).subs + [subscription.View()];
    }

    /** The closure that `Subscribe` returned for subscriber `i`. */
    method Unsubscribe(i: nat)
      requires Valid() && i < |subscriptions|
      modifies this
      ensures View() == Apply(old(View()), Action.Unsubscribe(i)) && Valid() && !Connected(View(), i)
    {
      StepKeeps(View(), Action.Unsubscribe(i));
      assert SubOk(View(), i);
      var bucket := subscriptions[i].bucket;
      buckets := buckets[bucket := buckets[bucket].(members := Without(buckets[bucket].members, i))];
      if buckets[bucket].members == [] {
        subscribers := subscribers - {subscriptions[i].sessionId};
      }
    }

    /** A flush up to its await; None when it returns at once. */
    method BeginFlush(sessionId: string) returns (bucket: Option<nat>)
      requires Valid()
      modifies this
      ensures View() == Apply(old(View()), Action.BeginFlush(sessionId)) && Valid()
      ensures bucket == if sessionId in subscribers then Some(subscribers[sessionId]) else None
    {
      StepKeeps(View(), Action.BeginFlush(sessionId));
      if sessionId !in subscribers || buckets[subscribers[sessionId]].members == [] { return None; }
      bucket := Some(subscribers[sessionId]);
      flights := flights + [Reading(sessionId, bucket.value)];
    }

    method Fetch(ghost f: nat, sessionId: string) returns (events: seq<PublicEvent>)
      requires Valid() && f < |flights| && flights[f].Reading? && flights[f].sessionId == sessionId
      modifies this
      ensures View() == Apply(old(View()), Action.Fetch(f)) && Valid()
      ensures flights[f] == Ready(sessionId, old(flights[f].bucket), events)
    {
      StepKeeps(View(), Action.Fetch(f));
      events := GetPublicEvents(sessionId, SessionEvents(log, sessionId));
      flights := flights[f := Ready(sessionId, flights[f].bucket, events)];
    }

    /** The rest of the flush: every member of the bucket gets the events in turn. */
    method Deliver(ghost f: nat, bucket: nat, events: seq<PublicEvent>)
      requires Valid() && f < |flights| && flights[f].Ready? && flights[f].bucket == bucket && flights[f].events == events
      modifies this, subscriptions
      ensures View() == Apply(old(View()), Action.Deliver(f)) && Valid()
    {
      StepKeeps(View(), Action.Deliver(f));
      assert FlightOk(View(), flights[f]) && MembersOk(View(), bucket);
      hide Inv;
      hide Delivered;
      DeliverToMembers(buckets[bucket].members, events);
      flights := flights[f := Landed];
    }

    method DeliverToMembers(members: seq<nat>, events: seq<PublicEvent>)
      requires AllDifferent(members) && forall i | i in members :: i < |subscriptions|
      requires forall i, j | 0 <= i < j < |subscriptions| :: subscriptions[i] != subscriptions[j]
      modifies subscriptions
      ensures Views() == DeliverTo(old(Views()), members, events)
    {
      hide Delivered;
      for k := 0 to |members|
        invariant forall i: nat | i < |subscriptions| && i !in members[..k] :: Views()[i] == old(Views())[i]
        invariant forall i: nat | i < |subscriptions| && i in members[..k] :: Views()[i] == Delivered(old(Views())[i], events)
      {
        var i := members[k];
        assert i in members;
        assert i !in members[..k];
        assert members[..k + 1] == members[..k] + [i];
        ghost var before := Views();
        subscriptions[i].Deliver(events);
        assert forall j | 0 <= j < |subscriptions| && j != i :: Views()[j] == before[j];
      }
      assert members[..|members|] == members;
    }
  }
}
