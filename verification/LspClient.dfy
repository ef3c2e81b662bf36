/** The JSON-RPC client over the framing: request ids, their one settlement, and the accept loop. */
module LspClient {
  import opened Wrappers
  import opened LspFraming

  // What a parsed body says; a reply is a message with a numeric id and a result or an error.
  datatype Message = Reply(id: int, failed: bool) | Notification(name: string) | ServerRequest(id: int, name: string) | Other

  datatype Outcome = Resolved | RejectedByServer | Aborted | Failed

  datatype Sent = Call(id: nat) | Cancel(id: nat) | Answer(to: int)

  // The signal that a request came with.
  datatype Signal = NoSignal | Live | AlreadyAborted

  // `listening` are the requests whose abort listener is attached. For the statements only, `settled` records what the
  // caller of a request has been told, and `signalled` which requests came with a live signal.
  datatype Client = Client(decoder: Decoder, nextId: nat, pending: set<int>, listening: set<int>, sent: seq<Sent>,
                           settled: map<int, Outcome>, signalled: set<int>, handled: seq<Bytes>)

  /** The bodies that can be parsed. */
  function Good(parse: Bytes -> Option<Message>): Bytes -> bool {
    b => parse(b).Some?
  }

  function NewClient(): Client {
    Client(Decoder([], None), 1, {}, {}, [], map[], {}, [])
  }

  /** A request takes the next id; one whose signal is already aborted is never sent and is cancelled at once. */
  function Requested(c: Client, signal: Signal): Client {
    var id := c.nextId;
    var attached: set<int> := if signal.Live? then {id} else {};
    if signal.AlreadyAborted?
    then c.(nextId := id + 1, settled := c.settled[id := Aborted], sent := c.sent + [Cancel(id)])
    else c.(nextId := id + 1, pending := c.pending + {id}, listening := c.listening + attached, signalled := c.signalled + attached,
            sent := c.sent + [Call(id)])
  }

  /** The signal of a request aborts: its listener runs once if it is attached, and does not look whether the request is pending. */
  function AbortedRequest(c: Client, id: nat): Client {
    if id !in c.listening then c
    else c.(pending := c.pending - {id}, listening := c.listening - {id}, settled := c.settled[id := Aborted], sent := c.sent + [Cancel(id)])
  }

  function Dispatched(c: Client, body: Bytes, m: Message): Client {
    var c1 := c.(handled := c.handled + [body]);
    match m
    case Reply(id, failed) =>
      if id !in c.pending then c1
      else c1.(pending := c.pending - {id}, listening := c.listening - {id},
               settled := c.settled[id := if failed then RejectedByServer else Resolved])
    case ServerRequest(id, _) => c1.(sent := c.sent + [Answer(id)])
    case _ => c1
  }

  function FailedAll(c: Client): Client {
    c.(pending := {}, listening := c.listening - c.pending,
       settled := map id | id in c.settled.Keys + c.pending :: if id in c.pending then Failed else c.settled[id])
  }

  function DispatchAll(c: Client, bodies: seq<Bytes>, parse: Bytes -> Option<Message>): Client
    requires forall b | b in bodies :: parse(b).Some?
    decreases |bodies|
  {
    if bodies == [] then c else DispatchAll(Dispatched(c, bodies[0], parse(bodies[0]).value), bodies[1..], parse)
  }

  lemma {:induction false} DrainedParse(d: Decoder, parse: Bytes -> Option<Message>)
    ensures forall b | b in Drain(d, Good(parse)).bodies :: parse(b).Some?
    decreases |d.buffer|, if d.expected.Some? then 1 else 0
  {
    var good := Good(parse);
    match d.expected {
      case None =>
        var end := HeaderEnd(d.buffer);
        if end.Some? && ContentLength(d.buffer[..end.value]).Some? {
          DrainedParse(Decoder(d.buffer[end.value + 4..], ContentLength(d.buffer[..end.value])), parse);
        }
      case Some(n) =>
        if |d.buffer| >= n && good(d.buffer[..n]) { DrainedParse(Decoder(d.buffer[n..], None), parse); }
    }
  }

  /** A chunk arrives: everything complete is dispatched; a throw rejects all that is pending. */
  function Received(c: Client, chunk: Bytes, parse: Bytes -> Option<Message>): Client {
    var r := Accept(c.decoder, chunk, Good(parse));
    DrainedParse(c.decoder.(buffer := c.decoder.buffer + chunk), parse);
    var next := DispatchAll(c, r.bodies, parse).(decoder := r.decoder);
    if r.threw then FailedAll(next) else next
  }

  datatype Action = Request(signal: Signal) | Abort(id: nat) | Chunk(bytes: Bytes) | StreamError

  function Apply(c: Client, a: Action, parse: Bytes -> Option<Message>): Client {
    match a
    case Request(signal) => Requested(c, signal)
    case Abort(id) => AbortedRequest(c, id)
    case Chunk(bytes) => Received(c, bytes, parse)
    case StreamError => FailedAll(c)
  }

  function Run(c: Client, actions: seq<Action>, parse: Bytes -> Option<Message>): Client
    decreases |actions|
  {
    if actions == [] then c else Run(Apply(c, actions[0], parse), actions[1..], parse)
  }

  // ----- every request is settled once -----

  /**
   Every id given out is either pending or settled, never both, and no other id is; an abort listener is attached
   exactly to the pending requests that came with a signal.
   */
  ghost predicate Inv(c: Client) {
    && c.nextId >= 1
    && (forall id :: (id in c.pending || id in c.settled) <==> 1 <= id < c.nextId)
    && (forall id | id in c.pending :: id !in c.settled)
    && c.listening == c.pending * c.signalled && (forall id | id in c.signalled :: id < c.nextId)
  }

  // What has been told to a caller stays told.
  ghost predicate Keeps(a: Client, b: Client) {
    && a.nextId <= b.nextId
    && (forall id | id in a.settled :: id in b.settled && b.settled[id] == a.settled[id])
    && a.signalled <= b.signalled
  }

  lemma DispatchedKeeps(c: Client, body: Bytes, m: Message)
    requires Inv(c)
    ensures Inv(Dispatched(c, body, m)) && Keeps(c, Dispatched(c, body, m))
  {
  }

  lemma {:induction false} DispatchAllKeeps(c: Client, bodies: seq<Bytes>, parse: Bytes -> Option<Message>)
    requires Inv(c) && forall b | b in bodies :: parse(b).Some?
    ensures Inv(DispatchAll(c, bodies, parse)) && Keeps(c, DispatchAll(c, bodies, parse))
    ensures DispatchAll(c, bodies, parse).handled == c.handled + bodies
    decreases |bodies|
  {
    if bodies == [] {
      assert c.handled + [] == c.handled;
    } else {
      var next := Dispatched(c, bodies[0], parse(bodies[0]).value);
      DispatchedKeeps(c, bodies[0], parse(bodies[0]).value);
      DispatchAllKeeps(next, bodies[1..], parse);
      assert c.handled + bodies == (c.handled + [bodies[0]]) + bodies[1..];
    }
  }

  lemma FailedAllKeeps(c: Client)
    requires Inv(c)
    ensures Inv(FailedAll(c)) && Keeps(c, FailedAll(c)) && FailedAll(c).pending == {}
  {
  }

  lemma StepKeeps(c: Client, a: Action, parse: Bytes -> Option<Message>)
    requires Inv(c)
    ensures Inv(Apply(c, a, parse)) && Keeps(c, Apply(c, a, parse))
  {
    match a {
      case Request(_) =>
      case Abort(_) =>
      case Chunk(bytes) =>
        var r := Accept(c.decoder, bytes, Good(parse));
        DrainedParse(c.decoder.(buffer := c.decoder.buffer + bytes), parse);
        DispatchAllKeeps(c, r.bodies, parse);
        FailedAllKeeps(DispatchAll(c, r.bodies, parse).(decoder := r.decoder));
      case StreamError => FailedAllKeeps(c);
    }
  }

  /** Over every run each request id is settled at most once and for good, none is ever lost, and no listener outlives its request. */
  lemma {:induction false} SettledOnce(c: Client, actions: seq<Action>, parse: Bytes -> Option<Message>)
    requires Inv(c)
    ensures Inv(Run(c, actions, parse)) && Keeps(c, Run(c, actions, parse))
    decreases |actions|
  {
    if actions != [] {
      StepKeeps(c, actions[0], parse);
      SettledOnce(Apply(c, actions[0], parse), actions[1..], parse);
    }
  }

  /** An abort settles its request and sends a cancellation exactly if the request came with a signal and is still pending. */
  lemma AbortCancelsIffPending(actions: seq<Action>, id: nat, parse: Bytes -> Option<Message>)
    ensures var c := Run(NewClient(), actions, parse); var next := Apply(c, Abort(id), parse);
      && (next.sent == c.sent + [Cancel(id)] <==> id in c.pending && id in c.signalled)
      && (next != c <==> id in c.pending && id in c.signalled)
      && (next != c ==> next.settled == c.settled[id := Aborted] && id !in c.settled)
  {
    SettledOnce(NewClient(), actions, parse);
    hide Run;
  }

  // The chunks of a run that consists of chunks alone.
  function Chunks(chunks: seq<Bytes>): seq<Action> {
    seq(|chunks|, i requires 0 <= i < |chunks| => Chunk(chunks[i]))
  }

  lemma ChunkHandled(c: Client, chunk: Bytes, parse: Bytes -> Option<Message>)
    requires Inv(c) && !Accept(c.decoder, chunk, Good(parse)).threw
    ensures var a, next := Accept(c.decoder, chunk, Good(parse)), Apply(c, Chunk(chunk), parse);
      Inv(next) && next.decoder == a.decoder && next.handled == c.handled + a.bodies
  {
    hide Drain;
    DrainedParse(c.decoder.(buffer := c.decoder.buffer + chunk), parse);
    DispatchAllKeeps(c, Accept(c.decoder, chunk, Good(parse)).bodies, parse);
    hide DispatchAll;
  }

  lemma {:induction false} ChunksHandled(c: Client, chunks: seq<Bytes>, parse: Bytes -> Option<Message>)
    requires Inv(c) && !AcceptAll(c.decoder, chunks, Good(parse)).threw
    ensures var r := AcceptAll(c.decoder, chunks, Good(parse)); var last := Run(c, Chunks(chunks), parse);
      last.handled == c.handled + r.bodies && last.decoder == r.decoder
    decreases |chunks|
  {
    if chunks == [] {
      assert c.handled + [] == c.handled;
    } else {
      hide *;
      var a := Accept(c.decoder, chunks[0], Good(parse));
      ChunksFirst(c, chunks, parse);
      ChunkHandled(c, chunks[0], parse);
      ChunksHandled(Apply(c, Chunk(chunks[0]), parse), chunks[1..], parse);
      Regroup(c.handled, a.bodies, AcceptAll(a.decoder, chunks[1..], Good(parse)).bodies);
    }
  }

  lemma Regroup<T>(a: seq<T>, b: seq<T>, c: seq<T>)
    ensures (a + b) + c == a + (b + c)
  {
  }

  lemma ChunksFirst(c: Client, chunks: seq<Bytes>, parse: Bytes -> Option<Message>)
    requires chunks != []
    ensures var a := Accept(c.decoder, chunks[0], Good(parse)); var all := AcceptAll(c.decoder, chunks, Good(parse));
      && (a.threw ==> all.threw)
      && (!a.threw ==> all == Then(a, AcceptAll(a.decoder, chunks[1..], Good(parse))))
      && (!a.threw ==>
            all.threw == AcceptAll(a.decoder, chunks[1..], Good(parse)).threw &&
            all.decoder == AcceptAll(a.decoder, chunks[1..], Good(parse)).decoder &&
            all.bodies == a.bodies + AcceptAll(a.decoder, chunks[1..], Good(parse)).bodies)
    ensures Run(c, Chunks(chunks), parse) == Run(Apply(c, Chunk(chunks[0]), parse), Chunks(chunks[1..]), parse)
  {
    hide Accept;
    hide Apply;
    assert Chunks(chunks)[0] == Chunk(chunks[0]) && Chunks(chunks)[1..] == Chunks(chunks[1..]);
  }

  /** Whatever the peer frames with `send` and however it arrives, the client dispatches exactly those bodies, in order. */
  lemma ClientHandlesFrames(bodies: seq<Bytes>, chunks: seq<Bytes>, parse: Bytes -> Option<Message>)
    requires (forall b | b in bodies :: parse(b).Some?) && Concat(chunks) == FrameAll(bodies)
    ensures var last := Run(NewClient(), Chunks(chunks), parse); last.handled == bodies && Idle(last.decoder)
  {
    FramesSurviveChunking(bodies, chunks, Good(parse));
    ChunksHandled(NewClient(), chunks, parse);
    assert [] + bodies == bodies;
  }

  lemma DrainHeader(d: Decoder, good: Bytes -> bool)
    requires d.expected.None?
    ensures var end := HeaderEnd(d.buffer);
      && (end.None? ==> Drain(d, good) == Drained(d, [], false))
      && (end.Some? ==>
            var rest, length := d.buffer[end.value + 4..], ContentLength(d.buffer[..end.value]);
            Drain(d, good) == if length.None? then Drained(Decoder(rest, None), [], true) else Drain(Decoder(rest, length), good))
  {
  }

  lemma DrainBody(d: Decoder, good: Bytes -> bool)
    requires d.expected.Some?
    ensures var n := d.expected.value;
      && (|d.buffer| < n ==> Drain(d, good) == Drained(d, [], false))
      && (|d.buffer| >= n ==>
            var body, next := d.buffer[..n], Decoder(d.buffer[n..], None);
            && (!good(body) ==> Drain(d, good) == Drained(next, [], true))
            && (good(body) ==>
                  var r := Drain(next, good);
                  Drain(d, good).decoder == r.decoder && Drain(d, good).threw == r.threw &&
                  Drain(d, good).bodies != [] && Drain(d, good).bodies[0] == body && Drain(d, good).bodies[1..] == r.bodies))
  {
    if |d.buffer| >= d.expected.value && good(d.buffer[..d.expected.value]) {
      assert ([d.buffer[..d.expected.value]] + Drain(Decoder(d.buffer[d.expected.value..], None), good).bodies)[1..] ==
        Drain(Decoder(d.buffer[d.expected.value..], None), good).bodies;
    }
  }

  lemma DispatchFirst(c: Client, bodies: seq<Bytes>, parse: Bytes -> Option<Message>)
    requires bodies != [] && forall b | b in bodies :: parse(b).Some?
    ensures DispatchAll(c, bodies, parse) == DispatchAll(Dispatched(c, bodies[0], parse(bodies[0]).value), bodies[1..], parse)
  {
  }

  lemma {:induction false} DispatchIgnoresDecoder(c: Client, d: Decoder, bodies: seq<Bytes>, parse: Bytes -> Option<Message>)
    requires forall b | b in bodies :: parse(b).Some?
    ensures DispatchAll(c, bodies, parse).(decoder := d) == DispatchAll(c.(decoder := d), bodies, parse)
    decreases |bodies|
  {
    if bodies != [] { DispatchIgnoresDecoder(Dispatched(c, bodies[0], parse(bodies[0]).value), d, bodies[1..], parse); }
  }

  // What taking one body off the buffer can come to.
  datatype Step = Wait | BadHeader | Body(body: Bytes)

  ghost predicate Stepped(before: Decoder, step: Step, after: Decoder, parse: Bytes -> Option<Message>) {
    var good := Good(parse);
    match step
    case Wait => Drain(before, good) == Drained(after, [], false)
    case BadHeader => Drain(before, good) == Drained(after, [], true)
    case Body(body) =>
      if parse(body).None? then Drain(before, good) == Drained(after, [], true)
      else
        var r := Drain(after, good);
        && Drain(before, good).decoder == r.decoder && Drain(before, good).threw == r.threw
        && Drain(before, good).bodies != [] && Drain(before, good).bodies[0] == body && Drain(before, good).bodies[1..] == r.bodies
  }

  lemma StepDrains(left: seq<Bytes>, all: Drained, step: Step, after: Decoder, parse: Bytes -> Option<Message>)
    requires exists before: Decoder :: Stepped(before, step, after, parse) && Drain(before, Good(parse)) == Drained(all.decoder, left, all.threw)
    ensures step.Wait? ==> left == [] && after == all.decoder && !all.threw
    ensures step.BadHeader? || (step.Body? && parse(step.body).None?) ==> left == [] && after == all.decoder && all.threw
    ensures step.Body? && parse(step.body).Some? ==>
      left != [] && left[0] == step.body && Drain(after, Good(parse)) == Drained(all.decoder, left[1..], all.threw)
  {
    hide Drain;
  }

  lemma DispatchedElsewhere(c: Client, d: Decoder, body: Bytes, m: Message)
    ensures Dispatched(c.(decoder := d), body, m) == Dispatched(c, body, m).(decoder := d)
  {
  }

  lemma LastDispatch(c: Client, left: seq<Bytes>, parse: Bytes -> Option<Message>)
    ensures left == [] ==> DispatchAll(c, left, parse) == c
  {
  }

  // ----- the object -----

  class LspJsonRpcClient {
    const parse: Bytes -> Option<Message>
    var nextId: nat
    var buffer: Bytes
    var expectedBodyBytes: Option<nat>
    var pending: set<int>
    var listening: set<int>
    var sent: seq<Sent>
    ghost var settled: map<int, Outcome>
    ghost var signalled: set<int>
    ghost var handled: seq<Bytes>

    ghost function View(): Client
      reads this
    {
      Client(Decoder(buffer, expectedBodyBytes), nextId, pending, listening, sent, settled, signalled, handled)
    }

    constructor (parse: Bytes -> Option<Message>)
      ensures this.parse == parse && View() == NewClient()
    {
      this.parse := parse;
      nextId, buffer, expectedBodyBytes, pending, listening, sent := 1, [], None, {}, {}, [];
      settled, signalled, handled := map[], {}, [];
    }

    method Request(signal: Signal) returns (id: nat)
      modifies this
      ensures View() == Requested(old(View()), signal) && id == old(nextId)
    {
      id := nextId;
      nextId := nextId + 1;
      if signal.AlreadyAborted? {
        settled := settled[id := Aborted];
        sent := sent + [Cancel(id)];
        return;
      }
      pending := pending + {id};
      if signal.Live? {
        listening := listening + {id};
        signalled := signalled + {id};
      }
      sent := sent + [Call(id)];
    }

    /** The abort event of the signal of request `id`. */
    method OnAbort(id: nat)
      modifies this
      ensures View() == AbortedRequest(old(View()), id)
    {
      if id in listening {
        listening := listening - {id};
        pending := pending - {id};
        sent := sent + [Cancel(id)];
        settled := settled[id := Aborted];
      }
    }

    method Dispatch(body: Bytes, m: Message)
      modifies this
      ensures View() == Dispatched(old(View()), body, m)
    {
      handled := handled + [body];
      match m {
        case Reply(id, failed) =>
          if id in pending {
            pending := pending - {id};
            listening := listening - {id};
            settled := settled[id := if failed then RejectedByServer else Resolved];
          }
        case ServerRequest(id, _) => sent := sent + [Answer(id)];
        case _ =>
      }
    }

    method FailAll()
      modifies this
      ensures View() == FailedAll(old(View()))
    {
      settled := map id | id in settled.Keys + pending :: if id in pending then Failed else settled[id];
      listening := listening - pending;
      pending := {};
    }

    /** Take one complete body off the buffer, if there is one. */
    method NextBody() returns (step: Step)
      modifies this`buffer, this`expectedBodyBytes
      ensures Stepped(Decoder(old(buffer), old(expectedBodyBytes)), step, Decoder(buffer, expectedBodyBytes), parse)
      ensures step.Body? ==>
        expectedBodyBytes.None? && (|buffer| < old(|buffer|) || (|buffer| == old(|buffer|) && old(expectedBodyBytes).Some?))
    {
      ghost var good := Good(parse);
      hide HeaderEnd;
      hide ContentLength;
      hide Drain;
      if expectedBodyBytes.None? {
        DrainHeader(Decoder(buffer, None), good);
        var end := HeaderEnd(buffer);
        if end.None? { return Wait; }
        var length := ContentLength(buffer[..end.value]);
        buffer := buffer[end.value + 4..];
        if length.None? { return BadHeader; }
        expectedBodyBytes := length;
      }
      DrainBody(Decoder(buffer, expectedBodyBytes), good);
      if |buffer| < expectedBodyBytes.value { return Wait; }
      step := Body(buffer[..expectedBodyBytes.value]);
      buffer := buffer[expectedBodyBytes.value..];
      expectedBodyBytes := None;
    }

    /** The accept loop; `threw` tells that a header or a body could not be read. */
    method AcceptLoop(chunk: Bytes) returns (threw: bool)
      modifies this
      ensures var r := Accept(old(View().decoder), chunk, Good(parse));
        && threw == r.threw
        && (forall b | b in r.bodies :: parse(b).Some?)
        && View() == DispatchAll(old(View()), r.bodies, parse).(decoder := r.decoder)
    {
      ghost var all := Accept(View().decoder, chunk, Good(parse));
      DrainedParse(View().decoder.(buffer := View().decoder.buffer + chunk), parse);
      ghost var goal := DispatchAll(View(), all.bodies, parse);
      ghost var now := View();
      buffer := buffer + chunk;
      ghost var left := all.bodies;
      while true
        invariant Drain(Decoder(buffer, expectedBodyBytes), Good(parse)) == Drained(all.decoder, left, all.threw)
        invariant forall b | b in left :: parse(b).Some?
        invariant View() == now.(decoder := Decoder(buffer, expectedBodyBytes)) && DispatchAll(now, left, parse) == goal
        decreases |buffer|, if expectedBodyBytes.Some? then 1 else 0
      {
        hide Drain;
        hide DispatchAll;
        hide Good;
        hide Stepped;
        hide Dispatched;
        var step := NextBody();
        StepDrains(left, all, step, Decoder(buffer, expectedBodyBytes), parse);
        if step.Wait? { LastDispatch(now, left, parse); return false; }
        if step.BadHeader? { LastDispatch(now, left, parse); return true; }
        var message := parse(step.body);
        if message.None? { LastDispatch(now, left, parse); return true; }
        DispatchFirst(now, left, parse);
        DispatchedElsewhere(now, Decoder(buffer, expectedBodyBytes), step.body, message.value);
        now, left := Dispatched(now, step.body, message.value), left[1..];
        Dispatch(step.body, message.value);
      }
    }

    /** The data listener: the loop, and the rejection of everything pending when it throws. */
    method OnData(chunk: Bytes)
      modifies this
      ensures View() == Received(old(View()), chunk, parse)
    {
      var threw := AcceptLoop(chunk);
      if threw { FailAll(); }
    }
  }
}
