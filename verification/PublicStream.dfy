/** The stateful translation of a session's log into its public stream, snapshots and recovery. */
module PublicStream {
  import opened Wrappers
  import opened PublicProtocol

  // ----- the session's log -----

  // Fields stand for what the payload reads give: "" for a missing string, None for an absent option.
  datatype DomainBody =
    | SessionStarted
    | SessionStopped
    | MessageAppended(role: Role, text: string)
    | OperationRequested(operationId: string, toolName: string)
    | OperationStarted(operationId: string)
    | OperationCompleted(operationId: string, outcome: Option<Outcome>, isReadOnly: bool, declared: Option<EffectStatus>)
    | OperationInterrupted(operationId: string)
    | OperationNoted(operationId: string)
    | InputWasAdmitted(commandId: string, input: string, requested: Disposition, admitted: Disposition,
                       fallback: Option<string>, target: Option<string>, item: Option<string>)
    | ExecutionStarted(executionId: string, sourceCommandId: string, startedAt: string)
    | CancelRequestedFor(executionId: string)
    | ExecutionCompleted(executionId: string, completedAt: string)
    | QueueItemAdmitted(queueItemId: string, itemCommandId: string, position: int, itemText: string, admittedAt: string)
    | QueueItemPromoted(queueItemId: string)
    | PermissionRequested(interactionId: string, tool: string, description: string, operation: Option<string>)
    | PermissionResolved(interactionId: string, decision: Decision)
    | Unrelated

  datatype DomainEvent = DomainEvent(sequence: nat, sessionId: string, eventId: string, occurredAt: string, body: DomainBody)

  /** Sequences are positive and strictly increase. */
  ghost predicate Ordered(events: seq<DomainEvent>) {
    && (forall i | 0 <= i < |events| :: events[i].sequence > 0)
    && (forall i, j | 0 <= i < j < |events| :: events[i].sequence < events[j].sequence)
  }

  /** The events of one session, in log order. */
  function SessionEvents(log: seq<DomainEvent>, sessionId: string): seq<DomainEvent> {
    if log == [] then []
    else
      var last := log[|log| - 1];
      SessionEvents(log[..|log| - 1], sessionId) + (if last.sessionId == sessionId then [last] else [])
  }

  lemma {:induction false} SessionIn(log: seq<DomainEvent>, sessionId: string, e: DomainEvent)
    ensures e in SessionEvents(log, sessionId) <==> e in log && e.sessionId == sessionId
    decreases |log|
  {
    if log != [] {
      SessionIn(log[..|log| - 1], sessionId, e);
      assert log == log[..|log| - 1] + [log[|log| - 1]];
    }
  }

  lemma SessionBelow(log: seq<DomainEvent>, sessionId: string, e: DomainEvent)
    requires log != [] && Ordered(log) && e in SessionEvents(log[..|log| - 1], sessionId)
    ensures e.sequence < log[|log| - 1].sequence
  {
    SessionIn(log[..|log| - 1], sessionId, e);
    var k :| 0 <= k < |log| - 1 && log[..|log| - 1][k] == e;
  }

  lemma {:induction false} SessionOrdered(log: seq<DomainEvent>, sessionId: string)
    requires Ordered(log)
    ensures Ordered(SessionEvents(log, sessionId))
    decreases |log|
  {
    if log != [] {
      var n := |log| - 1;
      var before := SessionEvents(log[..n], sessionId);
      SessionOrdered(log[..n], sessionId);
      forall i | 0 <= i < |before| ensures before[i].sequence < log[n].sequence { SessionBelow(log, sessionId, before[i]); }
    }
  }

  lemma {:induction false} SessionGrows(log: seq<DomainEvent>, more: seq<DomainEvent>, sessionId: string)
    ensures SessionEvents(log, sessionId) <= SessionEvents(log + more, sessionId)
    decreases |more|
  {
    if more == [] {
      assert log + more == log;
    } else {
      SessionGrows(log, more[..|more| - 1], sessionId);
      assert (log + more)[..|log + more| - 1] == log + more[..|more| - 1];
    }
  }

  // ----- the translation -----

  function CauseOf(body: DomainBody): Cause {
    match body
    case InputWasAdmitted(_, _, _, _, _, _, _) => ByUser
    case QueueItemAdmitted(_, _, _, _, _) => ByUser
    case QueueItemPromoted(_) => ByUser
    case OperationRequested(_, _) => ByCapability
    case OperationStarted(_) => ByCapability
    case OperationCompleted(_, _, _, _) => ByCapability
    case OperationInterrupted(_) => ByCapability
    case OperationNoted(_) => ByCapability
    case MessageAppended(role, _) => if role == User then ByUser else ByAgent
    case _ => ByHost
  }

  function DefaultEffect(outcome: Outcome, isReadOnly: bool): EffectStatus {
    if isReadOnly then NotApplicable else if outcome == Succeeded then Confirmed else Indeterminate
  }

  function DefaultReconciliation(effect: EffectStatus): Reconciliation {
    if effect == Indeterminate then Reconciliation.Pending else NotRequired
  }

  predicate IsOperation(body: DomainBody) {
    body.OperationRequested? || body.OperationStarted? || body.OperationCompleted? || body.OperationInterrupted? || body.OperationNoted?
  }

  function ToPublicOperation(current: Option<Operation>, e: DomainEvent): Option<Operation>
    requires IsOperation(e.body)
  {
    if e.body.operationId == "" then current
    else match e.body
      case OperationRequested(id, tool) => Some(Operation(id, tool, Requested, None, Indeterminate, NotRequired, None, None))
      case OperationStarted(_) =>
        if current.None? then None else Some(current.value.(lifecycle := Started, startedAt := Some(e.occurredAt)))
      case OperationCompleted(_, outcome, isReadOnly, declared) =>
        if current.None? || outcome.None? then current
        else
          var effect := if declared.Some? then declared.value else DefaultEffect(outcome.value, isReadOnly);
          Some(current.value.(lifecycle := Terminal, outcome := outcome, effect := effect,
                              reconciliation := DefaultReconciliation(effect), completedAt := Some(e.occurredAt)))
      case OperationInterrupted(_) =>
        if current.None? then None else Some(current.value.(effect := Indeterminate, reconciliation := Reconciliation.Pending))
      case _ => current
  }

  datatype Projection = Projection(out: seq<PublicEvent>, operations: map<string, Operation>, executions: map<string, Execution>,
                                   permissions: map<string, Interaction>, cursor: nat)

  function Push(t: Projection, sessionId: string, e: DomainEvent, body: Body): Projection {
    t.(out := t.out + [PublicEvent(sessionId, t.cursor, e.sequence, e.occurredAt, CauseOf(e.body), body)], cursor := e.sequence)
  }

  function Get<T>(m: map<string, T>, id: string): Option<T> {
    if id in m then Some(m[id]) else None
  }

  function Or(text: string, fallback: string): string {
    if text == "" then fallback else text
  }

  datatype Act = Act(maps: Projection, body: Option<Body>)

  function SetExecution(t: Projection, id: string, x: Execution): Act {
    Act(t.(executions := t.executions[id := x]), Some(ExecutionUpserted(x)))
  }

  function SetPermission(t: Projection, id: string, x: Interaction): Act {
    Act(t.(permissions := t.permissions[id := x]), Some(PermissionUpserted(x)))
  }

  /** One event of the log: what it changes in the local maps, and what it puts on the stream. */
  function ActOn(t: Projection, e: DomainEvent): (r: Act)
    ensures r.maps.out == t.out && r.maps.cursor == t.cursor
  {
    match e.body
    case SessionStarted => Act(t, Some(SessionUpdated(Active)))
    case SessionStopped => Act(t, Some(SessionUpdated(Stopped)))
    case MessageAppended(role, text) => Act(t, Some(TranscriptAppended(Message(e.eventId, e.sequence, role, text))))
    case InputWasAdmitted(commandId, input, requested, admitted, fallback, target, item) =>
      Act(t, Some(InputAdmitted(commandId, input, requested, admitted, fallback, target, item)))
    case ExecutionStarted(id, command, startedAt) =>
      SetExecution(t, id, Execution(id, command, Running, Or(startedAt, e.occurredAt), None))
    case CancelRequestedFor(id) =>
      if id in t.executions then SetExecution(t, id, t.executions[id].(status := CancelRequested)) else Act(t, None)
    case ExecutionCompleted(id, completedAt) =>
      if id in t.executions
      then SetExecution(t, id, t.executions[id].(status := Completed, completedAt := Some(Or(completedAt, e.occurredAt))))
      else Act(t, None)
    case QueueItemAdmitted(id, command, position, text, admittedAt) =>
      Act(t, Some(QueueUpserted(QueueItem(id, command, position, text, Or(admittedAt, e.occurredAt)))))
    case QueueItemPromoted(id) => Act(t, Some(QueueRemoved(id)))
    case PermissionRequested(id, tool, description, operation) =>
      SetPermission(t, id, Interaction(id, tool, description, operation, None))
    case PermissionResolved(id, decision) =>
      if id in t.permissions then SetPermission(t, id, t.permissions[id].(resolved := Some(decision))) else Act(t, None)
    case Unrelated => Act(t, None)
    case _ =>
      var id := e.body.operationId;
      var next := ToPublicOperation(Get(t.operations, id), e);
      if next.Some? && id != "" then Act(t.(operations := t.operations[id := next.value]), Some(OperationUpserted(next.value)))
      else Act(t, None)
  }

  function Translate(t: Projection, sessionId: string, e: DomainEvent): Projection {
    var act := ActOn(t, e);
    if act.body.Some? then Push(act.maps, sessionId, e, act.body.value) else act.maps
  }

  function Project(sessionId: string, events: seq<DomainEvent>, n: nat): Projection
    requires n <= |events|
  {
    if n == 0 then Projection([], map[], map[], map[], 0)
    else Translate(Project(sessionId, events, n - 1), sessionId, events[n - 1])
  }

  function PublicEvents(sessionId: string, events: seq<DomainEvent>): seq<PublicEvent> {
    Project(sessionId, events, |events|).out
  }

  /** The translation loop over a session's events. */
  method GetPublicEvents(sessionId: string, events: seq<DomainEvent>) returns (result: seq<PublicEvent>)
    ensures result == PublicEvents(sessionId, events)
  {
    result := [];
    var operations: map<string, Operation> := map[];
    var executions: map<string, Execution> := map[];
    var permissions: map<string, Interaction> := map[];
    var publicCursor: nat := 0;
    for i := 0 to |events|
      invariant Projection(result, operations, executions, permissions, publicCursor) == Project(sessionId, events, i)
    {
      var e := events[i];
      var body: Option<Body> := None;
      match e.body {
      case SessionStarted => body := Some(SessionUpdated(Active));
      case SessionStopped => body := Some(SessionUpdated(Stopped));
      case MessageAppended(role, text) => body := Some(TranscriptAppended(Message(e.eventId, e.sequence, role, text)));
      case InputWasAdmitted(commandId, input, requested, admitted, fallback, target, item) =>
        body := Some(InputAdmitted(commandId, input, requested, admitted, fallback, target, item));
      case ExecutionStarted(id, command, startedAt) =>
        var x := Execution(id, command, Running, Or(startedAt, e.occurredAt), None);
        executions := executions[id := x];
        body := Some(ExecutionUpserted(x));
      case CancelRequestedFor(id) =>
        if id in executions {
          var x := executions[id].(status := CancelRequested);
          executions := executions[id := x];
          body := Some(ExecutionUpserted(x));
        }
      case ExecutionCompleted(id, completedAt) =>
        if id in executions {
          var x := executions[id].(status := Completed, completedAt := Some(Or(completedAt, e.occurredAt)));
          executions := executions[id := x];
          body := Some(ExecutionUpserted(x));
        }
      case QueueItemAdmitted(id, command, position, text, admittedAt) =>
        body := Some(QueueUpserted(QueueItem(id, command, position, text, Or(admittedAt, e.occurredAt))));
      case QueueItemPromoted(id) => body := Some(QueueRemoved(id));
      case PermissionRequested(id, tool, description, operation) =>
        var x := Interaction(id, tool, description, operation, None);
        permissions := permissions[id := x];
        body := Some(PermissionUpserted(x));
      case PermissionResolved(id, decision) =>
        if id in permissions {
          var x := permissions[id].(resolved := Some(decision));
          permissions := permissions[id := x];
          body := Some(PermissionUpserted(x));
        }
      case Unrelated =>
      case _ =>
        var id := e.body.operationId;
        var next := ToPublicOperation(Get(operations, id), e);
        if next.Some? && id != "" {
          operations := operations[id := next.value];
          body := Some(OperationUpserted(next.value));
        }
      }
      if body.Some? {
        result := result + [PublicEvent(sessionId, publicCursor, e.sequence, e.occurredAt, CauseOf(e.body), body.value)];
        publicCursor := e.sequence;
      }
    }
  }

  // ----- the stream is a chain, and grows at its end -----

  // The stream so far, and where its cursor stands.
  ghost predicate StreamOk(sessionId: string, t: Projection, bound: nat) {
    Chained(sessionId, 0, t.out) && t.cursor == EndOf(0, t.out) && t.cursor <= bound
  }

  lemma PushChains(t: Projection, sessionId: string, e: DomainEvent, body: Body, bound: nat)
    requires StreamOk(sessionId, t, bound) && e.sequence > bound
    ensures StreamOk(sessionId, Push(t, sessionId, e, body), e.sequence)
  {
    var next := Push(t, sessionId, e, body);
    forall i | 0 <= i < |next.out| ensures LinkAt(sessionId, 0, next.out, i) {
      if i < |t.out| { assert LinkAt(sessionId, 0, t.out, i); }
    }
  }

  lemma {:induction false} ProjectChains(sessionId: string, events: seq<DomainEvent>, n: nat)
    requires Ordered(events) && n <= |events|
    ensures StreamOk(sessionId, Project(sessionId, events, n), if n == 0 then 0 else events[n - 1].sequence)
    decreases n
  {
    if n > 0 {
      var t, e := Project(sessionId, events, n - 1), events[n - 1];
      ProjectChains(sessionId, events, n - 1);
      var act := ActOn(t, e);
      hide ActOn;
      if act.body.Some? {
        PushChains(act.maps, sessionId, e, act.body.value, if n == 1 then 0 else events[n - 2].sequence);
      }
    }
  }

  lemma {:induction false} ProjectPrefix(sessionId: string, events: seq<DomainEvent>, later: seq<DomainEvent>, n: nat)
    requires events <= later && n <= |events|
    ensures Project(sessionId, events, n) == Project(sessionId, later, n)
    decreases n
  {
    if n > 0 { ProjectPrefix(sessionId, events, later, n - 1); }
  }

  lemma {:induction false} ProjectGrows(sessionId: string, events: seq<DomainEvent>, m: nat, n: nat)
    requires m <= n <= |events|
    ensures Project(sessionId, events, m).out <= Project(sessionId, events, n).out
    decreases n
  {
    if m < n {
      ProjectGrows(sessionId, events, m, n - 1);
      hide ActOn;
    }
  }

  /** A longer log only extends the public stream. */
  lemma StreamGrows(sessionId: string, events: seq<DomainEvent>, later: seq<DomainEvent>)
    requires events <= later
    ensures PublicEvents(sessionId, events) <= PublicEvents(sessionId, later)
  {
    ProjectPrefix(sessionId, events, later, |events|);
    ProjectGrows(sessionId, later, |events|, |later|);
  }

  /** Every public event continues the one before it, from cursor 0 on. */
  lemma StreamChained(sessionId: string, events: seq<DomainEvent>)
    requires Ordered(events)
    ensures Chained(sessionId, 0, PublicEvents(sessionId, events))
  {
    ProjectChains(sessionId, events, |events|);
  }
}
