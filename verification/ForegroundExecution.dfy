/**
 Commands of one session, run one at a time, beside completions that are reported concurrently:
 at most one foreground execution is unfinished. Each step is what happens between two awaits.
 */
module ForegroundExecution {
  import opened Wrappers
  import opened PublicProtocol
  import opened PublicStream
  import opened PublicSnapshots

  // What the command in progress still has to append.
  datatype Plan =
    | StartPlan(executionId: string)  // a new input or a promoted queue item, when no execution was active
    | StartedPlan(executionId: string) // the agent has been asked to start and may refuse
    | CancelPlan(executionId: string) // the execution that was active when the command read the snapshot

  // `marks` are the reports of a completion, each naming the execution that was active when it read.
  datatype World = World(sessionId: string, log: seq<DomainEvent>, plan: Option<Plan>, marks: seq<Option<string>>)

  datatype Action =
    | BeginStart(executionId: string)
    | BeginCancel
    | AppendPlan(e: DomainEvent)
    | AppendRefusal(e: DomainEvent)
    | EndCommand
    | BeginMark
    | AppendMark(j: nat, e: DomainEvent)
    | AppendOther(e: DomainEvent)

  ghost predicate Next(sessionId: string, log: seq<DomainEvent>, e: DomainEvent) {
    e.sessionId == sessionId && Ordered(log + [e])
  }

  ghost function ActiveOf(sessionId: string, log: seq<DomainEvent>): Option<string>
    requires Ordered(log)
  {
    SnapshotExists(sessionId, log);
    GetSnapshot(sessionId, log).value.session.active
  }

  function Executions(sessionId: string, log: seq<DomainEvent>): map<string, Execution> {
    Project(sessionId, log, |log|).executions
  }

  function UnfinishedIn(executions: map<string, Execution>): set<string> {
    set id | id in executions && executions[id].status != Completed
  }

  function Unfinished(sessionId: string, log: seq<DomainEvent>): set<string> {
    UnfinishedIn(Executions(sessionId, log))
  }

  // The idempotency keys "application.execution.completed:id", "...cancel_requested:id", "runtime.session.started:id"
  // and "...stopped:id" admit one row each.
  predicate CompletedOnce(log: seq<DomainEvent>, id: string) {
    exists i :: 0 <= i < |log| && log[i].body.ExecutionCompleted? && log[i].body.executionId == id
  }

  predicate CancelledOnce(log: seq<DomainEvent>, id: string) {
    exists i :: 0 <= i < |log| && log[i].body == CancelRequestedFor(id)
  }

  predicate SessionOnce(log: seq<DomainEvent>, body: DomainBody) {
    exists i :: 0 <= i < |log| && log[i].body == body
  }

  predicate IsExecution(body: DomainBody) {
    body.ExecutionStarted? || body.ExecutionCompleted? || body.CancelRequestedFor?
  }

  predicate IsSession(body: DomainBody) {
    body.SessionStarted? || body.SessionStopped?
  }

  ghost predicate Enabled(w: World, a: Action)
    requires Ordered(w.log)
  {
    match a
    case BeginStart(id) => w.plan.None? && ActiveOf(w.sessionId, w.log).None? && id !in Executions(w.sessionId, w.log)
    case BeginCancel => w.plan.None? && ActiveOf(w.sessionId, w.log).Some?
    case AppendPlan(e) =>
      && Next(w.sessionId, w.log, e) && w.plan.Some? && !w.plan.value.StartedPlan?
      && (if w.plan.value.StartPlan? then e.body.ExecutionStarted? && e.body.executionId == w.plan.value.executionId
          else e.body == CancelRequestedFor(w.plan.value.executionId))
    case AppendRefusal(e) =>
      Next(w.sessionId, w.log, e) && w.plan.Some? && w.plan.value.StartedPlan? && e.body.ExecutionCompleted? && e.body.executionId == w.plan.value.executionId
    case EndCommand => w.plan.Some? && !w.plan.value.StartPlan?
    case BeginMark => ActiveOf(w.sessionId, w.log).Some?
    case AppendMark(j, e) =>
      j < |w.marks| && w.marks[j].Some? && Next(w.sessionId, w.log, e) && e.body.ExecutionCompleted? && e.body.executionId == w.marks[j].value
    case AppendOther(e) => Next(w.sessionId, w.log, e) && !IsExecution(e.body)
  }

  function Once(log: seq<DomainEvent>, e: DomainEvent): seq<DomainEvent> {
    if e.body.ExecutionCompleted? && CompletedOnce(log, e.body.executionId) then log
    else if e.body.CancelRequestedFor? && CancelledOnce(log, e.body.executionId) then log
    else if IsSession(e.body) && SessionOnce(log, e.body) then log
    else log + [e]
  }

  ghost function Apply(w: World, a: Action): World
    requires Ordered(w.log)
  {
    if !Enabled(w, a) then w
    else match a
      case BeginStart(id) => w.(plan := Some(StartPlan(id)))
      case BeginCancel => w.(plan := Some(CancelPlan(ActiveOf(w.sessionId, w.log).value)))
      case AppendPlan(e) =>
        w.(log := Once(w.log, e), plan := if w.plan.value.StartPlan? then Some(StartedPlan(w.plan.value.executionId)) else None)
      case AppendRefusal(e) => w.(log := Once(w.log, e), plan := None)
      case EndCommand => w.(plan := None)
      case BeginMark => w.(marks := w.marks + [Some(ActiveOf(w.sessionId, w.log).value)])
      case AppendMark(j, e) => w.(log := Once(w.log, e), marks := w.marks[j := None])
      case AppendOther(e) => w.(log := Once(w.log, e))
  }

  lemma ApplyOrdered(w: World, a: Action)
    requires Ordered(w.log)
    ensures Ordered(Apply(w, a).log)
  {
  }

  // A session event that is not a repeated one resets the active execution; this asks that none is unfinished then.
  ghost predicate Calm(w: World, a: Action)
    requires Ordered(w.log)
  {
    a.AppendOther? && IsSession(a.e.body) && !SessionOnce(w.log, a.e.body) ==> Unfinished(w.sessionId, w.log) == {}
  }

  ghost predicate CalmRun(w: World, actions: seq<Action>)
    requires Ordered(w.log)
    decreases |actions|
  {
    ApplyOrdered(w, if actions == [] then EndCommand else actions[0]);
    actions != [] ==> Calm(w, actions[0]) && CalmRun(Apply(w, actions[0]), actions[1..])
  }

  ghost function Run(w: World, actions: seq<Action>): World
    requires Ordered(w.log)
    decreases |actions|
  {
    ApplyOrdered(w, if actions == [] then EndCommand else actions[0]);
    if actions == [] then w else Run(Apply(w, actions[0]), actions[1..])
  }

  // ----- what the snapshot says about unfinished executions -----

  lemma {:induction false} CurrentIsUnfinished(items: seq<Execution>)
    ensures CurrentExecution(items).None? ==> forall x | x in items :: x.status == Completed
    ensures CurrentExecution(items).Some? ==>
      exists x :: x in items && x.status != Completed && x.executionId == CurrentExecution(items).value
    decreases |items|
  {
    if items != [] {
      var n := |items| - 1;
      assert items == items[..n] + [items[n]];
      if items[n].status == Completed {
        CurrentIsUnfinished(items[..n]);
        if CurrentExecution(items).Some? {
          var x :| x in items[..n] && x.status != Completed && x.executionId == CurrentExecution(items).value;
          assert x in items;
        }
      } else {
        assert items[n] in items;
      }
    }
  }

  ghost predicate Solo(sessionId: string, log: seq<DomainEvent>) {
    && Ordered(log)
    && (forall a, b | a in Unfinished(sessionId, log) && b in Unfinished(sessionId, log) :: a == b)
    && (!FollowsExecutions(sessionId, log, |log|) ==> Unfinished(sessionId, log) == {})
  }

  // The snapshot's active execution is the unfinished one.
  lemma ActiveIsUnfinished(sessionId: string, log: seq<DomainEvent>)
    requires Solo(sessionId, log)
    ensures Unfinished(sessionId, log) == (if ActiveOf(sessionId, log).Some? then {ActiveOf(sessionId, log).value} else {})
  {
    SnapshotMeaning(sessionId, log);
    var s := GetSnapshot(sessionId, log).value;
    var t := Project(sessionId, log, |log|);
    hide GetSnapshot;
    hide MirrorsLog;
    if FollowsExecutions(sessionId, log, |log|) { ListAndMap(t, s); }
  }

  lemma ListAndMap(t: Projection, s: Snapshot)
    requires MirrorsMaps(t, s) && SnapshotOk(s) && Keyed(t)
    ensures CurrentExecution(s.executions).None? ==> UnfinishedIn(t.executions) == {}
    ensures CurrentExecution(s.executions).Some? ==> CurrentExecution(s.executions).value in UnfinishedIn(t.executions)
  {
    CurrentIsUnfinished(s.executions);
    if CurrentExecution(s.executions).Some? {
      var x :| x in s.executions && x.status != Completed && x.executionId == CurrentExecution(s.executions).value;
      LookupIff(s.executions, ExecutionId, x);
      assert Lookup(s.executions, ExecutionId, x.executionId) == Get(t.executions, x.executionId);
    } else {
      forall id | id in t.executions ensures t.executions[id].status == Completed {
        assert Lookup(s.executions, ExecutionId, id) == Get(t.executions, id);
        LookupHas(s.executions, ExecutionId, id);
      }
    }
  }

  // ----- one append -----

  /** The unfinished executions after one more event. */
  function UnfinishedAfter(executions: map<string, Execution>, e: DomainEvent): set<string> {
    match e.body
    case ExecutionStarted(id, _, _) => UnfinishedIn(executions) + {id}
    case CancelRequestedFor(id) => UnfinishedIn(executions) + (if id in executions then {id} else {})
    case ExecutionCompleted(id, _) => UnfinishedIn(executions) - {id}
    case _ => UnfinishedIn(executions)
  }

  // The event's own effect on the local map and on the stream.
  lemma ActUnfinished(t: Projection, e: DomainEvent)
    ensures UnfinishedIn(ActOn(t, e).maps.executions) == UnfinishedAfter(t.executions, e)
    ensures var body := ActOn(t, e).body;
      && (body.Some? && body.value.ExecutionUpserted? <==>
            e.body.ExecutionStarted? || (IsExecution(e.body) && e.body.executionId in t.executions))
      && (body.Some? && body.value.SessionUpdated? <==> IsSession(e.body))
  {
  }

  lemma Appended(sessionId: string, log: seq<DomainEvent>, e: DomainEvent)
    ensures Unfinished(sessionId, log + [e]) == UnfinishedAfter(Executions(sessionId, log), e)
    ensures FollowsExecutions(sessionId, log + [e], |log + [e]|) ==
      if e.body.ExecutionStarted? || (IsExecution(e.body) && e.body.executionId in Executions(sessionId, log)) then true
      else if IsSession(e.body) then false
      else FollowsExecutions(sessionId, log, |log|)
  {
    hide ActOn;
    hide UnfinishedAfter;
    ProjectPrefix(sessionId, log, log + [e], |log|);
    FollowsPrefix(sessionId, log, log + [e], |log|);
    ActUnfinished(Project(sessionId, log, |log|), e);
  }

  lemma {:induction false} FollowsPrefix(sessionId: string, log: seq<DomainEvent>, later: seq<DomainEvent>, n: nat)
    requires log <= later && n <= |log|
    ensures FollowsExecutions(sessionId, log, n) == FollowsExecutions(sessionId, later, n)
    decreases n
  {
    hide ActOn;
    if n > 0 {
      ProjectPrefix(sessionId, log, later, n - 1);
      FollowsPrefix(sessionId, log, later, n - 1);
    }
  }

  // What each kind of event needs in order to keep the executions single.
  ghost predicate Harmless(unfinished: set<string>, e: DomainEvent) {
    && (e.body.ExecutionStarted? ==> unfinished == {})
    && (e.body.CancelRequestedFor? ==> unfinished <= {e.body.executionId})
    && (IsSession(e.body) ==> unfinished == {})
  }

  lemma OnceKeeps(sessionId: string, log: seq<DomainEvent>, e: DomainEvent)
    requires Solo(sessionId, log) && Next(sessionId, log, e)
    requires (IsSession(e.body) && SessionOnce(log, e.body)) || Harmless(Unfinished(sessionId, log), e)
    ensures Solo(sessionId, Once(log, e))
    ensures e.body.ExecutionCompleted? || !IsExecution(e.body) ==> Unfinished(sessionId, Once(log, e)) <= Unfinished(sessionId, log)
  {
    Appended(sessionId, log, e);
    hide FollowsExecutions;
    hide Project;
    hide UnfinishedIn;
  }

  // ----- every interleaving -----

  ghost predicate Inv(w: World) {
    && Solo(w.sessionId, w.log)
    && (w.plan.Some? && w.plan.value.StartPlan? ==> Unfinished(w.sessionId, w.log) == {})
    && (w.plan.Some? && w.plan.value.CancelPlan? ==> Unfinished(w.sessionId, w.log) <= {w.plan.value.executionId})
  }

  lemma StepKeeps(w: World, a: Action)
    requires Inv(w) && Calm(w, a)
    ensures Inv(Apply(w, a))
  {
    if Enabled(w, a) {
      ActiveIsUnfinished(w.sessionId, w.log);
      hide Solo;
      hide Unfinished;
      hide ActiveOf;
      match a {
        case AppendPlan(e) => OnceKeeps(w.sessionId, w.log, e);
        case AppendRefusal(e) => OnceKeeps(w.sessionId, w.log, e);
        case AppendMark(_, e) => OnceKeeps(w.sessionId, w.log, e);
        case AppendOther(e) => OnceKeeps(w.sessionId, w.log, e);
        case _ =>
      }
    }
  }

  /**
   Over every interleaving of serial commands and concurrent completions in which session events come
   only while nothing runs, at most one execution is unfinished, and it is the snapshot's active one.
   */
  lemma {:induction false} OneForegroundExecution(w: World, actions: seq<Action>)
    requires Inv(w) && CalmRun(w, actions)
    ensures var r := Run(w, actions);
      Inv(r) && Unfinished(r.sessionId, r.log) == (if ActiveOf(r.sessionId, r.log).Some? then {ActiveOf(r.sessionId, r.log).value} else {})
    decreases |actions|
  {
    if actions == [] {
      ActiveIsUnfinished(w.sessionId, w.log);
    } else {
      StepKeeps(w, actions[0]);
      OneForegroundExecution(Apply(w, actions[0]), actions[1..]);
    }
  }

  // ----- a session event while an execution runs -----

  ghost predicate Single(sessionId: string, log: seq<DomainEvent>) {
    forall a, b | a in Unfinished(sessionId, log) && b in Unfinished(sessionId, log) :: a == b
  }

  // Whatever happens from here on, further session events only while nothing runs.
  ghost predicate StaysSingle(w: World)
    requires Ordered(w.log)
  {
    forall actions :: CalmRun(w, actions) ==> Single(w.sessionId, Run(w, actions).log)
  }

  lemma SessionEventHides(sessionId: string, log: seq<DomainEvent>, e: DomainEvent)
    requires Ordered(log) && Next(sessionId, log, e) && IsSession(e.body)
    ensures ActiveOf(sessionId, log + [e]).None? && Executions(sessionId, log + [e]) == Executions(sessionId, log)
  {
    Appended(sessionId, log, e);
    SnapshotMeaning(sessionId, log + [e]);
    ProjectPrefix(sessionId, log, log + [e], |log|);
    hide FollowsExecutions;
    hide GetSnapshot;
  }

  lemma RunFirst(w: World, actions: seq<Action>)
    requires Ordered(w.log) && actions != []
    ensures Ordered(Apply(w, actions[0]).log) && Run(w, actions) == Run(Apply(w, actions[0]), actions[1..])
    ensures CalmRun(w, actions) <==> Calm(w, actions[0]) && CalmRun(Apply(w, actions[0]), actions[1..])
  {
    ApplyOrdered(w, actions[0]);
  }

  lemma {:induction false} RunConcat(w: World, a: seq<Action>, b: seq<Action>)
    requires Ordered(w.log)
    ensures Ordered(Run(w, a).log) && Run(w, a + b) == Run(Run(w, a), b)
    decreases |a|
  {
    if a == [] {
      assert a + b == b;
    } else {
      RunFirst(w, a);
      RunFirst(w, a + b);
      assert (a + b)[0] == a[0] && (a + b)[1..] == a[1..] + b;
      RunConcat(Apply(w, a[0]), a[1..], b);
    }
  }

  function Start(sessionId: string, log: seq<DomainEvent>, id: string): DomainEvent {
    DomainEvent(if log == [] then 1 else log[|log| - 1].sequence + 1, sessionId, "", "", ExecutionStarted(id, "", ""))
  }

  lemma StartedLog(sessionId: string, log: seq<DomainEvent>, id: string)
    requires Ordered(log)
    ensures var e := Start(sessionId, log, id);
      && Next(sessionId, log, e) && Unfinished(sessionId, log + [e]) == Unfinished(sessionId, log) + {id}
      && Executions(sessionId, log + [e]).Keys == Executions(sessionId, log).Keys + {id}
  {
    var e := Start(sessionId, log, id);
    Appended(sessionId, log, e);
    ProjectPrefix(sessionId, log, log + [e], |log|);
    assert Executions(sessionId, log + [e]) == Executions(sessionId, log)[id := Execution(id, "", Running, "", None)];
  }

  // Starting an execution: the command reads a snapshot without an active one, and then appends.
  lemma Starts(w: World, id: string)
    requires Ordered(w.log) && w.plan.None? && ActiveOf(w.sessionId, w.log).None? && id !in Executions(w.sessionId, w.log)
    ensures var e := Start(w.sessionId, w.log, id); var acts := [BeginStart(id), AppendPlan(e)];
      && CalmRun(w, acts) && Next(w.sessionId, w.log, e) && Run(w, acts) == w.(log := w.log + [e], plan := Some(StartedPlan(id)))
      && Unfinished(w.sessionId, w.log + [e]) == Unfinished(w.sessionId, w.log) + {id}
      && Executions(w.sessionId, w.log + [e]).Keys == Executions(w.sessionId, w.log).Keys + {id}
  {
    hide ActiveOf;
    hide Executions;
    hide Unfinished;
    StartedLog(w.sessionId, w.log, id);
    var e := Start(w.sessionId, w.log, id);
    var acts := [BeginStart(id), AppendPlan(e)];
    var v := w.(plan := Some(StartPlan(id)));
    assert Apply(w, acts[0]) == v && Apply(v, acts[1]) == w.(log := w.log + [e], plan := Some(StartedPlan(id)));
    hide Apply;
    RunFirst(w, acts);
    RunFirst(v, acts[1..]);
    assert acts[1..][1..] == [];
  }

  lemma {:induction false} LongerThanAll(keys: set<string>) returns (n: nat)
    ensures forall k | k in keys :: |k| < n
    decreases |keys|
  {
    n := 0;
    if keys != {} {
      var k :| k in keys;
      n := LongerThanAll(keys - {k});
      n := n + |k| + 1;
    }
  }

  // From a world where the snapshot shows nothing active, a second execution can be started beside `x`.
  lemma SecondStarts(w: World, x: string)
    requires Ordered(w.log) && (w.plan.Some? ==> !w.plan.value.StartPlan?) && ActiveOf(w.sessionId, w.log).None?
    requires x in Unfinished(w.sessionId, w.log)
    ensures !StaysSingle(w)
  {
    var n := LongerThanAll(Executions(w.sessionId, w.log).Keys);
    var y := seq(n, _ => 'y');
    var v := w.(plan := None);
    Starts(v, y);
    var acts := [BeginStart(y), AppendPlan(Start(w.sessionId, w.log, y))];
    assert x in Executions(w.sessionId, w.log).Keys;
    assert !Single(w.sessionId, Run(v, acts).log) by {
      assert x in Unfinished(w.sessionId, Run(v, acts).log) && y in Unfinished(w.sessionId, Run(v, acts).log);
    }
    if w.plan.Some? {
      hide ActiveOf;
      hide Unfinished;
      assert Apply(w, EndCommand) == v;
      hide Apply;
      RunFirst(w, [EndCommand] + acts);
      assert ([EndCommand] + acts)[1..] == acts;
      assert CalmRun(w, [EndCommand] + acts);
    } else {
      assert w == v && CalmRun(w, acts);
    }
  }

  /**
   When a session event is due, at most one execution stays unfinished in every continuation exactly if none is
   unfinished now, or the event is a repeated one that the log does not take.
   */
  lemma SingleIffQuiet(w: World, session: DomainEvent)
    requires Inv(w) && Next(w.sessionId, w.log, session) && IsSession(session.body)
    ensures StaysSingle(Apply(w, AppendOther(session))) <==>
      Unfinished(w.sessionId, w.log) == {} || SessionOnce(w.log, session.body)
  {
    var v := Apply(w, AppendOther(session));
    if Unfinished(w.sessionId, w.log) == {} || SessionOnce(w.log, session.body) {
      StepKeeps(w, AppendOther(session));
      forall actions | CalmRun(v, actions) ensures Single(v.sessionId, Run(v, actions).log) {
        OneForegroundExecution(v, actions);
        RunKeepsSession(v, actions);
      }
    } else {
      var x :| x in Unfinished(w.sessionId, w.log);
      SessionEventHides(w.sessionId, w.log, session);
      assert v == w.(log := w.log + [session]);
      hide ActiveOf;
      SecondStarts(v, x);
    }
  }

  lemma {:induction false} RunKeepsSession(w: World, actions: seq<Action>)
    requires Ordered(w.log)
    ensures Run(w, actions).sessionId == w.sessionId
    decreases |actions|
  {
    ApplyOrdered(w, if actions == [] then EndCommand else actions[0]);
    if actions != [] { RunKeepsSession(Apply(w, actions[0]), actions[1..]); }
  }

  function NewSession(sessionId: string): World {
    World(sessionId, [], None, [])
  }

  lemma NewSessionInv(sessionId: string)
    ensures Inv(NewSession(sessionId)) && Executions(sessionId, []) == map[] && Unfinished(sessionId, []) == {}
  {
  }

  function Event(sequence: nat, sessionId: string, body: DomainBody): DomainEvent {
    DomainEvent(sequence, sessionId, "", "", body)
  }

  /** After a session event that the log takes, a start is accepted beside whatever is unfinished. */
  lemma SessionEventLetsTwoRun(w: World, session: DomainEvent, id: string)
    requires Ordered(w.log) && w.plan.None? && Next(w.sessionId, w.log, session) && IsSession(session.body) && !SessionOnce(w.log, session.body)
    requires id !in Executions(w.sessionId, w.log)
    ensures var e := Start(w.sessionId, w.log + [session], id); var log := w.log + [session] + [e];
      && Run(w, [AppendOther(session), BeginStart(id), AppendPlan(e)]) == w.(log := log, plan := Some(StartedPlan(id)))
      && Ordered(log) && Unfinished(w.sessionId, log) == Unfinished(w.sessionId, w.log) + {id}
      && Executions(w.sessionId, log).Keys == Executions(w.sessionId, w.log).Keys + {id}
  {
    var v := w.(log := w.log + [session]);
    var acts := [AppendOther(session), BeginStart(id), AppendPlan(Start(w.sessionId, v.log, id))];
    SessionEventHides(w.sessionId, w.log, session);
    Starts(v, id);
    assert Apply(w, acts[0]) == v;
    hide ActiveOf;
    hide Apply;
    RunFirst(w, acts);
    assert acts[1..] == [BeginStart(id), AppendPlan(Start(w.sessionId, v.log, id))];
  }

  lemma Ends(w: World, rest: seq<Action>)
    requires Ordered(w.log) && w.plan.Some? && w.plan.value.StartedPlan?
    ensures Run(w, [EndCommand] + rest) == Run(w.(plan := None), rest)
  {
    assert ([EndCommand] + rest)[1..] == rest;
    RunFirst(w, [EndCommand] + rest);
  }

  // A session event, and then the start of an execution.
  function OpenAndStart(n: nat, s: string, body: DomainBody, id: string): seq<Action> {
    [AppendOther(Event(n, s, body)), BeginStart(id), AppendPlan(Event(n + 1, s, ExecutionStarted(id, "", "")))]
  }

  function XStarted(s: string): seq<DomainEvent> {
    [Event(1, s, SessionStarted), Event(2, s, ExecutionStarted("x", "", ""))]
  }

  lemma Opened(s: string)
    ensures Ordered(XStarted(s)) && Run(NewSession(s), OpenAndStart(1, s, SessionStarted, "x")) == World(s, XStarted(s), Some(StartedPlan("x")), [])
    ensures Unfinished(s, XStarted(s)) == {"x"} && Executions(s, XStarted(s)).Keys == {"x"}
  {
    var started := Event(1, s, SessionStarted);
    NewSessionInv(s);
    hide Unfinished;
    hide Executions;
    hide Run;
    assert [] + [started] == [started] && [started] + [XStarted(s)[1]] == XStarted(s);
    SessionEventLetsTwoRun(NewSession(s), started, "x");
  }

  lemma StoppedAndStarted(s: string)
    ensures Ordered(XStarted(s))
    ensures Unfinished(s, Run(World(s, XStarted(s), None, []), OpenAndStart(3, s, SessionStopped, "y")).log) == {"x", "y"}
  {
    Opened(s);
    hide Unfinished;
    hide Executions;
    hide Run;
    SessionEventLetsTwoRun(World(s, XStarted(s), None, []), Event(3, s, SessionStopped), "y");
  }

  /** A run that goes wrong: the session is stopped while "x" runs, and "y" is accepted and started beside it. */
  lemma StoppedSessionRunsTwo(s: string)
    ensures var r := Run(NewSession(s), OpenAndStart(1, s, SessionStarted, "x") + ([EndCommand] + OpenAndStart(3, s, SessionStopped, "y")));
      Unfinished(s, r.log) == {"x", "y"}
  {
    Opened(s);
    StoppedAndStarted(s);
    hide Unfinished;
    hide Executions;
    hide Run;
    Ends(World(s, XStarted(s), Some(StartedPlan("x")), []), OpenAndStart(3, s, SessionStopped, "y"));
    RunConcat(NewSession(s), OpenAndStart(1, s, SessionStarted, "x"), [EndCommand] + OpenAndStart(3, s, SessionStopped, "y"));
  }
}
