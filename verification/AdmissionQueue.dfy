/**
 The canonical admission queue over the event store: every work waits for the promise
 tail, and the store's append awaits a digest between choosing a sequence and pushing.
 A run interleaves the steps of all works with new calls of `enqueue`.
 */
module AdmissionQueue {
  import opened Wrappers
  import opened EventLog

  // What a built batch says about one draft; its id is minted when the batch is built.
  datatype Entry<+T> = Entry(key: Option<string>, safe: bool, body: T)

  // `AppendNow` goes straight to the store; `ReadThen` reads the log, awaits, and builds its batch
  // from what it read (None when building throws).
  datatype Work<!T(!new)> =
    | AppendNow(drafts: seq<Draft<T>>)
    | ReadThen(build: seq<Row<T>> -> Option<seq<Entry<T>>>)

  datatype Stage<+T> =
    | Waiting
    | Reading(snapshot: seq<Row<T>>)
    | Digesting(todo: seq<Draft<T>>, out: seq<Row<T>>, sequence: nat)
    | Fulfilled(rows: seq<Row<T>>)
    | Failed

  // `after` is the promise the work is chained to: the tail at the time of the call.
  datatype Job<!T(!new)> = Job(work: Work<T>, after: Option<nat>, stage: Stage<T>)

  datatype Queue<!T(!new)> = Queue(log: Log<T>, jobs: seq<Job<T>>, tail: Option<nat>)

  function NewQueue<T(!new)>(): Queue<T> {
    Queue(Empty(), [], None)
  }

  predicate Over<T(!new)>(j: Job<T>) {
    j.stage.Fulfilled? || j.stage.Failed?
  }

  function Mint<T(!new)>(k: nat, entries: seq<Entry<T>>): seq<Draft<T>> {
    seq(|entries|, i requires 0 <= i < |entries| => Draft(Minted(k, i), entries[i].key, entries[i].safe, entries[i].body))
  }

  /** The drafts a work appends when it finds the rows `rows`; None when it throws before appending. */
  function Built<T(!new)>(k: nat, work: Work<T>, rows: seq<Row<T>>): Option<seq<Draft<T>>> {
    match work
    case AppendNow(drafts) => Some(drafts)
    case ReadThen(build) => if build(rows).Some? then Some(Mint(k, build(rows).value)) else None
  }

  /** The store's append up to its next digest: duplicates and a throw do not suspend. */
  function Proceed<T(!new)>(log: Log<T>, todo: seq<Draft<T>>, out: seq<Row<T>>): (r: Stage<T>)
    ensures !r.Waiting? && !r.Reading?
    decreases |todo|
  {
    if todo == [] then Fulfilled(out)
    else if !todo[0].safe then Failed
    else if Existing(log, todo[0]).Some? then Proceed(log, todo[1..], out + [Existing(log, todo[0]).value])
    else Digesting(todo, out, |log.rows| + 1)
  }

  datatype Action<!T(!new)> =
    | Enqueue(work: Work<T>)
    | Start(i: nat)      // the promise this work is chained to has settled
    | Resume(i: nat)     // the read or the digest this work awaits has arrived

  predicate Enabled<T(!new)>(q: Queue<T>, a: Action<T>) {
    match a
    case Enqueue(_) => true
    case Start(i) =>
      i < |q.jobs| && q.jobs[i].stage.Waiting? &&
      (q.jobs[i].after.Some? ==> q.jobs[i].after.value < |q.jobs| && Over(q.jobs[q.jobs[i].after.value]))
    case Resume(i) => i < |q.jobs| && (q.jobs[i].stage.Reading? || (q.jobs[i].stage.Digesting? && q.jobs[i].stage.todo != []))
  }

  function At<T(!new)>(q: Queue<T>, i: nat, log: Log<T>, stage: Stage<T>): Queue<T>
    requires i < |q.jobs|
  {
    q.(log := log, jobs := q.jobs[i := q.jobs[i].(stage := stage)])
  }

  function Effect<T(!new)>(q: Queue<T>, a: Action<T>): Queue<T>
    requires Enabled(q, a)
  {
    match a
    case Enqueue(work) => q.(jobs := q.jobs + [Job(work, q.tail, Waiting)], tail := Some(|q.jobs|))
    case Start(i) =>
      (match q.jobs[i].work
       case AppendNow(drafts) => At(q, i, q.log, Proceed(q.log, drafts, []))
       case ReadThen(_) => At(q, i, q.log, Reading(q.log.rows)))
    case Resume(i) =>
      (match q.jobs[i].stage
       case Reading(snapshot) =>
         var built := Built(i, q.jobs[i].work, snapshot);
         At(q, i, q.log, if built.Some? then Proceed(q.log, built.value, []) else Failed)
       case Digesting(todo, out, sequence) =>
         var log := Push(q.log, todo[0], sequence);
         At(q, i, log, Proceed(log, todo[1..], out + [Row(todo[0], sequence)]))
       case _ => q)
  }

  function Apply<T(!new)>(q: Queue<T>, a: Action<T>): Queue<T> {
    if Enabled(q, a) then Effect(q, a) else q
  }

  function Run<T(!new)>(q: Queue<T>, actions: seq<Action<T>>): Queue<T>
    decreases |actions|
  {
    if actions == [] then q else Run(Apply(q, actions[0]), actions[1..])
  }

  // ----- the sequential meaning: works run whole, one after the other, in call order -----

  ghost function Perform<T(!new)>(log: Log<T>, k: nat, work: Work<T>): Appended<T> {
    var built := Built(k, work, log.rows);
    if built.Some? then AppendAll(log, built.value) else Appended(log, None)
  }

  ghost function Replayed<T(!new)>(jobs: seq<Job<T>>): Log<T> {
    if jobs == [] then Empty()
    else Perform(Replayed(jobs[..|jobs| - 1]), |jobs| - 1, jobs[|jobs| - 1].work).log
  }

  // ----- the invariant -----

  // Where job k stands with respect to running its work whole on `base`.
  ghost predicate Underway<T(!new)>(log: Log<T>, base: Log<T>, k: nat, job: Job<T>) {
    match job.stage
    case Waiting => log == base
    case Reading(snapshot) => log == base && snapshot == base.rows && job.work.ReadThen?
    case Digesting(todo, out, sequence) =>
      && todo != [] && todo[0].safe && Existing(log, todo[0]).None? && sequence == |log.rows| + 1
      && AppendRest(log, todo, out) == Perform(base, k, job.work)
    case Fulfilled(rows) => Perform(base, k, job.work) == Appended(log, Some(rows))
    case Failed => Perform(base, k, job.work) == Appended(log, None)
  }

  ghost predicate Settled<T(!new)>(jobs: seq<Job<T>>, k: nat)
    requires k < |jobs|
  {
    Over(jobs[k]) && Underway(Replayed(jobs[..k + 1]), Replayed(jobs[..k]), k, jobs[k])
  }

  // Jobs below `n` are over, job `n` may be running, later ones wait.
  ghost predicate Serial<T(!new)>(q: Queue<T>, n: nat) {
    && n <= |q.jobs|
    && (forall k | 0 <= k < n :: Settled(q.jobs, k))
    && (forall k | n < k < |q.jobs| :: q.jobs[k].stage.Waiting?)
    && (if n == |q.jobs| then q.log == Replayed(q.jobs) else !Over(q.jobs[n]) && Underway(q.log, Replayed(q.jobs[..n]), n, q.jobs[n]))
  }

  ghost predicate Chained<T(!new)>(q: Queue<T>) {
    && (forall k | 0 <= k < |q.jobs| :: q.jobs[k].after == if k == 0 then None else Some(k - 1))
    && q.tail == if q.jobs == [] then None else Some(|q.jobs| - 1)
  }

  ghost predicate Inv<T(!new)>(q: Queue<T>) {
    Chained(q) && exists n: nat :: Serial(q, n)
  }

  lemma {:induction false} ProceedMeans<T(!new)>(log: Log<T>, base: Log<T>, k: nat, job: Job<T>, todo: seq<Draft<T>>, out: seq<Row<T>>)
    requires AppendRest(log, todo, out) == Perform(base, k, job.work)
    ensures Underway(log, base, k, job.(stage := Proceed(log, todo, out)))
    decreases |todo|
  {
    if todo != [] && todo[0].safe && Existing(log, todo[0]).Some? {
      ProceedMeans(log, base, k, job, todo[1..], out + [Existing(log, todo[0]).value]);
    }
  }

  lemma {:induction false} ReplayedSame<T(!new)>(a: seq<Job<T>>, b: seq<Job<T>>)
    requires |a| == |b| && forall k | 0 <= k < |a| :: a[k].work == b[k].work
    ensures Replayed(a) == Replayed(b)
    decreases |a|
  {
    if a != [] { ReplayedSame(a[..|a| - 1], b[..|b| - 1]); }
  }

  // Changing job n's stage disturbs no earlier job.
  lemma SettledKept<T(!new)>(jobs: seq<Job<T>>, next: seq<Job<T>>, k: nat)
    requires k < |jobs| <= |next| && Settled(jobs, k) && next[k] == jobs[k]
    requires forall i | 0 <= i < |jobs| :: next[i].work == jobs[i].work
    ensures Settled(next, k)
  {
    ReplayedSame(jobs[..k + 1], next[..k + 1]);
    ReplayedSame(jobs[..k], next[..k]);
  }

  lemma EnqueueKeeps<T(!new)>(q: Queue<T>, work: Work<T>, n: nat)
    requires Chained(q) && Serial(q, n)
    ensures Chained(Effect(q, Enqueue(work))) && Serial(Effect(q, Enqueue(work)), n)
  {
    var r := Effect(q, Enqueue(work));
    forall k | 0 <= k < n ensures Settled(r.jobs, k) { SettledKept(q.jobs, r.jobs, k); }
    assert r.jobs[..|q.jobs|] == q.jobs;
    assert r.jobs[..n] == q.jobs[..n];
  }

  // The running job moves to another stage.
  lemma MoveKeeps<T(!new)>(q: Queue<T>, n: nat, log: Log<T>, stage: Stage<T>)
    requires Chained(q) && Serial(q, n) && n < |q.jobs| && !stage.Waiting?
    requires Underway(log, Replayed(q.jobs[..n]), n, q.jobs[n].(stage := stage))
    ensures Chained(At(q, n, log, stage)) && Serial(At(q, n, log, stage), if Over(q.jobs[n].(stage := stage)) then n + 1 else n)
  {
    var r := At(q, n, log, stage);
    forall k | 0 <= k < n ensures Settled(r.jobs, k) { SettledKept(q.jobs, r.jobs, k); }
    assert r.jobs[..n] == q.jobs[..n];
    if stage.Fulfilled? || stage.Failed? {
      assert r.jobs[..n + 1][..n] == r.jobs[..n];
      assert Replayed(r.jobs[..n + 1]) == log;
      assert Settled(r.jobs, n);
      if n + 1 < |r.jobs| {
        assert Underway(log, Replayed(r.jobs[..n + 1]), n + 1, r.jobs[n + 1]);
      } else {
        assert r.jobs[..n + 1] == r.jobs;
      }
    }
  }

  lemma BeforeIsOver<T(!new)>(q: Queue<T>, n: nat, i: nat)
    requires Serial(q, n) && i < |q.jobs|
    ensures i < n ==> Over(q.jobs[i])
  {
    if i < n { OverAt(q.jobs, i, n); }
  }

  lemma LaterWaits<T(!new)>(q: Queue<T>, n: nat, i: nat)
    requires Chained(q) && Serial(q, n) && i < |q.jobs|
    ensures i > n ==> !Enabled(q, Start(i))
  {
    if i > n {
      assert q.jobs[i].after == Some(i - 1);
      assert !Over(q.jobs[i - 1]);
    }
  }

  lemma OverAt<T(!new)>(jobs: seq<Job<T>>, i: nat, n: nat)
    requires i < n <= |jobs| && forall k | 0 <= k < n :: Settled(jobs, k)
    ensures Over(jobs[i])
  {
    assert Settled(jobs, i);
  }

  lemma StartKeeps<T(!new)>(q: Queue<T>, i: nat, n: nat)
    requires Chained(q) && Serial(q, n) && Enabled(q, Start(i))
    ensures i == n && Chained(Effect(q, Start(i)))
    ensures Serial(Effect(q, Start(i)), if Over(Effect(q, Start(i)).jobs[i]) then n + 1 else n)
  {
    BeforeIsOver(q, n, i);
    LaterWaits(q, n, i);
    match q.jobs[i].work
    case AppendNow(drafts) =>
      ProceedMeans(q.log, Replayed(q.jobs[..n]), n, q.jobs[n], drafts, []);
      MoveKeeps(q, n, q.log, Proceed(q.log, drafts, []));
    case ReadThen(_) =>
      MoveKeeps(q, n, q.log, Reading(q.log.rows));
  }

  lemma ResumeKeeps<T(!new)>(q: Queue<T>, i: nat, n: nat)
    requires Chained(q) && Serial(q, n) && Enabled(q, Resume(i))
    ensures i == n && Chained(Effect(q, Resume(i)))
    ensures Serial(Effect(q, Resume(i)), if Over(Effect(q, Resume(i)).jobs[i]) then n + 1 else n)
  {
    BeforeIsOver(q, n, i);
    assert i == n;
    var base := Replayed(q.jobs[..n]);
    match q.jobs[i].stage
    case Reading(snapshot) =>
      var built := Built(n, q.jobs[n].work, snapshot);
      if built.Some? {
        ProceedMeans(q.log, base, n, q.jobs[n], built.value, []);
        MoveKeeps(q, n, q.log, Proceed(q.log, built.value, []));
      } else {
        MoveKeeps(q, n, q.log, Failed);
      }
    case Digesting(todo, out, sequence) =>
      var log := Push(q.log, todo[0], sequence);
      ProceedMeans(log, base, n, q.jobs[n], todo[1..], out + [Row(todo[0], sequence)]);
      MoveKeeps(q, n, log, Proceed(log, todo[1..], out + [Row(todo[0], sequence)]));
    case _ =>
  }

  lemma StepKeeps<T(!new)>(q: Queue<T>, a: Action<T>)
    requires Inv(q)
    ensures Inv(Apply(q, a))
  {
    var n: nat :| Serial(q, n);
    if Enabled(q, a) {
      match a
      case Enqueue(work) => EnqueueKeeps(q, work, n);
      case Start(i) => StartKeeps(q, i, n);
      case Resume(i) => ResumeKeeps(q, i, n);
    }
  }

  lemma {:induction false} RunKeeps<T(!new)>(q: Queue<T>, actions: seq<Action<T>>)
    requires Inv(q)
    ensures Inv(Run(q, actions))
    decreases |actions|
  {
    if actions != [] {
      StepKeeps(q, actions[0]);
      RunKeeps(Apply(q, actions[0]), actions[1..]);
    }
  }

  ghost predicate Reachable<T(!new)>(q: Queue<T>) {
    exists actions :: q == Run(NewQueue(), actions)
  }

  lemma ReachableInv<T(!new)>(q: Queue<T>)
    requires Reachable(q)
    ensures Inv(q)
  {
    var actions :| q == Run(NewQueue(), actions);
    assert Serial(NewQueue<T>(), 0);
    RunKeeps(NewQueue<T>(), actions);
  }

  // ----- the promises -----

  predicate Active<T(!new)>(j: Job<T>) {
    j.stage.Reading? || j.stage.Digesting?
  }

  /** Works run one at a time and in call order: when one is running every earlier one is over. */
  lemma OneAtATime<T(!new)>(q: Queue<T>, i: nat, k: nat)
    requires Reachable(q) && i < |q.jobs| && k < |q.jobs| && Active(q.jobs[i])
    ensures k < i ==> Over(q.jobs[k])
    ensures k > i ==> q.jobs[k].stage.Waiting?
  {
    ReachableInv(q);
    var n: nat :| Serial(q, n);
    BeforeIsOver(q, n, i);
    BeforeIsOver(q, n, k);
  }

  /** A work that is over, fulfilled or rejected, never blocks the next: it can start at once. */
  lemma RejectionDoesNotBlock<T(!new)>(q: Queue<T>, i: nat)
    requires Reachable(q) && 0 < i < |q.jobs| && Over(q.jobs[i - 1]) && q.jobs[i].stage.Waiting?
    ensures Enabled(q, Start(i))
  {
    ReachableInv(q);
  }

  ghost function StageRank<T(!new)>(s: Stage<T>): nat {
    match s
    case Waiting => 2
    case Reading(_) => 1
    case _ => 0
  }

  ghost function DraftsLeft<T(!new)>(s: Stage<T>): nat {
    if s.Digesting? then |s.todo| else 0
  }

  lemma {:induction false} ProceedShrinks<T(!new)>(log: Log<T>, todo: seq<Draft<T>>, out: seq<Row<T>>)
    ensures DraftsLeft(Proceed(log, todo, out)) <= |todo|
    decreases |todo|
  {
    if todo != [] && todo[0].safe && Existing(log, todo[0]).Some? {
      ProceedShrinks(log, todo[1..], out + [Existing(log, todo[0]).value]);
    }
  }

  /** From every reachable state all enqueued works come to an end, provided reads and digests arrive. */
  lemma {:induction false} AllEnd<T(!new)>(q: Queue<T>, n: nat) returns (actions: seq<Action<T>>)
    requires Chained(q) && Serial(q, n)
    ensures |Run(q, actions).jobs| == |q.jobs| && forall i | 0 <= i < |q.jobs| :: Over(Run(q, actions).jobs[i])
    decreases |q.jobs| - n, if n < |q.jobs| then StageRank(q.jobs[n].stage) else 0, if n < |q.jobs| then DraftsLeft(q.jobs[n].stage) else 0
  {
    if n == |q.jobs| {
      actions := [];
      forall i | 0 <= i < |q.jobs| ensures Over(q.jobs[i]) { BeforeIsOver(q, n, i); }
    } else {
      var a: Action<T>;
      assert q.jobs[n].stage.Digesting? ==> q.jobs[n].stage.todo != [];
      hide Underway;
      hide Replayed;
      if q.jobs[n].stage.Waiting? {
        a := Start(n);
        if n > 0 { BeforeIsOver(q, n, n - 1); }
        StartKeeps(q, n, n);
      } else {
        a := Resume(n);
        ResumeKeeps(q, n, n);
        if q.jobs[n].stage.Digesting? {
          var s := q.jobs[n].stage;
          ProceedShrinks(Push(q.log, s.todo[0], s.sequence), s.todo[1..], s.out + [Row(s.todo[0], s.sequence)]);
        }
      }
      var r := Apply(q, a);
      var rest := AllEnd(r, if Over(r.jobs[n]) then n + 1 else n);
      actions := [a] + rest;
      assert actions[1..] == rest;
    }
  }

  lemma {:induction false} ReplayedWellFormed<T(!new)>(jobs: seq<Job<T>>)
    ensures WellFormed(Replayed(jobs))
    decreases |jobs|
  {
    if jobs != [] {
      var base := Replayed(jobs[..|jobs| - 1]);
      var built := Built(|jobs| - 1, jobs[|jobs| - 1].work, base.rows);
      ReplayedWellFormed(jobs[..|jobs| - 1]);
      if built.Some? { AppendKeeps(base, built.value, []); }
    }
  }

  /**
   The interleaved run refines the sequential one: once all works are over the log and every
   result are those of running the works whole, one after the other, in call order.
   */
  lemma Linearizable<T(!new)>(q: Queue<T>, k: nat)
    requires Reachable(q) && (forall i | 0 <= i < |q.jobs| :: Over(q.jobs[i]))
    ensures q.log == Replayed(q.jobs)
    ensures k < |q.jobs| ==>
      Perform(Replayed(q.jobs[..k]), k, q.jobs[k].work).out ==
        if q.jobs[k].stage.Fulfilled? then Some(q.jobs[k].stage.rows) else None
  {
    ReachableInv(q);
    var n: nat :| Serial(q, n);
    if k < |q.jobs| { assert Settled(q.jobs, k); }
  }

  // Half-way through an append the log is still well formed.
  lemma {:induction false} PartialWellFormed<T(!new)>(q: Queue<T>, a: Action<T>)
    requires Inv(q) && WellFormed(q.log)
    ensures WellFormed(Apply(q, a).log) && Extends(q.log, Apply(q, a).log)
  {
    var n: nat :| Serial(q, n);
    if Enabled(q, a) && a.Resume? {
      ResumeKeeps(q, a.i, n);
      if q.jobs[n].stage.Digesting? { PushKeeps(q.log, q.jobs[n].stage.todo[0]); }
    }
  }

  /** In every reachable state, batches under way included, row i has sequence i + 1 and both indexes agree with the rows. */
  lemma {:induction false} LogStaysWellFormed<T(!new)>(q: Queue<T>, actions: seq<Action<T>>)
    requires Inv(q) && WellFormed(q.log)
    ensures WellFormed(Run(q, actions).log) && Extends(q.log, Run(q, actions).log)
    decreases |actions|
  {
    if actions != [] {
      StepKeeps(q, actions[0]);
      PartialWellFormed(q, actions[0]);
      LogStaysWellFormed(Apply(q, actions[0]), actions[1..]);
    }
  }

  // ----- predicted ids -----

  /**
   A work that reads the head and then appends a batch of its own, fresh drafts gets exactly the
   sequences it predicted, whatever else was enqueued meanwhile: the "interleaved" guard never fires.
   */
  lemma PredictionHolds<T(!new)>(q: Queue<T>, k: nat)
    requires Reachable(q) && k < |q.jobs| && q.jobs[k].work.ReadThen? && q.jobs[k].stage.Fulfilled?
    requires var base := Replayed(q.jobs[..k]); var built := Built(k, q.jobs[k].work, base.rows);
      built.Some? && FreshBatch(base, built.value)
    ensures var base := Replayed(q.jobs[..k]); var drafts := Built(k, q.jobs[k].work, base.rows).value;
      q.jobs[k].stage.rows == Numbered(drafts, |base.rows|) && NotInterleaved(q.jobs[k].stage.rows, |base.rows|)
  {
    ReachableInv(q);
    var n: nat :| Serial(q, n);
    assert Settled(q.jobs, k);
    var base := Replayed(q.jobs[..k]);
    FreshAppend(base, Built(k, q.jobs[k].work, base.rows).value);
  }

  // ----- why the queue is needed -----

  /** An append that would go through: its payload is canonical, and neither its id nor its key is taken. */
  predicate Pushes<T(!new)>(log: Log<T>, d: Draft<T>) {
    d.safe && Existing(log, d).None?
  }

  // Two appends of one draft each that both start at once, as if there were no queue.
  function Unqueued<T(!new)>(log: Log<T>, d: Draft<T>, e: Draft<T>): Queue<T> {
    Queue(log, [Job(AppendNow([d]), None, Waiting), Job(AppendNow([e]), None, Waiting)], None)
  }

  /** Two appends that do not go through the queue spoil any log exactly if both push a row: then both choose the same sequence. */
  lemma WithoutQueueSequencesCollide<T(!new)>(log: Log<T>, d: Draft<T>, e: Draft<T>)
    requires WellFormed(log)
    ensures var r := Run(Unqueued(log, d, e), [Start(0), Start(1), Resume(0), Resume(1)]).log;
      && (WellFormed(r) <==> !(Pushes(log, d) && Pushes(log, e)))
      && (Pushes(log, d) && Pushes(log, e) ==>
            var n := |log.rows|; |r.rows| == n + 2 && r.rows[n].sequence == r.rows[n + 1].sequence == n + 1)
  {
    var free := Unqueued(log, d, e);
    var acts := [Action<T>.Start(0), Start(1), Resume(0), Resume(1)];
    var q1 := Apply(free, Start(0));
    assert q1.jobs == [Job(AppendNow([d]), None, Proceed(log, [d], [])), free.jobs[1]];
    var q2 := Apply(q1, Start(1));
    assert q2.jobs == [q1.jobs[0], Job(AppendNow([e]), None, Proceed(log, [e], []))];
    OneDraft(log, d);
    OneDraft(log, e);
    var q3 := Apply(q2, Resume(0));
    var q4 := Apply(q3, Resume(1));
    var afterD := if Pushes(log, d) then Push(log, d, |log.rows| + 1) else log;
    assert q3.log == afterD && q3.jobs[1] == q2.jobs[1];
    assert q4.log == if Pushes(log, e) then Push(afterD, e, |log.rows| + 1) else afterD;
    assert acts[1..] == [Action<T>.Start(1), Resume(0), Resume(1)];
    assert acts[1..][1..] == [Action<T>.Resume(0), Resume(1)];
    assert acts[1..][1..][1..] == [Action<T>.Resume(1)];
    assert Run(free, acts) == q4 by {
      hide Apply;
      assert Run(free, acts) == Run(q1, acts[1..]) == Run(q2, acts[1..][1..]) == Run(q3, acts[1..][1..][1..]) == q4;
    }
    if Pushes(log, d) { PushKeeps(log, d); }
    if Pushes(log, e) { PushKeeps(log, e); }
    if Pushes(log, d) && Pushes(log, e) { assert !RowOk(q4.log, |log.rows| + 1); }
  }

  // Where an append of one draft stands after its first step.
  lemma OneDraft<T(!new)>(log: Log<T>, d: Draft<T>)
    ensures var stage := Proceed(log, [d], []);
      if Pushes(log, d) then stage == Digesting([d], [], |log.rows| + 1) else stage.Fulfilled? || stage.Failed?
  {
  }
}
