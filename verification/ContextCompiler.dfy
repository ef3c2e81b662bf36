/** The budgeted context compiler: greedy selection under a hard bound, or the verbatim history. */
module ContextCompiler {
  import opened Wrappers
  import opened Ordering
  import opened JsonText
  import opened AppendixItems
  import opened ContextHistory

  // ----- candidates -----

  datatype Ranked = Ranked(candidate: Candidate, priority: int, isMemory: bool)

  predicate RankLe(a: Ranked, b: Ranked) {
    a.priority < b.priority || (a.priority == b.priority && LexLe(a.candidate.id, b.candidate.id))
  }

  function InsertRanked(x: Ranked, items: seq<Ranked>): seq<Ranked> {
    if items == [] || RankLe(x, items[0]) then [x] + items else [items[0]] + InsertRanked(x, items[1..])
  }

  function SortRanked(items: seq<Ranked>): seq<Ranked> {
    if items == [] then [] else InsertRanked(items[0], SortRanked(items[1..]))
  }

  function Required(items: seq<Ranked>): seq<Ranked> {
    if items == [] then [] else (if items[0].candidate.required then [items[0]] else []) + Required(items[1..])
  }

  function Optional(items: seq<Ranked>): seq<Ranked> {
    if items == [] then [] else (if items[0].candidate.required then [] else [items[0]]) + Optional(items[1..])
  }

  predicate AllRenderable(items: seq<Ranked>) {
    forall i | 0 <= i < |items| :: Renderable(items[i].candidate)
  }

  function Candidates(items: seq<Ranked>): (r: seq<Candidate>)
    ensures |r| == |items| && forall i | 0 <= i < |r| :: r[i] == items[i].candidate
  {
    seq(|items|, i requires 0 <= i < |items| => items[i].candidate)
  }

  function Render(items: seq<Ranked>): Text
    requires AllRenderable(items)
  {
    RenderCandidates(Candidates(items))
  }

  lemma {:induction false} SectionsSnoc(cs: seq<Candidate>, c: Candidate)
    requires (forall i | 0 <= i < |cs| :: Renderable(cs[i])) && Renderable(c)
    ensures |Sections(cs + [c])| == |Sections(cs)| + |Section(c)|
    decreases |cs|
  {
    if cs == [] {
      assert cs + [c] == [c] && [c][1..] == [];
    } else {
      SectionsSnoc(cs[1..], c);
      assert (cs + [c])[1..] == cs[1..] + [c];
      hide Section;
    }
  }

  /** One more item makes the appendix longer by exactly its section. */
  lemma RenderSnoc(items: seq<Ranked>, x: Ranked)
    requires AllRenderable(items) && Renderable(x.candidate)
    ensures AllRenderable(items + [x]) && |Render(items + [x])| == |Render(items)| + |Section(x.candidate)|
  {
    SectionsSnoc(Candidates(items), x.candidate);
    assert Candidates(items + [x]) == Candidates(items) + [x.candidate];
    hide Section;
    hide Header;
  }

  // ----- requests and results -----

  datatype Frontier = Derived(candidates: seq<Ranked>) | AmbiguousFrontier | InvalidGraph

  // `sourceValid` stands for the checks on the source's ids and numbers; the check for a user message is made here.
  datatype Request = Request(sourceValid: bool, complete: bool, observed: bool, frontier: Frontier, messages: seq<Message>,
                             maxChars: int, fixedChars: int)

  datatype Reason =
    | CanonicalSourceInvalid | TranscriptIncomplete | WorkspaceObservationFailed | ReasoningFrontierAmbiguous | ReasoningGraphInvalid
    | RequiredBudgetOverflow | RenderBoundViolation

  // `optionalChars` is the receipt's clamped difference.
  datatype Delivery = Delivery(graph: bool, history: seq<Message>, appendix: Text, graphChars: int, reason: Option<Reason>,
                           selected: seq<Ranked>, requiredChars: int, optionalChars: int, selectedTurns: nat, excluded: set<Text>)

  predicate WellFormedRequest(r: Request) {
    LegalMessages(r.messages) && (r.frontier.Derived? ==> AllRenderable(r.frontier.candidates))
  }

  function Clamp(n: int): int {
    if n < 0 then 0 else n
  }

  function EarlyFallback(r: Request, reason: Reason): Delivery {
    Delivery(false, r.messages, [], 0, Some(reason), [], 0, 0, 0, {})
  }

  predicate HasUser(messages: seq<Message>) {
    exists i :: 0 <= i < |messages| && messages[i].isUser
  }

  // ----- the greedy loops -----

  datatype Picked = Picked(selected: seq<Ranked>, excluded: set<Text>)

  predicate Fits(selected: seq<Ranked>, x: Ranked, historyChars: nat, maxChars: int)
    requires AllRenderable(selected) && Renderable(x.candidate)
  {
    historyChars + |Render(selected + [x])| <= maxChars
  }

  /** Take each of the first n optional candidates, in order, that still fits beside the required history. */
  function PickCandidates(required: seq<Ranked>, optional: seq<Ranked>, n: nat, historyChars: nat, maxChars: int): (p: Picked)
    requires AllRenderable(required) && AllRenderable(optional) && n <= |optional|
    ensures AllRenderable(p.selected)
  {
    if n == 0 then Picked(required, {})
    else
      var p, x := PickCandidates(required, optional, n - 1, historyChars, maxChars), optional[n - 1];
      if Fits(p.selected, x, historyChars, maxChars) then Picked(p.selected + [x], p.excluded)
      else Picked(p.selected, p.excluded + {x.candidate.id})
  }

  predicate LegalTurns(turns: seq<seq<Message>>) {
    forall i | 0 <= i < |turns| :: LegalMessages(turns[i])
  }

  predicate TurnFits(history: seq<Message>, turn: seq<Message>, appendixChars: nat, maxChars: int)
    requires LegalMessages(history) && LegalMessages(turn)
  {
    GraphHistoryChars(turn + history) + appendixChars <= maxChars
  }

  datatype Taken = Taken(history: seq<Message>, count: nat)

  /** Take each of the first n older turns, newest first, that still fits. */
  function TakeTurns(required: seq<Message>, turns: seq<seq<Message>>, n: nat, appendixChars: nat, maxChars: int): (t: Taken)
    requires LegalMessages(required) && LegalTurns(turns) && n <= |turns|
    ensures LegalMessages(t.history)
  {
    if n == 0 then Taken(required, 0)
    else
      var t := TakeTurns(required, turns, n - 1, appendixChars, maxChars);
      if TurnFits(t.history, turns[n - 1], appendixChars, maxChars) then Taken(turns[n - 1] + t.history, t.count + 1) else t
  }

  // It would not fit beside what was selected.
  ghost predicate Misfit(selected: seq<Ranked>, x: Ranked, historyChars: nat, maxChars: int)
    requires AllRenderable(selected) && Renderable(x.candidate)
  {
    historyChars + |Render(selected)| + |Section(x.candidate)| > maxChars
  }

  lemma EachRenderable(items: seq<Ranked>, i: nat)
    requires AllRenderable(items) && i < |items|
    ensures Renderable(items[i].candidate)
  {
  }

  lemma MisfitIff(selected: seq<Ranked>, x: Ranked, historyChars: nat, maxChars: int)
    requires AllRenderable(selected) && Renderable(x.candidate)
    ensures Misfit(selected, x, historyChars, maxChars) <==> !Fits(selected, x, historyChars, maxChars)
    ensures AllRenderable(selected + [x]) && |Render(selected)| <= |Render(selected + [x])|
  {
    RenderSnoc(selected, x);
    hide Render;
    hide Section;
    hide Renderable;
  }

  // Every candidate is selected, or is excluded and would still not fit.
  ghost predicate Placed(p: Picked, x: Ranked, historyChars: nat, maxChars: int)
    requires AllRenderable(p.selected) && Renderable(x.candidate)
  {
    x in p.selected || (x.candidate.id in p.excluded && Misfit(p.selected, x, historyChars, maxChars))
  }

  // What the candidate loop has kept and left out of the first n.
  ghost predicate GoodPick(required: seq<Ranked>, optional: seq<Ranked>, n: nat, p: Picked, historyChars: nat, maxChars: int)
    requires AllRenderable(required) && AllRenderable(optional) && n <= |optional| && AllRenderable(p.selected)
  {
    && |required| <= |p.selected| && p.selected[..|required|] == required
    && |Render(required)| <= |Render(p.selected)| && historyChars + |Render(p.selected)| <= maxChars
    && (forall i | 0 <= i < n :: Placed(p, optional[i], historyChars, maxChars))
    && (forall i | |required| <= i < |p.selected| :: p.selected[i] in optional[..n])
  }

  lemma PlacedLater(p: Picked, x: Ranked, y: Ranked, historyChars: nat, maxChars: int)
    requires AllRenderable(p.selected) && Renderable(x.candidate) && Renderable(y.candidate)
    ensures AllRenderable(p.selected + [x])
    ensures Placed(p, y, historyChars, maxChars) ==> Placed(Picked(p.selected + [x], p.excluded), y, historyChars, maxChars)
    ensures Placed(Picked(p.selected + [x], p.excluded), x, historyChars, maxChars)
  {
    hide Render;
    hide Section;
    hide Renderable;
    MisfitIff(p.selected, x, historyChars, maxChars);
    assert (p.selected + [x])[|p.selected|] == x;
  }

  lemma GoodPickTake(required: seq<Ranked>, optional: seq<Ranked>, n: nat, p: Picked, historyChars: nat, maxChars: int)
    requires AllRenderable(required) && AllRenderable(optional) && n < |optional| && AllRenderable(p.selected)
    requires GoodPick(required, optional, n, p, historyChars, maxChars) && Fits(p.selected, optional[n], historyChars, maxChars)
    ensures AllRenderable(p.selected + [optional[n]])
    ensures GoodPick(required, optional, n + 1, Picked(p.selected + [optional[n]], p.excluded), historyChars, maxChars)
  {
    hide Render;
    hide Renderable;
    hide Placed;
    EachRenderable(optional, n);
    var x := optional[n];
    MisfitIff(p.selected, x, historyChars, maxChars);
    var next := p.selected + [x];
    assert next[..|required|] == p.selected[..|required|];
    assert optional[..n + 1] == optional[..n] + [x];
    forall i | 0 <= i < n + 1 ensures Renderable(optional[i].candidate) && Placed(Picked(next, p.excluded), optional[i], historyChars, maxChars) {
      EachRenderable(optional, i);
      PlacedLater(p, x, optional[i], historyChars, maxChars);
    }
    forall i | |required| <= i < |next| ensures next[i] in optional[..n + 1] {
      if i < |p.selected| { assert next[i] == p.selected[i]; }
    }
  }

  lemma GoodPickLeave(required: seq<Ranked>, optional: seq<Ranked>, n: nat, p: Picked, historyChars: nat, maxChars: int)
    requires AllRenderable(required) && AllRenderable(optional) && n < |optional| && AllRenderable(p.selected)
    requires GoodPick(required, optional, n, p, historyChars, maxChars) && !Fits(p.selected, optional[n], historyChars, maxChars)
    ensures GoodPick(required, optional, n + 1, Picked(p.selected, p.excluded + {optional[n].candidate.id}), historyChars, maxChars)
  {
    hide Fits;
    hide Misfit;
    hide Render;
    hide Renderable;
    EachRenderable(optional, n);
    MisfitIff(p.selected, optional[n], historyChars, maxChars);
    assert optional[..n + 1] == optional[..n] + [optional[n]];
  }

  lemma PickStep(required: seq<Ranked>, optional: seq<Ranked>, n: nat, historyChars: nat, maxChars: int)
    requires AllRenderable(required) && AllRenderable(optional) && 0 < n <= |optional| && Renderable(optional[n - 1].candidate)
    ensures var p, x := PickCandidates(required, optional, n - 1, historyChars, maxChars), optional[n - 1];
      PickCandidates(required, optional, n, historyChars, maxChars) ==
        if Fits(p.selected, x, historyChars, maxChars) then Picked(p.selected + [x], p.excluded)
        else Picked(p.selected, p.excluded + {x.candidate.id})
  {
    hide Renderable;
    hide Fits;
  }

  lemma {:induction false} PicksWell(required: seq<Ranked>, optional: seq<Ranked>, n: nat, historyChars: nat, maxChars: int)
    requires AllRenderable(required) && AllRenderable(optional) && n <= |optional| && historyChars + |Render(required)| <= maxChars
    ensures GoodPick(required, optional, n, PickCandidates(required, optional, n, historyChars, maxChars), historyChars, maxChars)
    decreases n
  {
    if n == 0 {
      hide Renderable;
      hide Render;
    } else {
      hide *;
      var p := PickCandidates(required, optional, n - 1, historyChars, maxChars);
      EachRenderable(optional, n - 1);
      PickStep(required, optional, n, historyChars, maxChars);
      PicksWell(required, optional, n - 1, historyChars, maxChars);
      if Fits(p.selected, optional[n - 1], historyChars, maxChars) {
        GoodPickTake(required, optional, n - 1, p, historyChars, maxChars);
      } else {
        GoodPickLeave(required, optional, n - 1, p, historyChars, maxChars);
      }
    }
  }

  // What the turn loop has made of the first n older turns.
  ghost predicate GoodTake(required: seq<Message>, turns: seq<seq<Message>>, n: nat, t: Taken, appendixChars: nat, maxChars: int)
    requires LegalMessages(required) && LegalMessages(t.history) && n <= |turns|
  {
    && CurrentUser(t.history).Some? && Assembled(t.history, turns, n, required)
    && GraphHistoryChars(required) <= GraphHistoryChars(t.history) && GraphHistoryChars(t.history) + appendixChars <= maxChars
    && t.count <= n
  }

  lemma PrependCharges(turn: seq<Message>, history: seq<Message>)
    requires LegalMessages(turn) && LegalMessages(history) && CurrentUser(history).Some?
    ensures LegalMessages(turn + history) && CurrentUser(turn + history).Some?
    ensures GraphHistoryChars(history) <= GraphHistoryChars(turn + history)
  {
    hide *;
    LegalConcat(turn, history);
    ChargedPrepend(turn, history);
    assert [] + turn + history == turn + history && [] + history == history;
    ChargeGrows([], turn, history);
  }

  lemma EachLegal(turns: seq<seq<Message>>, i: nat)
    requires LegalTurns(turns) && i < |turns|
    ensures LegalMessages(turns[i])
  {
  }

  lemma TakeStep(required: seq<Message>, turns: seq<seq<Message>>, n: nat, appendixChars: nat, maxChars: int)
    requires LegalMessages(required) && LegalTurns(turns) && 0 < n <= |turns| && LegalMessages(turns[n - 1])
    ensures var t := TakeTurns(required, turns, n - 1, appendixChars, maxChars);
      TakeTurns(required, turns, n, appendixChars, maxChars) ==
        if TurnFits(t.history, turns[n - 1], appendixChars, maxChars) then Taken(turns[n - 1] + t.history, t.count + 1) else t
  {
    hide LegalMessages;
    hide TurnFits;
  }

  lemma GoodTakeStep(required: seq<Message>, turns: seq<seq<Message>>, n: nat, t: Taken, appendixChars: nat, maxChars: int)
    requires LegalMessages(required) && LegalMessages(t.history) && n < |turns| && LegalMessages(turns[n])
    requires GoodTake(required, turns, n, t, appendixChars, maxChars)
    ensures GoodTake(required, turns, n + 1, t, appendixChars, maxChars)
    ensures LegalMessages(turns[n] + t.history)
    ensures TurnFits(t.history, turns[n], appendixChars, maxChars) ==>
      GoodTake(required, turns, n + 1, Taken(turns[n] + t.history, t.count + 1), appendixChars, maxChars)
  {
    PrependCharges(turns[n], t.history);
    hide LegalMessages;
    hide GraphHistoryChars;
    hide CurrentUser;
    assert (turns[n] + t.history)[|turns[n]|..] == t.history && turns[n] <= turns[n] + t.history;
  }

  lemma {:induction false} TakesWell(required: seq<Message>, turns: seq<seq<Message>>, n: nat, appendixChars: nat, maxChars: int)
    requires LegalMessages(required) && LegalTurns(turns) && CurrentUser(required).Some? && n <= |turns|
    requires GraphHistoryChars(required) + appendixChars <= maxChars
    ensures GoodTake(required, turns, n, TakeTurns(required, turns, n, appendixChars, maxChars), appendixChars, maxChars)
    decreases n
  {
    if n == 0 {
      hide LegalMessages;
      hide GraphHistoryChars;
      hide CurrentUser;
    } else {
      hide *;
      EachLegal(turns, n - 1);
      TakeStep(required, turns, n, appendixChars, maxChars);
      TakesWell(required, turns, n - 1, appendixChars, maxChars);
      GoodTakeStep(required, turns, n - 1, TakeTurns(required, turns, n - 1, appendixChars, maxChars), appendixChars, maxChars);
    }
  }

  // Turns taken later only go in front.
  lemma {:induction false} TakenExtends(required: seq<Message>, turns: seq<seq<Message>>, k: nat, n: nat, appendixChars: nat, maxChars: int)
    requires LegalMessages(required) && LegalTurns(turns) && k <= n <= |turns|
    ensures var a, b := TakeTurns(required, turns, k, appendixChars, maxChars).history, TakeTurns(required, turns, n, appendixChars, maxChars).history;
      |a| <= |b| && b[|b| - |a|..] == a
    decreases n
  {
    hide *;
    if k < n {
      EachLegal(turns, n - 1);
      TakeStep(required, turns, n, appendixChars, maxChars);
      TakenExtends(required, turns, k, n - 1, appendixChars, maxChars);
    }
  }

  /** A turn that was passed over would not fit in front of the final history either. */
  lemma SkippedTurnsMisfit(required: seq<Message>, turns: seq<seq<Message>>, k: nat, appendixChars: nat, maxChars: int)
    requires LegalMessages(required) && LegalTurns(turns) && CurrentUser(required).Some? && k < |turns|
    requires GraphHistoryChars(required) + appendixChars <= maxChars
    ensures var last := TakeTurns(required, turns, |turns|, appendixChars, maxChars).history;
      TurnFits(last, turns[k], appendixChars, maxChars) ==>
        TurnFits(TakeTurns(required, turns, k, appendixChars, maxChars).history, turns[k], appendixChars, maxChars)
  {
    hide *;
    var a, b := TakeTurns(required, turns, k, appendixChars, maxChars).history, TakeTurns(required, turns, |turns|, appendixChars, maxChars).history;
    TakenExtends(required, turns, k, |turns|, appendixChars, maxChars);
    TakesWell(required, turns, k, appendixChars, maxChars);
    EachLegal(turns, k);
    UserOfTaken(required, turns, k, appendixChars, maxChars);
    SkipMisfits(turns[k], a, b, appendixChars, maxChars);
  }

  lemma UserOfTaken(required: seq<Message>, turns: seq<seq<Message>>, k: nat, appendixChars: nat, maxChars: int)
    requires LegalMessages(required) && LegalTurns(turns) && k <= |turns|
    requires GoodTake(required, turns, k, TakeTurns(required, turns, k, appendixChars, maxChars), appendixChars, maxChars)
    ensures CurrentUser(TakeTurns(required, turns, k, appendixChars, maxChars).history).Some?
  {
    hide TakeTurns;
    hide CurrentUser;
  }

  // A turn that fits in front of a longer history fits in front of its end.
  lemma SkipMisfits(turn: seq<Message>, a: seq<Message>, b: seq<Message>, appendixChars: nat, maxChars: int)
    requires LegalMessages(turn) && LegalMessages(a) && LegalMessages(b) && CurrentUser(a).Some?
    requires |a| <= |b| && b[|b| - |a|..] == a
    ensures TurnFits(b, turn, appendixChars, maxChars) ==> TurnFits(a, turn, appendixChars, maxChars)
  {
    var front := b[..|b| - |a|];
    LegalConcat(turn, b);
    hide LegalMessages;
    hide CurrentUser;
    hide GraphHistoryChars;
    assert b == front + a && turn + b == turn + front + a;
    ChargeGrows(turn, front, a);
  }

  /**
   The history is made of older turns in front of the tail, each of the first n either put there, newest first, or
   too long to go in front of the `whole` history.
   */
  ghost predicate AllThatFits(whole: seq<Message>, history: seq<Message>, turns: seq<seq<Message>>, n: nat, tail: seq<Message>,
                              appendixChars: nat, maxChars: int)
    requires n <= |turns| && LegalMessages(whole) && LegalTurns(turns)
    decreases n
  {
    if n == 0 then history == tail
    else
      || (AllThatFits(whole, history, turns, n - 1, tail, appendixChars, maxChars) && !TurnFits(whole, turns[n - 1], appendixChars, maxChars))
      || (turns[n - 1] <= history && AllThatFits(whole, history[|turns[n - 1]|..], turns, n - 1, tail, appendixChars, maxChars))
  }

  lemma {:induction false} FittingIsAssembled(whole: seq<Message>, history: seq<Message>, turns: seq<seq<Message>>, n: nat, tail: seq<Message>,
                                              appendixChars: nat, maxChars: int)
    requires n <= |turns| && LegalMessages(whole) && LegalTurns(turns)
    requires AllThatFits(whole, history, turns, n, tail, appendixChars, maxChars)
    ensures Assembled(history, turns, n, tail)
    decreases n
  {
    hide LegalMessages;
    hide TurnFits;
    if n > 0 {
      if AllThatFits(whole, history, turns, n - 1, tail, appendixChars, maxChars) {
        FittingIsAssembled(whole, history, turns, n - 1, tail, appendixChars, maxChars);
      } else {
        FittingIsAssembled(whole, history[|turns[n - 1]|..], turns, n - 1, tail, appendixChars, maxChars);
      }
    }
  }

  /** The turn loop leaves out only turns that do not fit in front of the history it ends with. */
  lemma {:induction false} TakesAllThatFits(required: seq<Message>, turns: seq<seq<Message>>, n: nat, appendixChars: nat, maxChars: int)
    requires LegalMessages(required) && LegalTurns(turns) && CurrentUser(required).Some? && n <= |turns|
    requires GraphHistoryChars(required) + appendixChars <= maxChars
    ensures var last := TakeTurns(required, turns, |turns|, appendixChars, maxChars).history;
      AllThatFits(last, TakeTurns(required, turns, n, appendixChars, maxChars).history, turns, n, required, appendixChars, maxChars)
    decreases n
  {
    hide LegalMessages;
    hide TurnFits;
    hide GraphHistoryChars;
    hide CurrentUser;
    if n > 0 {
      EachLegal(turns, n - 1);
      TakeStep(required, turns, n, appendixChars, maxChars);
      TakesAllThatFits(required, turns, n - 1, appendixChars, maxChars);
      SkippedTurnsMisfit(required, turns, n - 1, appendixChars, maxChars);
      var t := TakeTurns(required, turns, n - 1, appendixChars, maxChars);
      assert (turns[n - 1] + t.history)[|turns[n - 1]|..] == t.history;
    }
  }

  // ----- order and filters -----

  ghost predicate RankSorted(items: seq<Ranked>) {
    forall i, j | 0 <= i < j < |items| :: RankLe(items[i], items[j])
  }

  lemma RankTotal(a: Ranked, b: Ranked)
    ensures RankLe(a, b) || RankLe(b, a)
  {
    LexTotal(a.candidate.id, b.candidate.id);
  }

  lemma RankTransitive(a: Ranked, b: Ranked, c: Ranked)
    requires RankLe(a, b) && RankLe(b, c)
    ensures RankLe(a, c)
  {
    if a.priority == b.priority == c.priority { LexTransitive(a.candidate.id, b.candidate.id, c.candidate.id); }
  }

  lemma {:induction false} InsertRankedSorts(x: Ranked, items: seq<Ranked>)
    requires RankSorted(items)
    ensures RankSorted(InsertRanked(x, items)) && multiset(InsertRanked(x, items)) == multiset(items) + multiset{x}
    decreases |items|
  {
    var r := InsertRanked(x, items);
    if items == [] || RankLe(x, items[0]) {
      forall i, j | 0 <= i < j < |r| ensures RankLe(r[i], r[j]) {
        if i == 0 && j > 1 { RankTransitive(x, items[0], items[j - 1]); }
      }
    } else {
      RankTotal(x, items[0]);
      InsertRankedSorts(x, items[1..]);
      assert items == [items[0]] + items[1..];
      forall j | 0 < j < |r| ensures RankLe(r[0], r[j]) {
        assert r[j] in multiset(InsertRanked(x, items[1..]));
        assert r[j] == x || r[j] in items[1..];
      }
    }
  }

  /** Candidates are rendered in order of priority and then id. */
  lemma {:induction false} SortRankedSorts(items: seq<Ranked>)
    ensures RankSorted(SortRanked(items)) && multiset(SortRanked(items)) == multiset(items)
    decreases |items|
  {
    if items != [] {
      SortRankedSorts(items[1..]);
      InsertRankedSorts(items[0], SortRanked(items[1..]));
      assert items == [items[0]] + items[1..];
    }
  }

  lemma {:induction false} SplitByRequired(items: seq<Ranked>, x: Ranked)
    ensures x in Required(items) <==> x in items && x.candidate.required
    ensures x in Optional(items) <==> x in items && !x.candidate.required
    decreases |items|
  {
    if items != [] {
      SplitByRequired(items[1..], x);
      assert x in items <==> x == items[0] || x in items[1..];
    }
  }

  lemma PartsRenderable(items: seq<Ranked>)
    requires AllRenderable(items)
    ensures AllRenderable(Required(SortRanked(items))) && AllRenderable(Optional(SortRanked(items)))
  {
    hide Renderable;
    var sorted := SortRanked(items);
    SortRankedSorts(items);
    forall i | 0 <= i < |Required(sorted)| ensures Renderable(Required(sorted)[i].candidate) {
      SplitByRequired(sorted, Required(sorted)[i]);
      assert Required(sorted)[i] in multiset(items);
    }
    forall i | 0 <= i < |Optional(sorted)| ensures Renderable(Optional(sorted)[i].candidate) {
      SplitByRequired(sorted, Optional(sorted)[i]);
      assert Optional(sorted)[i] in multiset(items);
    }
  }

  lemma SelectionLegal(messages: seq<Message>)
    requires LegalMessages(messages)
    ensures var s := SelectTranscript(messages); LegalMessages(s.required) && LegalTurns(s.optionalTurns)
    ensures HasUser(messages) ==> CurrentUser(SelectTranscript(messages).required).Some?
  {
    hide Legal;
    hide CurrentUser;
    var users := UserIndexes(messages, |messages|);
    var s := SelectTranscript(messages);
    if users != [] {
      var u := if |users| == 1 then 0 else |users| - 2;
      TurnsBelowAt(messages, users, u, 0);
      forall i | 0 <= i < |s.optionalTurns| ensures LegalMessages(s.optionalTurns[i]) {
        TurnsBelowAt(messages, users, u, i);
        hide TurnsBelow;
      }
    }
    RequiredHasUser(messages);
  }

  lemma RequiredHasUser(messages: seq<Message>)
    ensures HasUser(messages) ==> CurrentUser(SelectTranscript(messages).required).Some?
  {
    RequiredPart(messages);
    hide SelectTranscript;
  }

  // ----- the compiler -----

  /** The checks that come before any budget, in order. */
  function EarlyReason(r: Request): Option<Reason> {
    if !r.sourceValid || !HasUser(r.messages) then Some(CanonicalSourceInvalid)
    else if !r.complete then Some(TranscriptIncomplete)
    else if !r.observed then Some(WorkspaceObservationFailed)
    else if r.frontier.AmbiguousFrontier? then Some(ReasoningFrontierAmbiguous)
    else if r.frontier.InvalidGraph? then Some(ReasoningGraphInvalid)
    else None
  }

  function RequiredChars(required: seq<Ranked>, messages: seq<Message>): nat
    requires AllRenderable(required) && LegalMessages(messages)
  {
    SelectionLegal(messages);
    GraphHistoryChars(SelectTranscript(messages).required) + |Render(required)|
  }

  /** The result once the loops have run. */
  function Finish(r: Request, requiredChars: nat, p: Picked, t: Taken): Delivery
    requires AllRenderable(p.selected) && LegalMessages(t.history)
  {
    var graphChars := GraphHistoryChars(t.history) + |Render(p.selected)|;
    var optionalChars := Clamp(graphChars - requiredChars);
    if graphChars > r.maxChars
    then Delivery(false, r.messages, [], graphChars, Some(RenderBoundViolation), p.selected, requiredChars, optionalChars, t.count, p.excluded)
    else Delivery(true, t.history, Render(p.selected), graphChars, None, p.selected, requiredChars, optionalChars, t.count, p.excluded)
  }

  function Budgeted(r: Request, required: seq<Ranked>, optional: seq<Ranked>): Delivery
    requires LegalMessages(r.messages) && AllRenderable(required) && AllRenderable(optional)
  {
    SelectionLegal(r.messages);
    var s := SelectTranscript(r.messages);
    var requiredChars := RequiredChars(required, r.messages);
    if requiredChars > r.maxChars
    then Delivery(false, r.messages, [], requiredChars, Some(RequiredBudgetOverflow), required, requiredChars, Clamp(0), 0, {})
    else
      var p := PickCandidates(required, optional, |optional|, GraphHistoryChars(s.required), r.maxChars);
      var t := TakeTurns(s.required, s.optionalTurns, |s.optionalTurns|, |Render(p.selected)|, r.maxChars);
      Finish(r, requiredChars, p, t)
  }

  function Compile(r: Request): Delivery
    requires WellFormedRequest(r)
  {
    if EarlyReason(r).Some? then EarlyFallback(r, EarlyReason(r).value)
    else
      var sorted := SortRanked(r.frontier.candidates);
      PartsRenderable(r.frontier.candidates);
      Budgeted(r, Required(sorted), Optional(sorted))
  }

  // ----- what is delivered -----

  /** The history: the required part, and before it every older turn that still fits in front of the whole. */
  ghost predicate HistoryDelivered(r: Request, c: Delivery) {
    var s := SelectTranscript(r.messages);
    && LegalMessages(c.history) && LegalTurns(s.optionalTurns)
    && AllThatFits(c.history, c.history, s.optionalTurns, |s.optionalTurns|, s.required, |c.appendix|, r.maxChars)
  }

  /** A delivery in graph mode; `historyChars` is what the required history costs. */
  ghost predicate GraphDelivery(r: Request, required: seq<Ranked>, optional: seq<Ranked>, historyChars: nat, c: Delivery)
    requires AllRenderable(required) && AllRenderable(optional)
  {
    && c.graph && c.reason.None?
    && AllRenderable(c.selected) && c.appendix == Render(c.selected)
    && |required| <= |c.selected| && c.selected[..|required|] == required
    && (forall i | |required| <= i < |c.selected| :: c.selected[i] in optional)
    && LegalMessages(c.history) && c.graphChars == GraphHistoryChars(c.history) + |c.appendix| <= r.maxChars
    && HistoryDelivered(r, c)
    && 0 <= c.optionalChars == c.graphChars - c.requiredChars
    && (forall i | 0 <= i < |optional| :: Placed(Picked(c.selected, c.excluded), optional[i], historyChars, r.maxChars))
  }

  lemma FinishDelivers(r: Request, required: seq<Ranked>, optional: seq<Ranked>, historyChars: nat, s: Selection, p: Picked, t: Taken)
    requires AllRenderable(required) && AllRenderable(optional) && AllRenderable(p.selected)
    requires LegalMessages(s.required) && LegalMessages(t.history) && s == SelectTranscript(r.messages)
    requires historyChars == GraphHistoryChars(s.required) && GoodPick(required, optional, |optional|, p, historyChars, r.maxChars)
    requires GoodTake(s.required, s.optionalTurns, |s.optionalTurns|, t, |Render(p.selected)|, r.maxChars)
    requires LegalTurns(s.optionalTurns)
    requires AllThatFits(t.history, t.history, s.optionalTurns, |s.optionalTurns|, s.required, |Render(p.selected)|, r.maxChars)
    ensures GraphDelivery(r, required, optional, historyChars, Finish(r, historyChars + |Render(required)|, p, t))
  {
    hide Render;
    hide Renderable;
    hide GraphHistoryChars;
    hide LegalMessages;
    hide CurrentUser;
    hide SelectTranscript;
    hide Placed;
    hide Assembled;
    hide AllThatFits;
    assert optional[..|optional|] == optional;
  }

  lemma BudgetedDelivers(r: Request, required: seq<Ranked>, optional: seq<Ranked>)
    requires LegalMessages(r.messages) && AllRenderable(required) && AllRenderable(optional) && HasUser(r.messages)
    ensures LegalMessages(SelectTranscript(r.messages).required)
    ensures var c, historyChars := Budgeted(r, required, optional), GraphHistoryChars(SelectTranscript(r.messages).required);
      && c.requiredChars == historyChars + |Render(required)|
      && (c.requiredChars > r.maxChars ==> !c.graph && c.reason == Some(RequiredBudgetOverflow) && c.history == r.messages && c.appendix == [])
      && (c.requiredChars <= r.maxChars ==> GraphDelivery(r, required, optional, historyChars, c))
  {
    hide Render;
    hide Renderable;
    hide GraphHistoryChars;
    hide LegalMessages;
    hide CurrentUser;
    hide SelectTranscript;
    hide GraphDelivery;
    hide HasUser;
    hide PickCandidates;
    hide TakeTurns;
    hide GoodPick;
    SelectionLegal(r.messages);
    var s := SelectTranscript(r.messages);
    var historyChars := GraphHistoryChars(s.required);
    if historyChars + |Render(required)| <= r.maxChars {
      PicksWell(required, optional, |optional|, historyChars, r.maxChars);
      var p := PickCandidates(required, optional, |optional|, historyChars, r.maxChars);
      SelectedFits(required, optional, |optional|, p, historyChars, r.maxChars);
      TakesWell(s.required, s.optionalTurns, |s.optionalTurns|, |Render(p.selected)|, r.maxChars);
      TakesAllThatFits(s.required, s.optionalTurns, |s.optionalTurns|, |Render(p.selected)|, r.maxChars);
      FinishDelivers(r, required, optional, historyChars, s, p, TakeTurns(s.required, s.optionalTurns, |s.optionalTurns|, |Render(p.selected)|, r.maxChars));
    }
  }

  lemma SelectedFits(required: seq<Ranked>, optional: seq<Ranked>, n: nat, p: Picked, historyChars: nat, maxChars: int)
    requires AllRenderable(required) && AllRenderable(optional) && n <= |optional| && AllRenderable(p.selected)
    requires GoodPick(required, optional, n, p, historyChars, maxChars)
    ensures historyChars + |Render(p.selected)| <= maxChars
  {
    hide Render;
  }

  /**
   What compilation delivers: either the verbatim history with the first reason that applies, or a history and
   an appendix within the bound. The latter happens exactly if the request is valid and its required part fits;
   the bound is never found violated afterwards.
   */
  lemma CompileDelivers(r: Request)
    requires WellFormedRequest(r)
    ensures var c := Compile(r);
      && (!c.graph ==> c.history == r.messages && c.appendix == [] && c.reason.Some? && c.reason != Some(RenderBoundViolation))
      && (EarlyReason(r).Some? ==> !c.graph && c.reason == EarlyReason(r))
      && (EarlyReason(r).None? ==>
            (c.graph <==> c.requiredChars <= r.maxChars) && (!c.graph ==> c.reason == Some(RequiredBudgetOverflow)))
      && (c.graph ==> GraphWithin(r, c))
  {
    if EarlyReason(r).None? {
      var sorted := SortRanked(r.frontier.candidates);
      PartsRenderable(r.frontier.candidates);
      BudgetedDelivers(r, Required(sorted), Optional(sorted));
      hide Budgeted;
      hide GraphDelivery;
      hide RequiredChars;
      hide Render;
      hide AllRenderable;
      hide LegalMessages;
      hide GraphHistoryChars;
      hide SelectTranscript;
      if Compile(r).graph { DeliveryWithin(r, Compile(r), GraphHistoryChars(SelectTranscript(r.messages).required)); }
    }
  }

  /** Left out by the budget, and still too long for it beside everything that was selected. */
  ghost predicate LeftOut(c: Delivery, x: Ranked, historyChars: nat, maxChars: int) {
    AllRenderable(c.selected) && Renderable(x.candidate) && x.candidate.id in c.excluded && Misfit(c.selected, x, historyChars, maxChars)
  }

  /** Within the bound, with every required candidate, whole turns in order, and nothing left out that would fit. */
  ghost predicate GraphWithin(r: Request, c: Delivery)
    requires r.frontier.Derived?
  {
    && LegalMessages(c.history) && AllRenderable(c.selected)
    && c.appendix == Render(c.selected) && c.graphChars == GraphHistoryChars(c.history) + |c.appendix| && c.graphChars <= r.maxChars
    && 0 <= c.optionalChars == c.graphChars - c.requiredChars
    && (forall x | x in r.frontier.candidates :: x.candidate.required ==> x in c.selected)
    && (forall x | x in c.selected :: x in r.frontier.candidates)
    && LegalMessages(SelectTranscript(r.messages).required)
    && (forall x | x in r.frontier.candidates :: x in c.selected || LeftOut(c, x, GraphHistoryChars(SelectTranscript(r.messages).required), r.maxChars))
    && HistoryDelivered(r, c) && Subsequence(c.history, r.messages)
    && (var required := SelectTranscript(r.messages).required;
          |required| <= |c.history| && c.history[|c.history| - |required|..] == required)
  }

  lemma DeliveryWithin(r: Request, c: Delivery, historyChars: nat)
    requires WellFormedRequest(r) && r.frontier.Derived? && LegalMessages(SelectTranscript(r.messages).required)
    requires historyChars == GraphHistoryChars(SelectTranscript(r.messages).required)
    requires var sorted := SortRanked(r.frontier.candidates);
      && AllRenderable(Required(sorted)) && AllRenderable(Optional(sorted))
      && GraphDelivery(r, Required(sorted), Optional(sorted), historyChars, c)
    ensures GraphWithin(r, c)
  {
    hide Render;
    hide Renderable;
    hide GraphHistoryChars;
    hide LegalMessages;
    hide Placed;
    hide LeftOut;
    hide SelectTranscript;
    hide Subsequence;
    hide Assembled;
    hide AllThatFits;
    var sorted := SortRanked(r.frontier.candidates);
    var s := SelectTranscript(r.messages);
    FittingIsAssembled(c.history, c.history, s.optionalTurns, |s.optionalTurns|, s.required, |c.appendix|, r.maxChars);
    WholeTurnsInOrder(r.messages, c.history);
    NothingLost(r.frontier.candidates, sorted, c, historyChars, r.maxChars);
  }

  lemma NothingLost(items: seq<Ranked>, sorted: seq<Ranked>, c: Delivery, historyChars: nat, maxChars: int)
    requires sorted == SortRanked(items) && AllRenderable(c.selected) && AllRenderable(Optional(sorted))
    requires |Required(sorted)| <= |c.selected| && c.selected[..|Required(sorted)|] == Required(sorted)
    requires forall i | |Required(sorted)| <= i < |c.selected| :: c.selected[i] in Optional(sorted)
    requires forall i | 0 <= i < |Optional(sorted)| :: Placed(Picked(c.selected, c.excluded), Optional(sorted)[i], historyChars, maxChars)
    ensures forall x | x in items :: x.candidate.required ==> x in c.selected
    ensures forall x | x in c.selected :: x in items
    ensures forall x | x in items :: x in c.selected || LeftOut(c, x, historyChars, maxChars)
  {
    hide AllRenderable;
    hide Placed;
    hide LeftOut;
    SortRankedSorts(items);
    hide SortRanked;
    hide RankSorted;
    forall x | x in items
      ensures (x.candidate.required ==> x in c.selected) && (x in c.selected || LeftOut(c, x, historyChars, maxChars))
    {
      assert x in multiset(sorted);
      SplitByRequired(sorted, x);
      PlacedOrRequired(Required(sorted), Optional(sorted), x, c, historyChars, maxChars);
    }
    forall x | x in c.selected ensures x in items {
      SplitByRequired(sorted, x);
      FromParts(Required(sorted), Optional(sorted), x, c.selected);
      assert x in multiset(sorted);
    }
  }

  lemma PlacedOrRequired(required: seq<Ranked>, optional: seq<Ranked>, x: Ranked, c: Delivery, historyChars: nat, maxChars: int)
    requires AllRenderable(c.selected) && AllRenderable(optional)
    requires |required| <= |c.selected| && c.selected[..|required|] == required
    requires forall i | 0 <= i < |optional| :: Placed(Picked(c.selected, c.excluded), optional[i], historyChars, maxChars)
    ensures x in required ==> x in c.selected
    ensures x in optional ==> x in c.selected || LeftOut(c, x, historyChars, maxChars)
  {
    hide Misfit;
    hide Renderable;
    if x in required {
      var i :| 0 <= i < |required| && required[i] == x;
      assert c.selected[i] == x;
    }
    if x in optional {
      var i :| 0 <= i < |optional| && optional[i] == x;
      assert Placed(Picked(c.selected, c.excluded), optional[i], historyChars, maxChars);
    }
  }

  lemma FromParts(required: seq<Ranked>, optional: seq<Ranked>, x: Ranked, selected: seq<Ranked>)
    requires |required| <= |selected| && selected[..|required|] == required
    requires forall i | |required| <= i < |selected| :: selected[i] in optional
    ensures x in selected ==> x in required || x in optional
  {
    if x in selected {
      var i :| 0 <= i < |selected| && selected[i] == x;
      if i < |required| { assert required[i] == x; }
    }
  }
}
