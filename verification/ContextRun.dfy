/** The compiler's loops, proved against their specification, and the counters of what was left out. */
module ContextRun {
  import opened Wrappers
  import opened JsonText
  import opened AppendixItems
  import opened ContextHistory
  import opened ContextCompiler

  /** The two greedy loops between the required part and the final result. */
  method SelectGreedily(r: Request, required: seq<Ranked>, optional: seq<Ranked>, transcript: Selection)
      returns (p: Picked, t: Taken)
    requires AllRenderable(required) && AllRenderable(optional)
    requires LegalMessages(transcript.required) && LegalTurns(transcript.optionalTurns)
    ensures p == PickCandidates(required, optional, |optional|, GraphHistoryChars(transcript.required), r.maxChars)
    ensures t == TakeTurns(transcript.required, transcript.optionalTurns, |transcript.optionalTurns|, |Render(p.selected)|, r.maxChars)
  {
    hide Renderable;
    hide Render;
    hide LegalMessages;
    hide GraphHistoryChars;
    var historyChars := GraphHistoryCharsLoop(transcript.required);
    var selectedCandidates := required;
    var candidateBudgetExcluded: set<Text> := {};
    for i := 0 to |optional|
      invariant AllRenderable(selectedCandidates)
      invariant Picked(selectedCandidates, candidateBudgetExcluded) == PickCandidates(required, optional, i, historyChars, r.maxChars)
    {
      EachRenderable(optional, i);
      var nextCandidates := selectedCandidates + [optional[i]];
      MisfitIff(selectedCandidates, optional[i], historyChars, r.maxChars);
      var nextChars := historyChars + |Render(nextCandidates)|;
      if nextChars <= r.maxChars {
        selectedCandidates := nextCandidates;
      } else {
        candidateBudgetExcluded := candidateBudgetExcluded + {optional[i].candidate.id};
      }
    }
    p := Picked(selectedCandidates, candidateBudgetExcluded);
    t := TakeGreedily(r, transcript, |Render(selectedCandidates)|);
  }

  method TakeGreedily(r: Request, transcript: Selection, appendixChars: nat) returns (t: Taken)
    requires LegalMessages(transcript.required) && LegalTurns(transcript.optionalTurns)
    ensures t == TakeTurns(transcript.required, transcript.optionalTurns, |transcript.optionalTurns|, appendixChars, r.maxChars)
  {
    hide LegalMessages;
    hide GraphHistoryChars;
    var selectedHistory, selectedOptionalTurnCount := transcript.required, 0;
    var turns := transcript.optionalTurns;
    for i := 0 to |turns|
      invariant LegalMessages(selectedHistory) && selectedOptionalTurnCount >= 0
      invariant Taken(selectedHistory, selectedOptionalTurnCount) == TakeTurns(transcript.required, turns, i, appendixChars, r.maxChars)
    {
      EachLegal(turns, i);
      LegalConcat(turns[i], selectedHistory);
      TakeStep(transcript.required, turns, i + 1, appendixChars, r.maxChars);
      var nextHistory := turns[i] + selectedHistory;
      var nextChars := GraphHistoryCharsLoop(nextHistory);
      if nextChars + appendixChars <= r.maxChars {
        selectedHistory := nextHistory;
        selectedOptionalTurnCount := selectedOptionalTurnCount + 1;
      }
    }
    t := Taken(selectedHistory, selectedOptionalTurnCount);
  }

  method CompileBudgeted(r: Request, required: seq<Ranked>, optional: seq<Ranked>) returns (c: Delivery)
    requires LegalMessages(r.messages) && AllRenderable(required) && AllRenderable(optional)
    ensures c == Budgeted(r, required, optional)
  {
    hide Renderable;
    hide Render;
    hide LegalMessages;
    hide GraphHistoryChars;
    hide SelectTranscript;
    hide PickCandidates;
    hide TakeTurns;
    hide Finish;
    SelectionLegal(r.messages);
    var transcript := SelectTranscriptLoop(r.messages);
    var requiredHistoryChars := GraphHistoryCharsLoop(transcript.required);
    var requiredChars := requiredHistoryChars + |Render(required)|;
    if requiredChars > r.maxChars {
      return Delivery(false, r.messages, [], requiredChars, Some(RequiredBudgetOverflow), required, requiredChars, Clamp(0), 0, {});
    }
    var p, t := SelectGreedily(r, required, optional, transcript);
    c := Finish(r, requiredChars, p, t);
  }

  /** The whole compilation. */
  method CompileGraphContext(r: Request) returns (c: Delivery)
    requires WellFormedRequest(r)
    ensures c == Compile(r)
  {
    hide Budgeted;
    hide Renderable;
    hide LegalMessages;
    var early := EarlyReason(r);
    if early.Some? { return EarlyFallback(r, early.value); }
    var candidates := SortRanked(r.frontier.candidates);
    PartsRenderable(r.frontier.candidates);
    c := CompileBudgeted(r, Required(candidates), Optional(candidates));
  }

  // ----- what was left out -----

  datatype Why = ByFallback(reason: Reason) | ByBudget | NotSelected

  datatype Tally = Tally(candidateCount: int, excludedCount: int, reasonCounts: map<Why, int>)

  datatype Summary = Summary(transcript: Tally, reasoning: Tally, memory: Tally)

  function WhyOf(x: Ranked, excluded: set<Text>, fallback: Option<Reason>): Why {
    if fallback.Some? then ByFallback(fallback.value) else if x.candidate.id in excluded then ByBudget else NotSelected
  }

  function CountOf(counts: map<Why, int>, why: Why): int {
    if why in counts then counts[why] else 0
  }

  function Note(t: Tally, x: Ranked, selectedIds: set<Text>, excluded: set<Text>, fallback: Option<Reason>): Tally {
    var why := WhyOf(x, excluded, fallback);
    if x.candidate.id in selectedIds then Tally(t.candidateCount + 1, t.excludedCount, t.reasonCounts)
    else Tally(t.candidateCount + 1, t.excludedCount + 1, t.reasonCounts[why := CountOf(t.reasonCounts, why) + 1])
  }

  /** The counters of one family over the first n candidates. */
  function TallyUpTo(candidates: seq<Ranked>, n: nat, memory: bool, selectedIds: set<Text>, excluded: set<Text>, fallback: Option<Reason>): Tally
    requires n <= |candidates|
  {
    if n == 0 then Tally(0, 0, map[])
    else
      var t := TallyUpTo(candidates, n - 1, memory, selectedIds, excluded, fallback);
      if candidates[n - 1].isMemory == memory then Note(t, candidates[n - 1], selectedIds, excluded, fallback) else t
  }

  function Ids(items: seq<Ranked>): set<Text> {
    set x | x in items :: x.candidate.id
  }

  method BuildExcludedSummary(candidates: seq<Ranked>, selected: seq<Ranked>, optionalTurnCount: nat, selectedOptionalTurnCount: nat,
                              candidateBudgetExcluded: set<Text>, fallback: Option<Reason>) returns (s: Summary)
    ensures s.transcript.candidateCount == optionalTurnCount + 1 && s.transcript.excludedCount == optionalTurnCount - selectedOptionalTurnCount
    ensures s.transcript.reasonCounts == if optionalTurnCount > selectedOptionalTurnCount
      then map[if fallback.Some? then ByFallback(fallback.value) else ByBudget := optionalTurnCount - selectedOptionalTurnCount] else map[]
    ensures s.reasoning == TallyUpTo(candidates, |candidates|, false, Ids(selected), candidateBudgetExcluded, fallback)
    ensures s.memory == TallyUpTo(candidates, |candidates|, true, Ids(selected), candidateBudgetExcluded, fallback)
  {
    var selectedIds := Ids(selected);
    var excludedTurns := optionalTurnCount - selectedOptionalTurnCount;
    var transcript := Tally(optionalTurnCount + 1, excludedTurns, map[]);
    if excludedTurns > 0 {
      var why := if fallback.Some? then ByFallback(fallback.value) else ByBudget;
      transcript := transcript.(reasonCounts := map[why := excludedTurns]);
    }
    var reasoning, memory := Tally(0, 0, map[]), Tally(0, 0, map[]);
    for i := 0 to |candidates|
      invariant reasoning == TallyUpTo(candidates, i, false, selectedIds, candidateBudgetExcluded, fallback)
      invariant memory == TallyUpTo(candidates, i, true, selectedIds, candidateBudgetExcluded, fallback)
    {
      var x := candidates[i];
      if x.isMemory {
        memory := Note(memory, x, selectedIds, candidateBudgetExcluded, fallback);
      } else {
        reasoning := Note(reasoning, x, selectedIds, candidateBudgetExcluded, fallback);
      }
    }
    s := Summary(transcript, reasoning, memory);
  }

  /** The reasons of a family add up to its excluded count. */
  lemma {:induction false} ReasonsAddUp(candidates: seq<Ranked>, n: nat, memory: bool, selectedIds: set<Text>, excluded: set<Text>, fallback: Option<Reason>)
    requires n <= |candidates|
    ensures var t := TallyUpTo(candidates, n, memory, selectedIds, excluded, fallback);
      && (fallback.Some? ==> t.excludedCount == CountOf(t.reasonCounts, ByFallback(fallback.value)))
      && (fallback.None? ==> t.excludedCount == CountOf(t.reasonCounts, ByBudget) + CountOf(t.reasonCounts, NotSelected))
      && 0 <= t.excludedCount <= t.candidateCount
    decreases n
  {
    if n > 0 { ReasonsAddUp(candidates, n - 1, memory, selectedIds, excluded, fallback); }
  }

  /** In a graph delivery everything left out was left out by the budget: the reason "not_selected" is never counted. */
  lemma {:induction false} NeverNotSelected(candidates: seq<Ranked>, n: nat, memory: bool, selectedIds: set<Text>, excluded: set<Text>, fallback: Option<Reason>)
    requires n <= |candidates| && forall x | x in candidates :: x.candidate.id in selectedIds || x.candidate.id in excluded
    ensures CountOf(TallyUpTo(candidates, n, memory, selectedIds, excluded, fallback).reasonCounts, NotSelected) == 0
    decreases n
  {
    if n > 0 {
      assert candidates[n - 1] in candidates;
      NeverNotSelected(candidates, n - 1, memory, selectedIds, excluded, fallback);
    }
  }

  lemma GraphSummary(r: Request, memory: bool)
    requires WellFormedRequest(r) && Compile(r).graph
    ensures r.frontier.Derived?
    ensures var c := Compile(r); var t := TallyUpTo(r.frontier.candidates, |r.frontier.candidates|, memory, Ids(c.selected), c.excluded, None);
      t.excludedCount == CountOf(t.reasonCounts, ByBudget)
  {
    hide Compile;
    hide AllRenderable;
    hide LegalMessages;
    hide Render;
    hide GraphHistoryChars;
    hide Subsequence;
    hide SelectTranscript;
    hide TallyUpTo;
    hide Misfit;
    hide Renderable;
    CompileDelivers(r);
    var c := Compile(r);
    forall x | x in r.frontier.candidates ensures x.candidate.id in Ids(c.selected) || x.candidate.id in c.excluded {
      if x in c.selected { assert x.candidate.id in Ids(c.selected); }
    }
    NeverNotSelected(r.frontier.candidates, |r.frontier.candidates|, memory, Ids(c.selected), c.excluded, None);
    ReasonsAddUp(r.frontier.candidates, |r.frontier.candidates|, memory, Ids(c.selected), c.excluded, None);
  }

  ghost predicate UniqueIds(items: seq<Ranked>) {
    forall i, j | 0 <= i < j < |items| :: items[i].candidate.id != items[j].candidate.id
  }

  function IdsUpTo(items: seq<Ranked>, n: nat): set<Text>
    requires n <= |items|
  {
    set i | 0 <= i < n :: items[i].candidate.id
  }

  lemma IdsNext(candidates: seq<Ranked>, n: nat, selectedIds: set<Text>)
    requires 0 < n <= |candidates| && UniqueIds(candidates)
    ensures var x := candidates[n - 1].candidate.id;
      |selectedIds * IdsUpTo(candidates, n)| == |selectedIds * IdsUpTo(candidates, n - 1)| + (if x in selectedIds then 1 else 0)
  {
    var x := candidates[n - 1].candidate.id;
    var before := IdsUpTo(candidates, n - 1);
    assert x !in before;
    assert IdsUpTo(candidates, n) == before + {x};
    hide IdsUpTo;
    hide UniqueIds;
    if x in selectedIds {
      assert selectedIds * (before + {x}) == selectedIds * before + {x};
    } else {
      assert selectedIds * (before + {x}) == selectedIds * before;
    }
  }

  // One more candidate is counted in one of the two families.
  lemma TallyNext(candidates: seq<Ranked>, n: nat, selectedIds: set<Text>, excluded: set<Text>, fallback: Option<Reason>)
    requires 0 < n <= |candidates|
    ensures CandidateTotal(candidates, n, selectedIds, excluded, fallback) == CandidateTotal(candidates, n - 1, selectedIds, excluded, fallback) + 1
    ensures ExcludedTotal(candidates, n, selectedIds, excluded, fallback) ==
      ExcludedTotal(candidates, n - 1, selectedIds, excluded, fallback) + (if candidates[n - 1].candidate.id in selectedIds then 0 else 1)
  {
  }

  function CandidateTotal(candidates: seq<Ranked>, n: nat, selectedIds: set<Text>, excluded: set<Text>, fallback: Option<Reason>): int
    requires n <= |candidates|
  {
    TallyUpTo(candidates, n, false, selectedIds, excluded, fallback).candidateCount +
    TallyUpTo(candidates, n, true, selectedIds, excluded, fallback).candidateCount
  }

  /** How many candidates both families count as excluded. */
  function ExcludedTotal(candidates: seq<Ranked>, n: nat, selectedIds: set<Text>, excluded: set<Text>, fallback: Option<Reason>): int
    requires n <= |candidates|
  {
    TallyUpTo(candidates, n, false, selectedIds, excluded, fallback).excludedCount +
    TallyUpTo(candidates, n, true, selectedIds, excluded, fallback).excludedCount
  }

  /** When no two candidates share an id, the excluded ones are as many as the candidates less the selected ids. */
  lemma {:induction false} ExcludedCounts(candidates: seq<Ranked>, n: nat, selectedIds: set<Text>, excluded: set<Text>, fallback: Option<Reason>)
    requires n <= |candidates| && UniqueIds(candidates)
    ensures CandidateTotal(candidates, n, selectedIds, excluded, fallback) == n
    ensures ExcludedTotal(candidates, n, selectedIds, excluded, fallback) == n - |selectedIds * IdsUpTo(candidates, n)|
    decreases n
  {
    if n == 0 {
      assert selectedIds * IdsUpTo(candidates, 0) == {};
    } else {
      hide *;
      TallyNext(candidates, n, selectedIds, excluded, fallback);
      IdsNext(candidates, n, selectedIds);
      ExcludedCounts(candidates, n - 1, selectedIds, excluded, fallback);
    }
  }
}
