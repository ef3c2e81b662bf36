/** Conversation history: turns, the part that must be kept, and what a history costs in rendered characters. */
module ContextHistory {
  import opened Wrappers
  import opened JsonText
  import opened CanonicalPrinter
  import opened Appendix

  datatype Message = Message(isUser: bool, json: Value)

  predicate LegalMessages(messages: seq<Message>) {
    forall i | 0 <= i < |messages| :: Legal(messages[i].json)
  }

  lemma LegalConcat(a: seq<Message>, b: seq<Message>)
    ensures LegalMessages(a + b) <==> LegalMessages(a) && LegalMessages(b)
  {
    hide Legal;
    if LegalMessages(a + b) {
      forall i | 0 <= i < |a| ensures Legal(a[i].json) { assert (a + b)[i] == a[i]; }
      forall i | 0 <= i < |b| ensures Legal(b[i].json) { assert (a + b)[|a| + i] == b[i]; }
    }
  }

  // ----- turns -----

  /** The positions of the user messages, in order. */
  function UserIndexes(messages: seq<Message>, n: nat): (r: seq<nat>)
    requires n <= |messages|
    ensures forall i | 0 <= i < |r| :: r[i] < n && messages[r[i]].isUser
    ensures forall i, j | 0 <= i < j < |r| :: r[i] < r[j]
    ensures r == [] <==> forall i | 0 <= i < n :: !messages[i].isUser
  {
    if n == 0 then [] else UserIndexes(messages, n - 1) + (if messages[n - 1].isUser then [n - 1] else [])
  }

  datatype Selection = Selection(required: seq<Message>, optionalTurns: seq<seq<Message>>)

  /** The u-th oldest turn: from its user message up to the next one. */
  function Turn(messages: seq<Message>, users: seq<nat>, u: nat): seq<Message>
    requires u + 1 < |users| && users[u] <= users[u + 1] <= |messages|
  {
    messages[users[u]..users[u + 1]]
  }

  /** Turns u - 1 down to 0, newest first. */
  function TurnsBelow(messages: seq<Message>, users: seq<nat>, u: nat): seq<seq<Message>>
    requires u < |users| && (forall i | 0 <= i < |users| :: users[i] <= |messages|)
    requires forall i, j | 0 <= i < j < |users| :: users[i] < users[j]
  {
    if u == 0 then [] else [Turn(messages, users, u - 1)] + TurnsBelow(messages, users, u - 1)
  }

  /** What is always kept, and the older turns newest first. */
  function SelectTranscript(messages: seq<Message>): Selection {
    var users := UserIndexes(messages, |messages|);
    if users == [] then Selection([], [])
    else if |users| == 1 then Selection(messages[users[0]..], [])
    else Selection(messages[users[|users| - 2]..], TurnsBelow(messages, users, |users| - 2))
  }

  method CollectUsers(messages: seq<Message>) returns (users: seq<nat>)
    ensures users == UserIndexes(messages, |messages|)
  {
    users := [];
    for i := 0 to |messages|
      invariant users == UserIndexes(messages, i)
    {
      if messages[i].isUser { users := users + [i]; }
    }
  }

  method CollectTurns(messages: seq<Message>, users: seq<nat>) returns (turns: seq<seq<Message>>)
    requires |users| >= 2 && (forall i | 0 <= i < |users| :: users[i] <= |messages|)
    requires forall i, j | 0 <= i < j < |users| :: users[i] < users[j]
    ensures turns == TurnsBelow(messages, users, |users| - 2)
  {
    turns := [];
    var u := |users| - 3;
    while u >= 0
      invariant -1 <= u < |users| - 2
      invariant turns + TurnsBelow(messages, users, u + 1) == TurnsBelow(messages, users, |users| - 2)
    {
      ghost var before := turns;
      assert TurnsBelow(messages, users, u + 1) == [Turn(messages, users, u)] + TurnsBelow(messages, users, u);
      turns := turns + [messages[users[u]..users[u + 1]]];
      assert before + ([Turn(messages, users, u)] + TurnsBelow(messages, users, u)) == turns + TurnsBelow(messages, users, u);
      u := u - 1;
    }
  }

  /** The selection of the transcript: both loops. */
  method SelectTranscriptLoop(messages: seq<Message>) returns (r: Selection)
    ensures r == SelectTranscript(messages)
  {
    var users := CollectUsers(messages);
    var n := |users|;
    if n == 0 { return Selection([], []); }
    var currentStart := users[n - 1];
    var previousStart := if n >= 2 then users[n - 2] else currentStart;
    var optionalTurns: seq<seq<Message>> := [];
    if n >= 2 { optionalTurns := CollectTurns(messages, users); }
    r := Selection(messages[previousStart..], optionalTurns);
  }

  // ----- histories made of whole turns -----

  /** A history made by putting some of the first n turns, newest first, before a tail. */
  predicate Assembled(history: seq<Message>, turns: seq<seq<Message>>, n: nat, tail: seq<Message>)
    requires n <= |turns|
    decreases n
  {
    if n == 0 then history == tail
    else
      || Assembled(history, turns, n - 1, tail)
      || (turns[n - 1] <= history && Assembled(history[|turns[n - 1]|..], turns, n - 1, tail))
  }

  predicate Subsequence<T(==)>(a: seq<T>, b: seq<T>)
    decreases |b|
  {
    if a == [] then true
    else if b == [] then false
    else (a[0] == b[0] && Subsequence(a[1..], b[1..])) || Subsequence(a, b[1..])
  }

  lemma {:induction false} SubsequencePrepend<T>(p: seq<T>, a: seq<T>, b: seq<T>)
    requires Subsequence(a, b)
    ensures Subsequence(a, p + b) && Subsequence(p + a, p + b)
    decreases |p|
  {
    if p == [] {
      assert p + a == a && p + b == b;
    } else {
      SubsequencePrepend(p[1..], a, b);
      assert (p + b)[1..] == p[1..] + b && (p + a)[1..] == p[1..] + a;
    }
  }

  lemma {:induction false} SubsequenceSelf<T>(a: seq<T>)
    ensures Subsequence(a, a)
    decreases |a|
  {
    if a != [] { SubsequenceSelf(a[1..]); }
  }

  lemma {:induction false} AssembledEnds(history: seq<Message>, turns: seq<seq<Message>>, n: nat, tail: seq<Message>)
    requires n <= |turns| && Assembled(history, turns, n, tail)
    ensures |tail| <= |history| && history[|history| - |tail|..] == tail
    decreases n
  {
    if n > 0 {
      if Assembled(history, turns, n - 1, tail) {
        AssembledEnds(history, turns, n - 1, tail);
      } else {
        AssembledEnds(history[|turns[n - 1]|..], turns, n - 1, tail);
      }
    }
  }

  lemma {:induction false} TurnsBelowAt(messages: seq<Message>, users: seq<nat>, u: nat, i: nat)
    requires u < |users| && (forall j | 0 <= j < |users| :: users[j] <= |messages|)
    requires forall j, l | 0 <= j < l < |users| :: users[j] < users[l]
    ensures |TurnsBelow(messages, users, u)| == u
    ensures i < u ==> TurnsBelow(messages, users, u)[i] == Turn(messages, users, u - 1 - i)
    decreases u
  {
    if u > 0 { TurnsBelowAt(messages, users, u - 1, if i > 0 then i - 1 else 0); }
  }

  lemma {:induction false} AssembledSubsequence(messages: seq<Message>, users: seq<nat>, u: nat, n: nat, history: seq<Message>, tail: seq<Message>)
    requires n <= u < |users| && (forall i | 0 <= i < |users| :: users[i] <= |messages|)
    requires forall i, j | 0 <= i < j < |users| :: users[i] < users[j]
    requires |TurnsBelow(messages, users, u)| == u && tail == messages[users[u]..]
    requires Assembled(history, TurnsBelow(messages, users, u), n, tail)
    ensures Subsequence(history, messages[users[u - n]..])
    decreases n
  {
    if n == 0 {
      SubsequenceSelf(tail);
    } else {
      var turns, i := TurnsBelow(messages, users, u), u - n;
      TurnsBelowAt(messages, users, u, n - 1);
      hide TurnsBelow;
      hide Subsequence;
      assert messages[users[i]..] == turns[n - 1] + messages[users[i + 1]..];
      if Assembled(history, turns, n - 1, tail) {
        AssembledSubsequence(messages, users, u, n - 1, history, tail);
        SubsequencePrepend(turns[n - 1], history, messages[users[i + 1]..]);
      } else {
        var rest := history[|turns[n - 1]|..];
        AssembledSubsequence(messages, users, u, n - 1, rest, tail);
        SubsequencePrepend(turns[n - 1], rest, messages[users[i + 1]..]);
        assert history == turns[n - 1] + rest;
      }
    }
  }

  /** Whatever older turns are kept, the history is made of messages of the conversation in their order and ends with the required part. */
  lemma WholeTurnsInOrder(messages: seq<Message>, history: seq<Message>)
    requires var s := SelectTranscript(messages); Assembled(history, s.optionalTurns, |s.optionalTurns|, s.required)
    ensures Subsequence(history, messages)
    ensures var required := SelectTranscript(messages).required;
      |required| <= |history| && history[|history| - |required|..] == required
  {
    var users := UserIndexes(messages, |messages|);
    var s := SelectTranscript(messages);
    AssembledEnds(history, s.optionalTurns, |s.optionalTurns|, s.required);
    if users != [] {
      var u := if |users| == 1 then 0 else |users| - 2;
      TurnsBelowAt(messages, users, u, 0);
      AssembledSubsequence(messages, users, u, u, history, s.required);
      hide *;
      assert messages == messages[..users[0]] + messages[users[0]..];
      SubsequencePrepend(messages[..users[0]], history, messages[users[0]..]);
    }
  }

  /** The required part: everything from the second-to-last user message on, or from the only one. */
  lemma RequiredPart(messages: seq<Message>)
    ensures var users := UserIndexes(messages, |messages|); var required := SelectTranscript(messages).required;
      && (users == [] ==> required == [])
      && (users != [] ==> required != [] && required == messages[|messages| - |required|..] && required[0].isUser)
      && (users != [] ==> |UserIndexes(required, |required|)| == if |users| == 1 then 1 else 2)
  {
    var users := UserIndexes(messages, |messages|);
    if users != [] {
      var u := if |users| == 1 then 0 else |users| - 2;
      UsersOfSuffix(messages, users[u], |messages|);
      UsersFrom(messages, users[u], |messages|, u);
    }
  }

  // The user messages at or after a position.
  function CountFrom(messages: seq<Message>, from: nat, n: nat): nat
    requires from <= n <= |messages|
  {
    if n == from then 0 else CountFrom(messages, from, n - 1) + (if messages[n - 1].isUser then 1 else 0)
  }

  lemma {:induction false} UsersOfSuffix(messages: seq<Message>, from: nat, n: nat)
    requires from <= n <= |messages|
    ensures |UserIndexes(messages[from..], n - from)| == CountFrom(messages, from, n)
    decreases n
  {
    if n > from { UsersOfSuffix(messages, from, n - 1); }
  }

  lemma {:induction false} UsersFrom(messages: seq<Message>, from: nat, n: nat, u: nat)
    requires from < n <= |messages|
    requires var users := UserIndexes(messages, n); u < |users| && users[u] == from
    ensures CountFrom(messages, from, n) == |UserIndexes(messages, n)| - u
    decreases n
  {
    var users, before := UserIndexes(messages, n), UserIndexes(messages, n - 1);
    if n == from + 1 {
      assert u == |users| - 1;
      assert CountFrom(messages, from, from) == 0;
    } else {
      assert before[u] == from;
      UsersFrom(messages, from, n - 1, u);
    }
  }

  // ----- rendered characters -----

  function Jsons(messages: seq<Message>): List<Value> {
    if messages == [] then Nil else Cons(messages[0].json, Jsons(messages[1..]))
  }

  lemma {:induction false} JsonsLegal(messages: seq<Message>)
    requires LegalMessages(messages)
    ensures LegalItems(Jsons(messages))
    decreases |messages|
  {
    if messages != [] { JsonsLegal(messages[1..]); }
  }

  /** The length of the canonical JSON of a history. */
  function HistoryChars(messages: seq<Message>): nat
    requires LegalMessages(messages)
  {
    JsonsLegal(messages);
    |CanonicalJson(Arr(Jsons(messages)))|
  }

  function ItemsChars(items: List<Value>): nat
    requires LegalItems(items)
  {
    match items
    case Nil => 0
    case Cons(v, rest) => |CanonicalJson(v)| + (if rest.Nil? then 0 else 1 + ItemsChars(rest))
  }

  lemma {:induction false} ItemsCharsPrinted(items: List<Value>)
    requires LegalItems(items)
    ensures LegalItems(ListedItems(CanonItems(items))) && |PrintItems(ListedItems(CanonItems(items)))| == ItemsChars(items)
    decreases items
  {
    if items.Cons? {
      CanonicalizedKeeps(items.head);
      ItemsCharsPrinted(items.tail);
    }
  }

  lemma HistoryCharsIs(messages: seq<Message>)
    requires LegalMessages(messages)
    ensures LegalItems(Jsons(messages)) && HistoryChars(messages) == 2 + ItemsChars(Jsons(messages))
  {
    JsonsLegal(messages);
    ItemsCharsPrinted(Jsons(messages));
  }

  lemma {:induction false} ItemsCharsGrow(a: seq<Message>, b: seq<Message>, c: seq<Message>)
    requires LegalMessages(a + b + c)
    ensures LegalItems(Jsons(a + c)) && LegalItems(Jsons(a + b + c)) && ItemsChars(Jsons(a + c)) <= ItemsChars(Jsons(a + b + c))
    decreases |a| + |b|
  {
    var all, some := a + b + c, a + c;
    forall i | 0 <= i < |some| ensures Legal(some[i].json) { assert some[i] == if i < |a| then all[i] else all[i + |b|]; }
    JsonsLegal(some);
    JsonsLegal(all);
    if a == [] {
      if b == [] {
        assert all == some;
      } else {
        assert all[1..] == [] + b[1..] + c;
        ItemsCharsGrow([], b[1..], c);
        assert [] + c == some;
      }
    } else {
      assert all[1..] == a[1..] + b + c && some[1..] == a[1..] + c && all[0] == some[0] == a[0];
      ItemsCharsGrow(a[1..], b, c);
      if some[1..] != [] { assert Jsons(all[1..]).Cons?; }
    }
  }

  /** Leaving messages out never makes a history longer. */
  lemma HistoryGrows(a: seq<Message>, b: seq<Message>, c: seq<Message>)
    requires LegalMessages(a + b + c)
    ensures LegalMessages(a + c) && HistoryChars(a + c) <= HistoryChars(a + b + c)
  {
    var all, some := a + b + c, a + c;
    forall i | 0 <= i < |some| ensures Legal(some[i].json) { assert some[i] == if i < |a| then all[i] else all[i + |b|]; }
    ItemsCharsGrow(a, b, c);
    HistoryCharsIs(a + c);
    HistoryCharsIs(a + b + c);
  }

  /** The position of the last user message; None when there is none. */
  function CurrentUser(messages: seq<Message>): (r: Option<nat>)
    ensures r.Some? ==> r.value < |messages| && messages[r.value].isUser && forall i | r.value < i < |messages| :: !messages[i].isUser
    ensures r.None? ==> forall i | 0 <= i < |messages| :: !messages[i].isUser
  {
    if messages == [] then None
    else if messages[|messages| - 1].isUser then Some(|messages| - 1)
    else CurrentUser(messages[..|messages| - 1])
  }

  /** The history without the current user input, which the bound does not charge. */
  function Charged(messages: seq<Message>): seq<Message> {
    var u := CurrentUser(messages);
    if u.None? then messages else messages[..u.value] + messages[u.value + 1..]
  }

  lemma ChargedLegal(messages: seq<Message>)
    requires LegalMessages(messages)
    ensures LegalMessages(Charged(messages))
  {
  }

  function GraphHistoryChars(messages: seq<Message>): nat
    requires LegalMessages(messages)
  {
    ChargedLegal(messages);
    HistoryChars(Charged(messages))
  }

  /** The loop from the end that looks for the current user message. */
  method GraphHistoryCharsLoop(messages: seq<Message>) returns (chars: nat)
    requires LegalMessages(messages)
    ensures chars == GraphHistoryChars(messages)
  {
    var currentUser := -1;
    var i := |messages| - 1;
    while i >= 0
      invariant -1 <= i < |messages|
      invariant forall j | i < j < |messages| :: !messages[j].isUser
    {
      if messages[i].isUser {
        currentUser := i;
        break;
      }
      i := i - 1;
    }
    ChargedLegal(messages);
    if currentUser < 0 { return HistoryChars(messages); }
    chars := HistoryChars(messages[..currentUser] + messages[currentUser + 1..]);
  }

  lemma {:induction false} CurrentUserIs(messages: seq<Message>, u: nat)
    requires u < |messages| && messages[u].isUser && forall i | u < i < |messages| :: !messages[i].isUser
    ensures CurrentUser(messages) == Some(u)
    decreases |messages|
  {
    if u < |messages| - 1 { CurrentUserIs(messages[..|messages| - 1], u); }
  }

  // Messages put before a history that holds a user message stay in what is charged.
  lemma ChargedPrepend(front: seq<Message>, messages: seq<Message>)
    requires CurrentUser(messages).Some?
    ensures Charged(front + messages) == front + Charged(messages)
    ensures CurrentUser(front + messages).Some?
  {
    var u := CurrentUser(messages).value;
    var all := front + messages;
    forall i | |front| + u < i < |all| ensures !all[i].isUser { assert all[i] == messages[i - |front|]; }
    CurrentUserIs(all, |front| + u);
    hide CurrentUser;
    WithoutOne(front, messages, u);
  }

  lemma WithoutOne<T>(front: seq<T>, s: seq<T>, u: nat)
    requires u < |s|
    ensures (front + s)[..|front| + u] + (front + s)[|front| + u + 1..] == front + (s[..u] + s[u + 1..])
  {
  }

  /** A longer history is charged at least as much, wherever the extra messages stand before it. */
  lemma ChargeGrows(a: seq<Message>, b: seq<Message>, messages: seq<Message>)
    requires CurrentUser(messages).Some? && LegalMessages(a + b + messages)
    ensures LegalMessages(a + messages) && GraphHistoryChars(a + messages) <= GraphHistoryChars(a + b + messages)
  {
    var all, some := a + b + messages, a + messages;
    forall i | 0 <= i < |some| ensures Legal(some[i].json) { assert some[i] == if i < |a| then all[i] else all[i + |b|]; }
    ChargedPrepend(a, messages);
    ChargedPrepend(a + b, messages);
    ChargedLegal(a + b + messages);
    HistoryGrows(a, b, Charged(messages));
  }
}
