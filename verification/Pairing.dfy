/** What the pair checker accepts: requests in which every assistant message is followed at once by
    results for exactly its calls. */
module Pairing {
  import opened Basics
  import opened Assembly
  import opened Pairs

  /** The calls answered by the tool results a request begins with. */
  function Answered(ms: seq<Message>): seq<string> {
    if ms != [] && ms[0].ToolResult? then [ms[0].callId] + Answered(ms[1..]) else []
  }

  /** No result comes first, or after a user's message. */
  ghost predicate Attached(ms: seq<Message>) {
    forall p :: 0 <= p < |ms| && ms[p].ToolResult? ==> p > 0 && !ms[p - 1].UserMessage?
  }

  /** The results right after an assistant message answer its calls, each as often as it is listed. */
  ghost predicate AllAnswered(ms: seq<Message>) {
    forall p :: 0 <= p < |ms| && ms[p].AssistantMessage? ==> multiset(Answered(ms[p + 1..])) == multiset(CallIds(ms[p].calls))
  }

  /** No call of one assistant message appears in a later one. */
  ghost predicate NotRepeated(ms: seq<Message>) {
    forall p, q :: 0 <= p < q < |ms| && ms[p].AssistantMessage? && ms[q].AssistantMessage? ==> IdsOf(ms[p].calls) !! IdsOf(ms[q].calls)
  }

  ghost predicate WellPaired(ms: seq<Message>) {
    Attached(ms) && AllAnswered(ms) && NotRepeated(ms)
  }

  function Results(ms: seq<Message>): nat {
    if ms == [] then 0 else (if ms[0].ToolResult? then 1 else 0) + Results(ms[1..])
  }

  /* ---- in the middle of a request ---- */

  /** After the results a rest begins with, none comes after a user's message. */
  ghost predicate AttachedRest(ms: seq<Message>) {
    forall p :: |Answered(ms)| <= p < |ms| && ms[p].ToolResult? ==> p > 0 && !ms[p - 1].UserMessage?
  }

  ghost predicate Unseen(ms: seq<Message>, seen: set<string>) {
    forall p :: 0 <= p < |ms| && ms[p].AssistantMessage? ==> IdsOf(ms[p].calls) !! seen
  }

  ghost predicate PairedRest(ms: seq<Message>, pending: seq<string>, seen: set<string>) {
    && multiset(Answered(ms)) == multiset(pending)
    && AttachedRest(ms) && AllAnswered(ms) && NotRepeated(ms) && Unseen(ms, seen)
  }

  lemma {:induction false} RemovedIs(q: seq<string>, c: string)
    requires c in q
    ensures multiset(q) == multiset(RemoveFirst(q, c)) + multiset{c}
  {
    assert q == [q[0]] + q[1..];
    if q[0] != c { RemovedIs(q[1..], c); }
  }

  lemma AnsweredHead(ms: seq<Message>)
    requires ms != []
    ensures ms[0].ToolResult? ==> multiset(Answered(ms)) == multiset{ms[0].callId} + multiset(Answered(ms[1..]))
    ensures !ms[0].ToolResult? ==> Answered(ms) == []
  {
  }

  /** What is asked of a rest is asked of its tail, and of its head. */
  lemma AllAnsweredHead(ms: seq<Message>)
    requires ms != []
    ensures AllAnswered(ms) <==>
            AllAnswered(ms[1..]) && (ms[0].AssistantMessage? ==> multiset(Answered(ms[1..])) == multiset(CallIds(ms[0].calls)))
  {
    var tail := ms[1..];
    forall p | 0 <= p < |tail| ensures tail[p] == ms[p + 1] && tail[p + 1..] == ms[p + 2..] { }
    if AllAnswered(ms) {
      forall p | 0 <= p < |tail| && tail[p].AssistantMessage? ensures multiset(Answered(tail[p + 1..])) == multiset(CallIds(tail[p].calls)) {
        assert ms[p + 1].AssistantMessage?;
      }
    } else {
      var p :| 0 <= p < |ms| && ms[p].AssistantMessage? && multiset(Answered(ms[p + 1..])) != multiset(CallIds(ms[p].calls));
      if p > 0 { assert tail[p - 1] == ms[p] && tail[p - 1 + 1..] == ms[p + 1..]; }
    }
  }

  lemma NotRepeatedHead(ms: seq<Message>, seen: set<string>)
    requires ms != []
    ensures NotRepeated(ms) && Unseen(ms, seen) <==>
            NotRepeated(ms[1..])
            && if ms[0].AssistantMessage? then IdsOf(ms[0].calls) !! seen && Unseen(ms[1..], seen + IdsOf(ms[0].calls)) else Unseen(ms[1..], seen)
  {
    var tail := ms[1..];
    assert forall p :: 0 <= p < |tail| ==> tail[p] == ms[p + 1];
    assert forall p :: 0 < p < |ms| ==> ms[p] == tail[p - 1];
  }

  lemma {:induction false} AnsweredRun(ms: seq<Message>)
    ensures |Answered(ms)| <= |ms| && forall p :: 0 <= p < |Answered(ms)| ==> ms[p].ToolResult?
    ensures |Answered(ms)| < |ms| ==> !ms[|Answered(ms)|].ToolResult?
  {
    if ms != [] && ms[0].ToolResult? {
      AnsweredRun(ms[1..]);
      assert forall p :: 0 < p < |ms| ==> ms[p] == ms[1..][p - 1];
    }
  }

  lemma AttachedHead(ms: seq<Message>)
    requires ms != []
    ensures AttachedRest(ms) <==> AttachedRest(ms[1..]) && (ms[0].UserMessage? ==> Answered(ms[1..]) == [])
  {
    var tail := ms[1..];
    AnsweredRun(ms);
    AnsweredRun(tail);
    assert forall p :: 0 <= p < |tail| ==> tail[p] == ms[p + 1];
    assert forall p :: 0 < p < |ms| ==> ms[p] == tail[p - 1];
    assert Answered(tail) != [] ==> tail != [] && tail[0].ToolResult?;
  }

  lemma ResultStep(ms: seq<Message>, pending: seq<string>, seen: set<string>)
    requires ms != [] && ms[0].ToolResult?
    ensures PairedRest(ms, pending, seen) <==> ms[0].callId in pending && PairedRest(ms[1..], RemoveFirst(pending, ms[0].callId), seen)
  {
    var c := ms[0].callId;
    AnsweredHead(ms);
    AllAnsweredHead(ms);
    NotRepeatedHead(ms, seen);
    AttachedHead(ms);
    SameBags(multiset(Answered(ms)), multiset(Answered(ms[1..])), c, pending);
  }

  lemma SameBags(all: multiset<string>, rest: multiset<string>, c: string, pending: seq<string>)
    requires all == multiset{c} + rest
    ensures all == multiset(pending) <==> c in pending && rest == multiset(RemoveFirst(pending, c))
  {
    if c in pending {
      RemovedIs(pending, c);
      SameRest(rest, multiset(RemoveFirst(pending, c)), c);
    } else { assert c in all && c !in multiset(pending); }
  }

  lemma SameRest(a: multiset<string>, b: multiset<string>, c: string)
    ensures multiset{c} + a == b + multiset{c} ==> a == b
  {
    if multiset{c} + a == b + multiset{c} {
      forall x ensures a[x] == b[x] { assert (multiset{c} + a)[x] == (b + multiset{c})[x]; }
    }
  }

  lemma OtherStep(ms: seq<Message>, pending: seq<string>, seen: set<string>)
    requires ms != [] && !ms[0].ToolResult?
    ensures PairedRest(ms, pending, seen) <==>
            pending == []
            && if ms[0].UserMessage? then PairedRest(ms[1..], [], seen)
               else IdsOf(ms[0].calls) !! seen && PairedRest(ms[1..], CallIds(ms[0].calls), seen + IdsOf(ms[0].calls))
  {
    AnsweredHead(ms);
    AllAnsweredHead(ms);
    NotRepeatedHead(ms, seen);
    AttachedHead(ms);
    NoneLeft(pending);
    NoneLeft(Answered(ms[1..]));
  }

  lemma NoneLeft(q: seq<string>)
    ensures multiset(q) == multiset{} <==> q == []
    ensures var none: seq<string> := []; multiset(none) == multiset{}
  {
    if q != [] { assert q[0] in multiset(q); }
  }

  lemma {:induction false} CheckIsExact(ms: seq<Message>, pending: seq<string>, seen: set<string>)
    ensures Check(ms, pending, seen) == if PairedRest(ms, pending, seen) then Some(Results(ms)) else None
    decreases |ms|
  {
    if ms == [] {
      NoneLeft(pending);
    } else if ms[0].ToolResult? {
      ResultStep(ms, pending, seen);
      CheckIsExact(ms[1..], RemoveFirst(pending, ms[0].callId), seen);
    } else {
      OtherStep(ms, pending, seen);
      if ms[0].UserMessage? { CheckIsExact(ms[1..], [], seen); }
      else { CheckIsExact(ms[1..], CallIds(ms[0].calls), seen + IdsOf(ms[0].calls)); }
    }
  }

  /** A request passes the checker, with one pair for each of its results, if and only if no result
      comes first or after a user's message, the results right after each assistant message are for
      exactly its calls, and no call appears in two assistant messages. */
  lemma CheckerIsExact(ms: seq<Message>)
    ensures Check(ms, [], {}) == if WellPaired(ms) then Some(Results(ms)) else None
  {
    CheckIsExact(ms, [], {});
    WholeRequest(ms);
  }

  lemma WholeRequest(ms: seq<Message>)
    ensures PairedRest(ms, [], {}) <==> WellPaired(ms)
  {
    AnsweredRun(ms);
    NoneLeft(Answered(ms));
    assert Answered(ms) != [] ==> ms != [] && ms[0].ToolResult?;
  }
}
