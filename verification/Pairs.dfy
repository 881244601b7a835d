/** Every request assembled from a session passes the pair checker: each tool call the request
    keeps is answered exactly once, after its assistant message and before the next message
    that is not a tool result. */
module Pairs {
  import opened Basics
  import opened Assembly

  /* ---- the checker ---- */

  function RemoveFirst(q: seq<string>, c: string): seq<string> {
    if q == [] then [] else if q[0] == c then q[1..] else [q[0]] + RemoveFirst(q[1..], c)
  }

  function CallIds(calls: seq<Call>): (r: seq<string>)
    ensures |r| == |calls|
    ensures forall i :: 0 <= i < |calls| ==> r[i] == calls[i].id
  {
    seq(|calls|, i requires 0 <= i < |calls| => calls[i].id)
  }

  function IdsOf(calls: seq<Call>): set<string> {
    set c | c in calls :: c.id
  }

  /** The number of pairs, or `None` where the checker raises. */
  function Check(ms: seq<Message>, pending: seq<string>, seen: set<string>): Option<nat> {
    if ms == [] then (if pending == [] then Some(0) else None)
    else match ms[0]
      case ToolResult(c, _, _) =>
        if c !in pending then None
        else (match Check(ms[1..], RemoveFirst(pending, c), seen)
              case None => None
              case Some(n) => Some(n + 1))
      case UserMessage(_) => if pending != [] then None else Check(ms[1..], [], seen)
      case AssistantMessage(_, _, calls) =>
        if pending != [] || !(IdsOf(calls) !! seen) then None
        else Check(ms[1..], CallIds(calls), seen + IdsOf(calls))
  }

  function Plus(a: Option<nat>, n: nat): Option<nat> {
    match a case None => None case Some(k) => Some(k + n)
  }

  /** `_check_request`. */
  method CheckRequest(messages: seq<Message>) returns (matched: Option<nat>)
    ensures matched == Check(messages, [], {})
  {
    var pending: seq<string> := [];
    var seen: set<string> := {};
    var count := 0;
    for position := 0 to |messages|
      invariant Check(messages, [], {}) == Plus(Check(messages[position..], pending, seen), count)
    {
      var message := messages[position];
      assert messages[position..][0] == message && messages[position..][1..] == messages[position + 1..];
      match message
      case ToolResult(c, _, _) =>
        if c !in pending { return None; }
        pending := RemoveFirst(pending, c);
        count := count + 1;
      case UserMessage(_) =>
        if pending != [] { return None; }
      case AssistantMessage(_, _, calls) =>
        if pending != [] || exists c :: c in calls && c.id in seen { return None; }
        seen := seen + IdsOf(calls);
        pending := CallIds(calls);
    }
    assert messages[|messages|..] == [];
    return if pending == [] then Some(count) else None;
  }

  /* ---- drafts in which every assistant message is followed by its replies ---- */

  predicate Answered(ds: seq<Draft>, calls: seq<Call>) {
    |calls| < |ds| && forall i :: 0 <= i < |calls| ==> IsReply(ds[1 + i], calls[i].id)
  }

  ghost predicate Shaped(ds: seq<Draft>)
    decreases |ds|
  {
    || ds == []
    || (ds[0].User? && Shaped(ds[1..]))
    || (ds[0].Assistant? && Answered(ds, ds[0].calls) && Shaped(ds[1 + |ds[0].calls|..]))
  }

  function ReplyIds(ds: seq<Draft>): seq<string> {
    if ds == [] then [] else if ds[0].Reply? then [ds[0].callId] + ReplyIds(ds[1..]) else ReplyIds(ds[1..])
  }

  function CountIn(ids: seq<string>, completed: set<string>): nat {
    if ids == [] then 0 else (if ids[0] in completed then 1 else 0) + CountIn(ids[1..], completed)
  }

  lemma {:induction false} ReplyIdsConcat(a: seq<Draft>, b: seq<Draft>)
    ensures ReplyIds(a + b) == ReplyIds(a) + ReplyIds(b)
  {
    if a == [] { assert a + b == b; }
    else {
      assert (a + b)[1..] == a[1..] + b;
      ReplyIdsConcat(a[1..], b);
    }
  }

  lemma {:induction false} FinishConcat(a: seq<Draft>, b: seq<Draft>, completed: set<string>)
    ensures Finish(a + b, completed) == Finish(a, completed) + Finish(b, completed)
  {
    if a == [] { assert a + b == b; }
    else {
      assert (a + b)[1..] == a[1..] + b;
      FinishConcat(a[1..], b, completed);
    }
  }

  lemma {:induction false} ShapedConcat(a: seq<Draft>, b: seq<Draft>)
    requires Shaped(a) && Shaped(b)
    ensures Shaped(a + b)
    decreases |a|
  {
    if a == [] { assert a + b == b; }
    else if a[0].User? {
      assert (a + b)[1..] == a[1..] + b;
      ShapedConcat(a[1..], b);
    } else {
      var n := 1 + |a[0].calls|;
      assert (a + b)[n..] == a[n..] + b;
      ShapedConcat(a[n..], b);
      assert forall i :: 0 <= i < |a| ==> (a + b)[i] == a[i];
    }
  }

  /** Drafts that differ only in the answers of replies. */
  ghost predicate SameOutline(a: seq<Draft>, b: seq<Draft>) {
    && |a| == |b|
    && forall i :: 0 <= i < |a| ==>
         if a[i].Reply? then b[i].Reply? && b[i].callId == a[i].callId else b[i] == a[i]
  }

  lemma {:induction false} OutlineKeeps(a: seq<Draft>, b: seq<Draft>)
    requires SameOutline(a, b)
    ensures ReplyIds(a) == ReplyIds(b)
    ensures Shaped(a) ==> Shaped(b)
    decreases |a|
  {
    if a != [] {
      OutlineKeeps(a[1..], b[1..]);
      if Shaped(a) && a[0].Assistant? {
        var n := 1 + |a[0].calls|;
        OutlineKeeps(a[n..], b[n..]);
      }
    }
  }

  /* ---- the checker accepts shaped drafts ---- */

  function IfIn(c: string, completed: set<string>): seq<string> {
    if c in completed then [c] else []
  }

  /** One reply, kept exactly if its call is, answers the head of the pending list. */
  lemma CheckHead(d: Draft, tail: seq<Message>, later: seq<string>, completed: set<string>, seen: set<string>)
    requires d.Reply?
    ensures Check(Kept(d, completed) + tail, IfIn(d.callId, completed) + later, seen)
            == Plus(Check(tail, later, seen), |IfIn(d.callId, completed)|)
  {
    var ms, p := Kept(d, completed) + tail, IfIn(d.callId, completed) + later;
    if d.callId in completed {
      assert ms[0] == ToolResult(d.callId, d.content, d.isError) && ms[1..] == tail;
      assert p[0] == d.callId && p[1..] == later;
    } else {
      assert ms == tail && p == later;
    }
  }

  lemma KeptIds(calls: seq<Call>, completed: set<string>)
    requires calls != []
    ensures CallIds(KeptCalls(calls, completed)) == IfIn(calls[0].id, completed) + CallIds(KeptCalls(calls[1..], completed))
  {
  }

  lemma CountHead(ds: seq<Draft>, completed: set<string>)
    requires ds != [] && ds[0].Reply?
    ensures CountIn(ReplyIds(ds), completed) == |IfIn(ds[0].callId, completed)| + CountIn(ReplyIds(ds[1..]), completed)
  {
    assert ReplyIds(ds)[1..] == ReplyIds(ds[1..]);
  }

  lemma FinishHead(ds: seq<Draft>, completed: set<string>, rest: seq<Message>)
    requires ds != []
    ensures Finish(ds, completed) + rest == Kept(ds[0], completed) + (Finish(ds[1..], completed) + rest)
  {
  }

  ghost predicate Answers(ds: seq<Draft>, calls: seq<Call>) {
    |ds| == |calls| && forall i :: 0 <= i < |calls| ==> IsReply(ds[i], calls[i].id)
  }

  /** Checking the kept replies of some calls leaves the rest to check with nothing pending. */
  ghost predicate Empties(calls: seq<Call>, ds: seq<Draft>, rest: seq<Message>, completed: set<string>, seen: set<string>) {
    Check(Finish(ds, completed) + rest, CallIds(KeptCalls(calls, completed)), seen)
    == Plus(Check(rest, [], seen), CountIn(ReplyIds(ds), completed))
  }

  lemma NoReplies(rest: seq<Message>, completed: set<string>, seen: set<string>)
    ensures Empties([], [], rest, completed, seen)
  {
    assert Finish([], completed) + rest == rest;
    assert CallIds(KeptCalls([], completed)) == [];
  }

  lemma HeadThenRest(ms: seq<Message>, pending: seq<string>, d: Draft, tail: seq<Message>, later: seq<string>, completed: set<string>,
                     seen: set<string>, after: Option<nat>, n: nat, total: nat)
    requires d.Reply? && ms == Kept(d, completed) + tail && pending == IfIn(d.callId, completed) + later
    requires Check(tail, later, seen) == Plus(after, n) && total == |IfIn(d.callId, completed)| + n
    ensures Check(ms, pending, seen) == Plus(after, total)
  {
    CheckHead(d, tail, later, completed, seen);
  }

  lemma ReplyStep(calls: seq<Call>, ds: seq<Draft>, rest: seq<Message>, completed: set<string>, seen: set<string>)
    requires calls != [] && ds != [] && IsReply(ds[0], calls[0].id)
    requires Empties(calls[1..], ds[1..], rest, completed, seen)
    ensures Empties(calls, ds, rest, completed, seen)
  {
    KeptIds(calls, completed);
    CountHead(ds, completed);
    FinishHead(ds, completed, rest);
    HeadThenRest(Finish(ds, completed) + rest, CallIds(KeptCalls(calls, completed)),
                 ds[0], Finish(ds[1..], completed) + rest, CallIds(KeptCalls(calls[1..], completed)), completed, seen,
                 Check(rest, [], seen), CountIn(ReplyIds(ds[1..]), completed), CountIn(ReplyIds(ds), completed));
  }

  /** The kept replies of one assistant message, in order, empty the pending list. */
  lemma {:induction false} CheckReplies(calls: seq<Call>, ds: seq<Draft>, rest: seq<Message>, completed: set<string>, seen: set<string>)
    requires Answers(ds, calls)
    ensures Empties(calls, ds, rest, completed, seen)
    decreases |calls|
  {
    if calls == [] {
      NoReplies(rest, completed, seen);
    } else {
      CheckReplies(calls[1..], ds[1..], rest, completed, seen);
      assert IsReply(ds[0], calls[0].id);
      ReplyStep(calls, ds, rest, completed, seen);
    }
  }

  lemma {:induction false} GroupIds(calls: seq<Call>, ds: seq<Draft>)
    requires Answers(ds, calls)
    ensures ReplyIds(ds) == CallIds(calls)
    decreases |calls|
  {
    if calls != [] {
      GroupIds(calls[1..], ds[1..]);
      assert CallIds(calls) == [calls[0].id] + CallIds(calls[1..]);
    }
  }

  lemma {:induction false} CountConcat(a: seq<string>, b: seq<string>, completed: set<string>)
    ensures CountIn(a + b, completed) == CountIn(a, completed) + CountIn(b, completed)
  {
    if a == [] { assert a + b == b; }
    else {
      assert (a + b)[1..] == a[1..] + b;
      CountConcat(a[1..], b, completed);
    }
  }

  ghost predicate Unseen(ids: seq<string>, seen: set<string>) {
    forall c :: c in ids ==> c !in seen
  }

  /** Whatever set of calls counts as completed, the request is accepted and has one pair for
      each completed call. */
  lemma {:induction false} ShapedIsAccepted(ds: seq<Draft>, completed: set<string>, seen: set<string>)
    requires Shaped(ds) && Distinct(ReplyIds(ds)) && Unseen(ReplyIds(ds), seen)
    ensures Check(Finish(ds, completed), [], seen) == Some(CountIn(ReplyIds(ds), completed))
    decreases |ds|
  {
    if ds == [] {
    } else if ds[0].User? {
      ShapedIsAccepted(ds[1..], completed, seen);
      assert Finish(ds, completed)[1..] == Finish(ds[1..], completed);
    } else {
      GroupIsAccepted(ds, completed, seen);
    }
  }

  /** What the checker makes of an assistant message and its replies. */
  lemma CheckGroup(ms: seq<Message>, d: Draft, mid: seq<Draft>, tail: seq<Message>, completed: set<string>, seen: set<string>, more: set<string>)
    requires d.Assistant? && Answers(mid, d.calls) && more == IdsOf(KeptCalls(d.calls, completed)) && more !! seen
    requires ms == Kept(d, completed) + (Finish(mid, completed) + tail)
    ensures Check(ms, [], seen) == Plus(Check(tail, [], seen + more), CountIn(ReplyIds(mid), completed))
  {
    var kept := KeptCalls(d.calls, completed);
    var seen' := seen + more;
    var inner := Finish(mid, completed) + tail;
    CheckReplies(d.calls, mid, tail, completed, seen');
    if Kept(d, completed) == [] {
      assert seen' == seen;
      assert CallIds(kept) == [];
      assert ms == inner;
    } else {
      CheckAssistant(ms, d.text, d.reasoning, kept, inner, seen, more);
    }
  }

  lemma CheckAssistant(ms: seq<Message>, text: string, reasoning: seq<Reasoning>, kept: seq<Call>, inner: seq<Message>, seen: set<string>, more: set<string>)
    requires ms == [AssistantMessage(text, reasoning, kept)] + inner && more == IdsOf(kept) && more !! seen
    ensures Check(ms, [], seen) == Check(inner, CallIds(kept), seen + more)
  {
    assert ms[0] == AssistantMessage(text, reasoning, kept) && ms[1..] == inner;
  }

  lemma {:induction false} GroupIsAccepted(ds: seq<Draft>, completed: set<string>, seen: set<string>)
    requires ds != [] && ds[0].Assistant? && Shaped(ds) && Distinct(ReplyIds(ds)) && Unseen(ReplyIds(ds), seen)
    ensures Check(Finish(ds, completed), [], seen) == Some(CountIn(ReplyIds(ds), completed))
    decreases |ds|, 0
  {
    var n := 1 + |ds[0].calls|;
    var more := IdsOf(KeptCalls(ds[0].calls, completed));
    RestUnseen(ds, ds[1..n], ds[n..], completed, seen, more);
    ShapedIsAccepted(ds[n..], completed, seen + more);
    GroupStep(ds, ds[1..n], ds[n..], completed, seen, more);
  }

  lemma RestUnseen(ds: seq<Draft>, mid: seq<Draft>, rest: seq<Draft>, completed: set<string>, seen: set<string>, more: set<string>)
    requires ds != [] && ds[0].Assistant? && ds[1..] == mid + rest && Answers(mid, ds[0].calls)
    requires Distinct(ReplyIds(ds)) && Unseen(ReplyIds(ds), seen) && more == IdsOf(KeptCalls(ds[0].calls, completed))
    ensures Distinct(ReplyIds(rest)) && Unseen(ReplyIds(rest), seen + more) && more !! seen
  {
    GroupParts(ds, mid, rest, completed);
    SplitIds(ds[0].calls, ReplyIds(rest), more, KeptCalls(ds[0].calls, completed), seen);
  }

  lemma GroupStep(ds: seq<Draft>, mid: seq<Draft>, rest: seq<Draft>, completed: set<string>, seen: set<string>, more: set<string>)
    requires ds != [] && ds[0].Assistant? && ds[1..] == mid + rest && Answers(mid, ds[0].calls)
    requires more == IdsOf(KeptCalls(ds[0].calls, completed)) && more !! seen
    requires Check(Finish(rest, completed), [], seen + more) == Some(CountIn(ReplyIds(rest), completed))
    ensures Check(Finish(ds, completed), [], seen) == Some(CountIn(ReplyIds(ds), completed))
  {
    GroupParts(ds, mid, rest, completed);
    GroupThenRest(Finish(ds, completed), ds[0], mid, Finish(rest, completed), completed, seen, more,
                  CountIn(ReplyIds(rest), completed), CountIn(ReplyIds(ds), completed));
  }

  lemma GroupThenRest(ms: seq<Message>, d: Draft, mid: seq<Draft>, tail: seq<Message>, completed: set<string>, seen: set<string>,
                      more: set<string>, n: nat, total: nat)
    requires d.Assistant? && Answers(mid, d.calls) && more == IdsOf(KeptCalls(d.calls, completed)) && more !! seen
    requires ms == Kept(d, completed) + (Finish(mid, completed) + tail)
    requires Check(tail, [], seen + more) == Some(n) && total == CountIn(ReplyIds(mid), completed) + n
    ensures Check(ms, [], seen) == Some(total)
  {
    CheckGroup(ms, d, mid, tail, completed, seen, more);
    Total(Check(ms, [], seen), Check(tail, [], seen + more), CountIn(ReplyIds(mid), completed), n);
  }

  lemma Total(v: Option<nat>, later: Option<nat>, m: nat, n: nat)
    requires v == Plus(later, m) && later == Some(n)
    ensures v == Some(m + n)
  {
  }

  lemma GroupParts(ds: seq<Draft>, mid: seq<Draft>, rest: seq<Draft>, completed: set<string>)
    requires ds != [] && ds[0].Assistant? && ds[1..] == mid + rest && Answers(mid, ds[0].calls)
    ensures Finish(ds, completed) == Kept(ds[0], completed) + (Finish(mid, completed) + Finish(rest, completed))
    ensures ReplyIds(ds) == CallIds(ds[0].calls) + ReplyIds(rest)
    ensures CountIn(ReplyIds(ds), completed) == CountIn(ReplyIds(mid), completed) + CountIn(ReplyIds(rest), completed)
  {
    ReplyIdsConcat(mid, rest);
    GroupIds(ds[0].calls, mid);
    FinishConcat(mid, rest, completed);
    CountConcat(ReplyIds(mid), ReplyIds(rest), completed);
  }

  lemma SplitIds(calls: seq<Call>, later: seq<string>, more: set<string>, kept: seq<Call>, seen: set<string>)
    requires Distinct(CallIds(calls) + later) && Unseen(CallIds(calls) + later, seen)
    requires forall c :: c in kept ==> c in calls
    requires more == IdsOf(kept)
    ensures Distinct(later) && Unseen(later, seen + more) && more !! seen
  {
    var all := CallIds(calls) + later;
    forall i | 0 <= i < |calls| ensures calls[i].id in all { assert all[i] == calls[i].id; }
    forall c | c in later ensures c in all && c !in more {
      var k :| 0 <= k < |later| && later[k] == c;
      assert all[|calls| + k] == c;
      assert forall i :: 0 <= i < |calls| ==> all[i] == calls[i].id && all[i] != c;
    }
    forall i, k | 0 <= i < k < |later| ensures later[i] != later[k] {
      assert all[|calls| + i] == later[i] && all[|calls| + k] == later[k];
    }
  }
}
