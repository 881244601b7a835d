/** The sampling step of a turn: rename clashing call ids, append the sample's parts, settle or
    run every tool call.  The journal stays made of whole blocks, and every call is started and
    completed exactly once. */
module TurnLoop {
  import opened Basics
  import opened History
  import opened Assembly
  import opened Pairs
  import opened Samples

  datatype StreamEnd = StreamEnd(text: string, reasoning: seq<Reasoning>, calls: seq<Call>, reported: nat)
  datatype Parsed = Args(json: string) | Bad(reason: string)
  datatype Verdict = Allow | Deny | Ask

  /** What the turn's tools, hooks, permissions and users answer about one call. */
  datatype Ruling = Ruling(
    output: Option<Parsed>,      // for `submit_output`: the validated value, or why it is invalid
    known: bool,
    denial: Option<string>,      // a hook's denial
    verdict: Verdict,            // permissions, raised to `Ask` by an escalation
    approved: bool,
    problem: Option<string>)     // why the arguments fail the tool's model

  /** One scheduling step of the concurrent tool tasks: a task reports, or ends with a result.
      A task that raises never ends. */
  datatype Tick = Report(callId: string) | Finish(callId: string, result: string, isError: bool)

  const COMPLETED_RESULT := "not executed: turn completed"

  /* ---- what happens to one call ---- */

  /** A start, or a completion with what it carries. */
  datatype Mark = Begun | Ended(result: string, isError: bool)

  function MarkOf(e: Event, c: string): seq<Mark> {
    match e
    case ToolCallStarted(id) => if id == c then [Begun] else []
    case ToolCallCompleted(id, result, isError) => if id == c then [Ended(result, isError)] else []
    case _ => []
  }

  /** The starts and completions of one call, in journal order. */
  function Trace(es: seq<Event>, c: string): seq<Mark> {
    if es == [] then [] else Trace(es[..|es| - 1], c) + MarkOf(es[|es| - 1], c)
  }

  lemma TraceOne(a: seq<Event>, e: Event, c: string)
    ensures Trace(a + [e], c) == Trace(a, c) + MarkOf(e, c)
  {
    assert (a + [e])[..|a|] == a;
  }

  lemma {:induction false} TraceConcat(a: seq<Event>, b: seq<Event>, c: string)
    ensures Trace(a + b, c) == Trace(a, c) + Trace(b, c)
    decreases |b|
  {
    if b == [] { assert a + b == a; }
    else {
      var front, e := b[..|b| - 1], b[|b| - 1];
      assert b == front + [e] && a + b == a + front + [e];
      TraceConcat(a, front, c);
      TraceOne(a + front, e, c);
      TraceOne(front, e, c);
    }
  }

  function Settling(c: string, result: string, isError: bool): seq<Event> {
    [ToolCallStarted(c), ToolCallCompleted(c, result, isError)]
  }

  lemma TraceSettling(c: string, result: string, isError: bool, x: string)
    ensures Trace(Settling(c, result, isError), x) == if x == c then [Begun, Ended(result, isError)] else []
  {
    var es := Settling(c, result, isError);
    assert es == [es[0]] + [es[1]];
    TraceOne([es[0]], es[1], x);
    TraceOne([], es[0], x);
    assert [] + [es[0]] == [es[0]];
  }

  /** What happens to one call between two journals, and to no other. */
  ghost predicate Gains(was: seq<Event>, log: seq<Event>, c: string, marks: seq<Mark>) {
    forall x :: Trace(log, x) == Trace(was, x) + if x == c then marks else []
  }

  lemma GainsNothing(was: seq<Event>, log: seq<Event>, c: string)
    requires forall x :: Trace(log, x) == Trace(was, x)
    ensures Gains(was, log, c, [])
  {
    forall x ensures Trace(log, x) == Trace(was, x) + [] { }
  }

  lemma GainsAfter(was: seq<Event>, mid: seq<Event>, log: seq<Event>, c: string, marks: seq<Mark>)
    requires (forall x :: Trace(mid, x) == Trace(was, x)) && Gains(mid, log, c, marks)
    ensures Gains(was, log, c, marks)
  {
  }

  lemma SettledTraces(log: seq<Event>, c: string, result: string, isError: bool)
    ensures MidTurn(Settling(c, result, isError)) && NoParts(Settling(c, result, isError))
    ensures Gains(log, log + Settling(c, result, isError), c, [Begun, Ended(result, isError)])
  {
    forall x ensures Trace(log + Settling(c, result, isError), x) == Trace(log, x) + if x == c then [Begun, Ended(result, isError)] else [] {
      TraceConcat(log, Settling(c, result, isError), x);
      TraceSettling(c, result, isError, x);
    }
  }

  function Starting(ids: seq<string>): seq<Event> {
    if ids == [] then [] else Starting(ids[..|ids| - 1]) + [ToolCallStarted(ids[|ids| - 1])]
  }

  lemma {:induction false} TraceStarting(ids: seq<string>, x: string)
    requires Distinct(ids)
    ensures Trace(Starting(ids), x) == if x in ids then [Begun] else []
  {
    if ids != [] {
      var front, last := ids[..|ids| - 1], ids[|ids| - 1];
      TraceStarting(front, x);
      TraceOne(Starting(front), ToolCallStarted(last), x);
      LastIsNew(ids, x);
    }
  }

  lemma LastIsNew(ids: seq<string>, x: string)
    requires ids != [] && Distinct(ids)
    ensures x in ids <==> x in ids[..|ids| - 1] || x == ids[|ids| - 1]
    ensures x == ids[|ids| - 1] ==> x !in ids[..|ids| - 1]
  {
    assert ids == ids[..|ids| - 1] + [ids[|ids| - 1]];
  }

  ghost predicate NoMarks(es: seq<Event>) {
    forall i :: 0 <= i < |es| ==> !es[i].ToolCallStarted? && !es[i].ToolCallCompleted?
  }

  lemma {:induction false} TraceNone(es: seq<Event>, c: string)
    requires NoMarks(es)
    ensures Trace(es, c) == []
  {
    if es != [] { TraceNone(es[..|es| - 1], c); }
  }

  /* ---- events that stand alone ---- */

  function Alone(es: seq<Event>): (items: seq<Item>)
    ensures |items| == |es|
    ensures forall i :: 0 <= i < |es| ==> items[i] == Plain(es[i])
  {
    seq(|es|, i requires 0 <= i < |es| => Plain(es[i]))
  }

  ghost predicate NoParts(es: seq<Event>) {
    forall i :: 0 <= i < |es| ==> !IsPart(es[i])
  }

  lemma {:induction false} AloneFlattens(es: seq<Event>)
    ensures Flatten(Alone(es)) == es
    decreases |es|
  {
    if es != [] {
      var front := es[..|es| - 1];
      AloneFlattens(front);
      assert Alone(es)[..|es| - 1] == Alone(front);
      assert es == front + [es[|es| - 1]];
    }
  }

  lemma {:induction false} AloneAsksNothing(es: seq<Event>)
    ensures Calls(Alone(es)) == []
    decreases |es|
  {
    if es != [] {
      AloneAsksNothing(es[..|es| - 1]);
      assert Alone(es)[..|es| - 1] == Alone(es[..|es| - 1]);
    }
  }

  lemma AloneIsWhole(items: seq<Item>, es: seq<Event>)
    requires WholeBlocks(items) && NoParts(es)
    ensures WholeBlocks(items + Alone(es)) && Flatten(items + Alone(es)) == Flatten(items) + es
    ensures Calls(items + Alone(es)) == Calls(items)
  {
    AloneFlattens(es);
    AloneAsksNothing(es);
    FlattenConcat(items, Alone(es));
    CallsConcat(items, Alone(es));
    AloneKeeps(items, es);
  }

  lemma AloneKeeps(items: seq<Item>, es: seq<Event>)
    requires PartsInBlocks(items) && SamplesDistinct(items) && NoParts(es)
    ensures PartsInBlocks(items + Alone(es)) && SamplesDistinct(items + Alone(es))
  {
    assert forall i :: 0 <= i < |items| ==> (items + Alone(es))[i] == items[i];
    assert forall i :: |items| <= i < |items| + |es| ==> (items + Alone(es))[i] == Plain(es[i - |items|]);
  }

  ghost predicate NewSample(items: seq<Item>, id: string) {
    forall i :: 0 <= i < |items| && items[i].Sample? ==> items[i].id != id
  }

  lemma AloneIsNoSample(items: seq<Item>, es: seq<Event>, id: string)
    requires NewSample(items, id)
    ensures NewSample(items + Alone(es), id)
  {
  }

  lemma BlockIsWhole(items: seq<Item>, block: Item)
    requires WholeBlocks(items) && block.Sample? && NewSample(items, block.id)
    requires Distinct(CallIds(block.calls)) && forall c :: c in CallIds(block.calls) ==> c !in Calls(items)
    ensures WholeBlocks(items + [block]) && Flatten(items + [block]) == Flatten(items) + Events(block)
    ensures Calls(items + [block]) == Calls(items) + CallIds(block.calls)
  {
    var all := items + [block];
    assert all[..|items|] == items;
    assert forall i :: 0 <= i < |items| ==> all[i] == items[i];
    NoDupJoin(Calls(items), CallIds(block.calls));
  }

  lemma NoDupJoin(a: seq<string>, b: seq<string>)
    requires Distinct(a) && Distinct(b) && forall x :: x in b ==> x !in a
    ensures Distinct(a + b)
  {
    forall i, k | 0 <= i < k < |a + b| ensures (a + b)[i] != (a + b)[k] {
      if i < |a| <= k { assert (a + b)[k] in b && (a + b)[i] in a; }
    }
  }

  /* ---- renaming ---- */

  /** The hashed ids tried for one call are pairwise different. */
  ghost predicate Distinguishes(rename: (nat, nat) -> string) {
    forall index, a, b :: rename(index, a) == rename(index, b) ==> a == b
  }

  lemma {:induction false} TriesAreMany(rename: (nat, nat) -> string, index: nat, tries: nat, known: set<string>)
    requires Distinguishes(rename) && forall a :: 0 <= a < tries ==> rename(index, a) in known
    ensures tries <= |known|
  {
    if tries > 0 {
      TriesAreMany(rename, index, tries - 1, known - {rename(index, tries - 1)});
    }
  }

  /** Ids that are pairwise different and were not in use. */
  ghost predicate AllNew(calls: seq<Call>, known: set<string>) {
    Distinct(CallIds(calls)) && forall i :: 0 <= i < |calls| ==> calls[i].id !in known
  }

  /** The id a call gets: its own, unless that is in use; else the first hashed one that is not. */
  ghost predicate IsIdOf(given: string, known: set<string>, index: nat, rename: (nat, nat) -> string, callId: string) {
    if given !in known then callId == given
    else exists a: nat :: callId == rename(index, a) && FirstFree(rename, index, known, a)
  }

  ghost predicate FirstFree(rename: (nat, nat) -> string, index: nat, known: set<string>, a: nat) {
    rename(index, a) !in known && forall b :: 0 <= b < a ==> rename(index, b) in known
  }

  function Members(ids: seq<string>): set<string> {
    set x | x in ids
  }

  /** Every call has its id, earlier calls of the same answer counting as in use. */
  ghost predicate IdsAre(given: seq<Call>, ids: seq<string>, known: set<string>, rename: (nat, nat) -> string) {
    |ids| == |given| && forall i :: 0 <= i < |ids| ==> IsIdOf(given[i].id, known + Members(ids[..i]), i, rename, ids[i])
  }

  lemma IdsNext(given: seq<Call>, ids: seq<string>, known: set<string>, rename: (nat, nat) -> string, n: nat, id: string)
    requires n < |given| && IdsAre(given[..n], ids, known, rename) && IsIdOf(given[n].id, known + Members(ids), n, rename, id)
    ensures IdsAre(given[..n + 1], ids + [id], known, rename)
  {
    var all := ids + [id];
    assert all[..n] == ids;
    forall i | 0 <= i < |all| ensures IsIdOf(given[i].id, known + Members(all[..i]), i, rename, all[i]) {
      if i < n { assert all[..i] == ids[..i] && given[..n][i] == given[i]; }
    }
  }

  /** The inner loop of `_unique_calls`: hash until the id is not in use. */
  method FreshId(given: string, known: set<string>, index: nat, rename: (nat, nat) -> string) returns (callId: string)
    requires Distinguishes(rename)
    ensures callId !in known && IsIdOf(given, known, index, rename, callId)
  {
    callId := given;
    var attempt: nat := 0;
    while callId in known
      invariant attempt == 0 ==> callId == given
      invariant attempt > 0 ==> callId == rename(index, attempt - 1) && given in known
      invariant forall a :: 0 <= a < attempt - 1 ==> rename(index, a) in known
      decreases |known| + 1 - attempt
    {
      TriesAreMany(rename, index, attempt, known);
      callId := rename(index, attempt);
      attempt := attempt + 1;
    }
    if attempt > 0 { assert FirstFree(rename, index, known, attempt - 1); }
  }

  function IdSet(calls: seq<Call>): set<string> {
    set c | c in CallIds(calls)
  }

  ghost predicate Renamed(calls: seq<Call>, given: seq<Call>) {
    && |calls| == |given|
    && forall i :: 0 <= i < |calls| ==> calls[i].name == given[i].name && calls[i].args == given[i].args
  }

  /* ---- the parts of a sample ---- */

  function WithArgs(call: Call, parsed: Parsed): Call {
    match parsed case Args(json) => call.(args := json) case Bad(_) => call.(args := "{}")
  }

  function Requested(calls: seq<Call>, parse: string -> Parsed): (r: seq<Call>)
    ensures |r| == |calls|
    ensures forall i :: 0 <= i < |calls| ==> r[i] == WithArgs(calls[i], parse(calls[i].args))
  {
    seq(|calls|, i requires 0 <= i < |calls| => WithArgs(calls[i], parse(calls[i].args)))
  }

  /** A call whose arguments are no JSON object is settled in the same append. */
  function Rejection(call: Call, parsed: Parsed): seq<Event> {
    match parsed case Args(_) => [] case Bad(reason) => Settling(call.id, "invalid JSON arguments: " + reason, true)
  }

  function Rejected(calls: seq<Call>, parse: string -> Parsed): seq<Event> {
    if calls == [] then []
    else var n := |calls| - 1; Rejected(calls[..n], parse) + Rejection(calls[n], parse(calls[n].args))
  }

  function Malformed(calls: seq<Call>, parse: string -> Parsed): set<string> {
    if calls == [] then {}
    else
      var n := |calls| - 1;
      Malformed(calls[..n], parse) + if parse(calls[n].args).Bad? then {calls[n].id} else {}
  }

  /** The first loop of `_parts`. */
  method Lead(sampleId: string, reasoning: seq<Reasoning>, text: string) returns (events: seq<Event>)
    ensures events == ThoughtEvents(sampleId, reasoning) + TextEvents(sampleId, text)
  {
    events := [];
    for i := 0 to |reasoning|
      invariant events == ThoughtEvents(sampleId, reasoning[..i])
    {
      assert reasoning[..i + 1][..i] == reasoning[..i];
      events := events + [ReasoningPart(sampleId, reasoning[i].text, reasoning[i].signature)];
    }
    assert reasoning[..|reasoning|] == reasoning;
    if text != "" { events := events + [TextPart(sampleId, text)]; }
  }

  lemma RequestedNext(calls: seq<Call>, i: nat, parse: string -> Parsed)
    requires i < |calls|
    ensures Requested(calls[..i + 1], parse) == Requested(calls[..i], parse) + [WithArgs(calls[i], parse(calls[i].args))]
    ensures Malformed(calls[..i + 1], parse) == Malformed(calls[..i], parse) + if parse(calls[i].args).Bad? then {calls[i].id} else {}
    ensures Rejected(calls[..i + 1], parse) == Rejected(calls[..i], parse) + Rejection(calls[i], parse(calls[i].args))
  {
    assert calls[..i + 1][..i] == calls[..i];
  }

  lemma CallEventsNext(id: string, calls: seq<Call>, c: Call)
    ensures CallEvents(id, calls + [c]) == CallEvents(id, calls) + [ToolCallRequested(id, c.id, c.name, c.args)]
  {
    assert (calls + [c])[..|calls|] == calls;
  }

  /** The second loop of `_parts`. */
  method Requests(sampleId: string, given: seq<Call>, parse: string -> Parsed)
    returns (events: seq<Event>, calls: seq<Call>, invalid: set<string>, rejected: seq<Event>)
    ensures calls == Requested(given, parse) && invalid == Malformed(given, parse)
    ensures events == CallEvents(sampleId, calls) && rejected == Rejected(given, parse)
  {
    events, calls, invalid, rejected := [], [], {}, [];
    for i := 0 to |given|
      invariant calls == Requested(given[..i], parse) && invalid == Malformed(given[..i], parse)
      invariant events == CallEvents(sampleId, calls) && rejected == Rejected(given[..i], parse)
    {
      RequestedNext(given, i, parse);
      var call := given[i];
      var parsed := parse(call.args);
      if parsed.Bad? { invalid := invalid + {call.id}; }
      rejected := rejected + Rejection(call, parsed);
      var requested := WithArgs(call, parsed);
      CallEventsNext(sampleId, calls, requested);
      events := events + [ToolCallRequested(sampleId, requested.id, requested.name, requested.args)];
      calls := calls + [requested];
    }
    assert given[..|given|] == given;
  }

  /** `_parts`. */
  method Parts(sampleId: string, end: StreamEnd, parse: string -> Parsed)
    returns (events: seq<Event>, calls: seq<Call>, invalid: set<string>)
    ensures calls == Requested(end.calls, parse) && invalid == Malformed(end.calls, parse)
    ensures events == Events(Sample(sampleId, end.reasoning, end.text, calls))
                      + ([SampleCompleted(sampleId, end.reported)] + Rejected(end.calls, parse))
  {
    var lead := Lead(sampleId, end.reasoning, end.text);
    var asked, rejected;
    asked, calls, invalid, rejected := Requests(sampleId, end.calls, parse);
    events := lead + asked + ([SampleCompleted(sampleId, end.reported)] + rejected);
  }

  lemma {:induction false} MalformedAreCalls(calls: seq<Call>, parse: string -> Parsed, x: string)
    requires x in Malformed(calls, parse)
    ensures x in CallIds(calls)
    decreases |calls|
  {
    var n := |calls| - 1;
    assert CallIds(calls) == CallIds(calls[..n]) + [calls[n].id];
    if x in Malformed(calls[..n], parse) { MalformedAreCalls(calls[..n], parse, x); }
  }

  lemma {:induction false} RejectedIsPlain(calls: seq<Call>, parse: string -> Parsed)
    ensures NoParts(Rejected(calls, parse)) && MidTurn(Rejected(calls, parse))
    decreases |calls|
  {
    if calls != [] { RejectedIsPlain(calls[..|calls| - 1], parse); }
  }

  /** What becomes at once of a call whose arguments are no JSON object: a start, and a completion
      with the reason, as an error. */
  function RejectionMarks(calls: seq<Call>, parse: string -> Parsed, x: string): seq<Mark> {
    if calls == [] then []
    else
      var n := |calls| - 1;
      if calls[n].id != x then RejectionMarks(calls[..n], parse, x)
      else match parse(calls[n].args)
        case Args(_) => []
        case Bad(reason) => [Begun, Ended("invalid JSON arguments: " + reason, true)]
  }

  lemma {:induction false} RejectionOf(calls: seq<Call>, parse: string -> Parsed, n: nat)
    requires n < |calls| && Distinct(CallIds(calls))
    ensures RejectionMarks(calls, parse, calls[n].id) ==
            match parse(calls[n].args)
            case Args(_) => []
            case Bad(reason) => [Begun, Ended("invalid JSON arguments: " + reason, true)]
    decreases |calls|
  {
    if n < |calls| - 1 {
      CallsSplit(calls);
      RejectionOf(calls[..|calls| - 1], parse, n);
    }
  }

  lemma {:induction false} RejectsOnlyCalls(calls: seq<Call>, parse: string -> Parsed, x: string)
    requires x !in CallIds(calls)
    ensures RejectionMarks(calls, parse, x) == []
    decreases |calls|
  {
    if calls != [] {
      var n := |calls| - 1;
      assert CallIds(calls) == CallIds(calls[..n]) + [calls[n].id];
      RejectsOnlyCalls(calls[..n], parse, x);
    }
  }

  lemma TraceRejection(call: Call, parsed: Parsed, x: string)
    ensures Trace(Rejection(call, parsed), x) ==
            if parsed.Bad? && x == call.id then [Begun, Ended("invalid JSON arguments: " + parsed.reason, true)] else []
  {
    if parsed.Bad? { TraceSettling(call.id, "invalid JSON arguments: " + parsed.reason, true, x); }
  }

  lemma {:induction false} TraceRejected(calls: seq<Call>, parse: string -> Parsed, x: string)
    requires Distinct(CallIds(calls))
    ensures Trace(Rejected(calls, parse), x) == RejectionMarks(calls, parse, x)
    decreases |calls|
  {
    if calls != [] {
      var n := |calls| - 1;
      CallsSplit(calls);
      TraceRejected(calls[..n], parse, x);
      TraceConcat(Rejected(calls[..n], parse), Rejection(calls[n], parse(calls[n].args)), x);
      TraceRejection(calls[n], parse(calls[n].args), x);
      if x == calls[n].id {
        NextCall(calls, n);
        RejectsOnlyCalls(calls[..n], parse, x);
      }
    }
  }

  lemma {:induction false} PartsAreUnmarked(item: Item)
    requires item.Sample?
    ensures NoMarks(Events(item))
  {
    forall n | 0 <= n < |Events(item)| ensures !Events(item)[n].ToolCallStarted? && !Events(item)[n].ToolCallCompleted? {
      OnlyParts(item, n);
    }
  }

  lemma TraceParts(item: Item, done: Event, calls: seq<Call>, parse: string -> Parsed, x: string)
    requires item.Sample? && done.SampleCompleted? && Distinct(CallIds(calls))
    ensures Trace(Events(item) + ([done] + Rejected(calls, parse)), x) == RejectionMarks(calls, parse, x)
  {
    TraceConcat(Events(item), [done] + Rejected(calls, parse), x);
    TraceConcat([done], Rejected(calls, parse), x);
    PartsAreUnmarked(item);
    TraceNone(Events(item), x);
    TraceNone([done], x);
    TraceRejected(calls, parse, x);
  }

  /* ---- trimming ---- */

  /** A trimmed history begins at an item. */
  lemma CutPosition(items: seq<Item>) returns (k: nat)
    ensures k <= |items| && |Flatten(items[..k])| == Cut(Flatten(items))
  {
    var h := Flatten(items);
    if Latest(h) < 0 { k := 0; }
    else if Latest(h) < Floor(h) { k := PlainPosition(items, Latest(h)); }
    else { k := WindowPosition(items); }
  }

  /** No call and no sample that was not there before. */
  ghost predicate Within(items: seq<Item>, before: seq<Item>) {
    && (forall c :: c in Calls(items) ==> c in Calls(before))
    && (forall id :: NewSample(before, id) ==> NewSample(items, id))
  }

  /** What is left is still made of whole blocks, with calls and samples from before. */
  lemma TrimmedIsWhole(items: seq<Item>, k: nat)
    requires WholeBlocks(items) && k <= |items| && |Flatten(items[..k])| == Cut(Flatten(items))
    ensures WholeBlocks(items[k..]) && Flatten(items[k..]) == Compacted(Flatten(items))
    ensures Within(items[k..], items)
  {
    SuffixIsWhole(items, k);
    AfterPrefix(Flatten(items), Flatten(items[..k]), Flatten(items[k..]));
    SuffixKnows(items, k);
  }

  lemma AfterPrefix(h: seq<Event>, a: seq<Event>, b: seq<Event>)
    requires h == a + b
    ensures h[|a|..] == b
  {
  }

  lemma SuffixKnows(items: seq<Item>, k: nat)
    requires k <= |items|
    ensures Within(items[k..], items)
  {
    assert items[..k] + items[k..] == items;
    CallsConcat(items[..k], items[k..]);
  }

  lemma AsksConcat(a: seq<Event>, b: seq<Event>, c: string)
    ensures Asks(a + b, c) <==> Asks(a, c) || Asks(b, c)
  {
    if Asks(a, c) {
      var i :| 0 <= i < |a| && a[i].ToolCallRequested? && a[i].callId == c;
      assert (a + b)[i] == a[i];
    }
    if Asks(b, c) {
      var i :| 0 <= i < |b| && b[i].ToolCallRequested? && b[i].callId == c;
      assert (a + b)[|a| + i] == b[i];
    }
  }

  lemma {:induction false} CallEventsAsk(id: string, calls: seq<Call>, c: string)
    ensures Asks(CallEvents(id, calls), c) <==> c in CallIds(calls)
    decreases |calls|
  {
    if calls != [] {
      var front, last := calls[..|calls| - 1], calls[|calls| - 1];
      CallEventsAsk(id, front, c);
      AsksConcat(CallEvents(id, front), [ToolCallRequested(id, last.id, last.name, last.args)], c);
      assert Asks([ToolCallRequested(id, last.id, last.name, last.args)], c) <==> c == last.id by {
        assert [ToolCallRequested(id, last.id, last.name, last.args)][0].ToolCallRequested?;
      }
      assert CallIds(calls) == CallIds(front) + [last.id];
    }
  }

  lemma {:induction false} ThoughtsAskNothing(id: string, thoughts: seq<Reasoning>, c: string)
    ensures !Asks(ThoughtEvents(id, thoughts), c)
    decreases |thoughts|
  {
    if thoughts != [] {
      var front, last := thoughts[..|thoughts| - 1], thoughts[|thoughts| - 1];
      ThoughtsAskNothing(id, front, c);
      AsksConcat(ThoughtEvents(id, front), [ReasoningPart(id, last.text, last.signature)], c);
    }
  }

  /** The calls of whole blocks are those their events request. */
  lemma {:induction false} CallsAreAsked(items: seq<Item>, c: string)
    requires PartsInBlocks(items)
    ensures Asks(Flatten(items), c) <==> c in Calls(items)
    decreases |items|
  {
    if items != [] {
      var front, item := items[..|items| - 1], items[|items| - 1];
      CallsAreAsked(front, c);
      AsksConcat(Flatten(front), Events(item), c);
      if item.Sample? { SampleAsks(item, c); }
    }
  }

  lemma SampleAsks(item: Item, c: string)
    requires item.Sample?
    ensures Asks(Events(item), c) <==> c in CallIds(item.calls)
  {
    AsksConcat(ThoughtEvents(item.id, item.thoughts) + TextEvents(item.id, item.text), CallEvents(item.id, item.calls), c);
    AsksConcat(ThoughtEvents(item.id, item.thoughts), TextEvents(item.id, item.text), c);
    ThoughtsAskNothing(item.id, item.thoughts, c);
    CallEventsAsk(item.id, item.calls, c);
  }

  /** More is appended, but no compaction and no turn. */
  ghost predicate Grows(was: seq<Event>, log: seq<Event>) {
    was <= log && forall i :: |was| <= i < |log| ==> !log[i].CompactionApplied? && !log[i].TurnStarted?
  }

  /** Neither a compaction nor the start of a turn. */
  ghost predicate MidTurn(es: seq<Event>) {
    forall i :: 0 <= i < |es| ==> !es[i].CompactionApplied? && !es[i].TurnStarted?
  }

  lemma GrowsTwice(a: seq<Event>, b: seq<Event>, c: seq<Event>)
    requires Grows(a, b) && Grows(b, c)
    ensures Grows(a, c)
  {
  }

  lemma ResultIsPlain(c: string, result: string, isError: bool)
    ensures NoParts([ToolCallCompleted(c, result, isError)]) && MidTurn([ToolCallCompleted(c, result, isError)])
  {
  }

  lemma StillGrows(log: seq<Event>, events: seq<Event>)
    requires MidTurn(events)
    ensures Latest(events) < 0 && Grows(log, log + events)
  {
  }

  class TurnEngine {
    /** The history the engine holds, and its items. */
    var log: seq<Event>
    ghost var items: seq<Item>
    var callIds: set<string>

    ghost predicate Loaded()
      reads this
    {
      log == Flatten(items) && WholeBlocks(items)
    }

    ghost predicate Valid()
      reads this
    {
      Loaded() && forall c :: c in Calls(items) ==> c in callIds
    }

    /** The history an engine is given, cut. */
    constructor (history: seq<Event>, ghost whole: seq<Item>)
      requires history == Flatten(whole) && WholeBlocks(whole)
      ensures Loaded() && log == Compacted(history)
      ensures Within(items, whole)
    {
      log, items, callIds := history, whole, {};
      new;
      Trim();
    }

    /** The call ids a turn begins with: those its history requests. */
    method SeedCallIds()
      requires Loaded()
      modifies this`callIds
      ensures Valid() && forall c :: c in callIds <==> c in old(callIds) || c in Calls(items)
    {
      callIds := callIds + set e | e in log && e.ToolCallRequested? :: e.callId;
      forall c ensures c in callIds <==> c in old(callIds) || c in Calls(items) {
        CallsAreAsked(items, c);
        if Asks(log, c) { var i :| 0 <= i < |log| && log[i].ToolCallRequested? && log[i].callId == c; assert log[i] in log; }
      }
    }

    /** `_trim_history`. */
    method Trim()
      requires Loaded()
      modifies this`log, this`items
      ensures Loaded() && log == Compacted(old(log)) && Window(log) == old(Window(log))
      ensures Within(items, old(items))
    {
      ghost var k := CutPosition(items);
      TrimmedIsWhole(items, k);
      TrimKeepsWindow(log);
      log := CompactedHistory(log);
      items := items[k..];
    }

    /** Every request built from this history passes the pair checker. */
    lemma RequestIsAccepted()
      requires Valid()
      ensures Check(Build(log), [], {}).Some?
    {
      var _ := BuildIsAccepted(items);
    }

    /** `_append` of events that are no parts of a sample: a compaction among them trims. */
    method Append(events: seq<Event>)
      requires Valid() && NoParts(events)
      modifies this
      ensures Valid() && callIds == old(callIds)
      ensures log == if Latest(events) >= 0 then Compacted(old(log) + events) else old(log) + events
      ensures Window(log) == Window(old(log) + events)
      ensures Within(items, old(items))
    {
      Extend(events);
      var found := HasCompaction(events);
      if found { Trim(); }
    }

    /** An append in the middle of a turn. */
    method AppendMid(events: seq<Event>)
      requires Valid() && NoParts(events) && MidTurn(events)
      modifies this
      ensures Valid() && callIds == old(callIds) && log == old(log) + events && Grows(old(log), log)
    {
      StillGrows(log, events);
      Append(events);
    }

    method Extend(events: seq<Event>)
      requires Valid() && NoParts(events)
      modifies this
      ensures Valid() && log == old(log) + events && callIds == old(callIds)
      ensures Calls(items) == old(Calls(items)) && Within(items, old(items))
    {
      AloneIsWhole(items, events);
      ghost var before := items;
      items := items + Alone(events);
      log := log + events;
      forall id | NewSample(before, id) ensures NewSample(items, id) { AloneIsNoSample(before, events, id); }
    }

    /** `_unique_calls`. */
    method UniqueCalls(given: seq<Call>, rename: (nat, nat) -> string) returns (calls: seq<Call>)
      requires Distinguishes(rename)
      modifies this`callIds
      ensures Renamed(calls, given) && AllNew(calls, old(callIds))
      ensures callIds == old(callIds) + IdSet(calls)
      ensures IdsAre(given, CallIds(calls), old(callIds), rename)
    {
      calls := [];
      for index := 0 to |given|
        invariant Renamed(calls, given[..index]) && AllNew(calls, old(callIds))
        invariant callIds == old(callIds) + IdSet(calls)
        invariant IdsAre(given[..index], CallIds(calls), old(callIds), rename)
      {
        var callId := FreshId(given[index].id, callIds, index, rename);
        var call := given[index].(id := callId);
        AddNew(calls, call, old(callIds));
        IdsNext(given, CallIds(calls), old(callIds), rename, index, callId);
        callIds := callIds + {callId};
        calls := calls + [call];
      }
      assert given[..|given|] == given;
    }

    /** `_complete`. */
    method Complete(c: string, result: string, isError: bool)
      requires Valid()
      modifies this
      ensures Valid() && callIds == old(callIds) && Grows(old(log), log)
      ensures Gains(old(log), log, c, [Begun, Ended(result, isError)])
    {
      SettledTraces(log, c, result, isError);
      AppendMid(Settling(c, result, isError));
    }

    /** One round of `_preflight`: a call is settled on the spot, with what its ruling calls for, or
        left to run. */
    method Settle(call: Call, r: Ruling, stopped: bool, capped: bool, allowAsks: bool) returns (runs: bool, output: Option<string>)
      requires Valid()
      modifies this
      ensures Valid() && callIds == old(callIds) && Grows(old(log), log)
      ensures Gains(old(log), log, call.id, if runs then [] else [Begun, AnswerFor(call, r, stopped, capped, allowAsks)])
      ensures runs <==> Runs(r, stopped, capped, allowAsks)
      ensures output == if !stopped && Submits(r) then Some(r.output.value.json) else None
    {
      runs, output := false, None;
      if stopped {
        Complete(call.id, COMPLETED_RESULT, true);
      } else if r.output.Some? {
        match r.output.value
        case Bad(reason) => Complete(call.id, "invalid output: " + reason, true);
        case Args(json) =>
          output := Some(json);
          Complete(call.id, json, false);
      } else if capped {
        Complete(call.id, "not executed: max steps reached", true);
      } else {
        runs := Admit(call, r, allowAsks);
      }
    }

    /** Tools, hooks and permissions decide on the call. */
    method Admit(call: Call, r: Ruling, allowAsks: bool) returns (runs: bool)
      requires Valid() && r.output.None?
      modifies this
      ensures Valid() && callIds == old(callIds) && Grows(old(log), log)
      ensures runs <==> Runs(r, false, false, allowAsks)
      ensures Gains(old(log), log, call.id, if runs then [] else [Begun, Ended(Refusal(call, r, false, allowAsks), true)])
    {
      runs := false;
      if !r.known {
        Complete(call.id, "unknown tool '" + call.name + "'", true);
      } else if r.denial.Some? {
        Complete(call.id, "denied by hook: " + r.denial.value, true);
      } else if r.verdict == Deny {
        Complete(call.id, "denied by permissions: " + call.name, true);
      } else if r.verdict == Ask && !allowAsks {
        Complete(call.id, "child agents cannot ask humans; use send() to message the parent", true);
      } else {
        runs := Permit(call, r);
      }
    }

    /** The end of the round: the user is asked if need be, and the arguments are checked. */
    method Permit(call: Call, r: Ruling) returns (runs: bool)
      requires Valid()
      modifies this
      ensures Valid() && callIds == old(callIds) && Grows(old(log), log)
      ensures runs <==> !(r.verdict == Ask && !r.approved) && r.problem.None?
      ensures Gains(old(log), log, call.id,
                    if runs then [] else [Begun, Ended(if r.verdict == Ask && !r.approved then "denied by user" else r.problem.value, true)])
    {
      ghost var was := log;
      if r.verdict == Ask { Quiet([Other]); }
      ghost var mid := log;
      runs := false;
      if r.verdict == Ask && !r.approved {
        Complete(call.id, "denied by user", true);
        GainsAfter(was, mid, log, call.id, [Begun, Ended("denied by user", true)]);
      } else if r.problem.Some? {
        Complete(call.id, r.problem.value, true);
        GainsAfter(was, mid, log, call.id, [Begun, Ended(r.problem.value, true)]);
      } else {
        runs := true;
        GainsNothing(was, log, call.id);
      }
    }

    /** An append that starts and completes no call: an ask, or a tool's progress. */
    method Quiet(events: seq<Event>)
      requires Valid() && NoParts(events) && NoMarks(events) && MidTurn(events)
      modifies this
      ensures Valid() && log == old(log) + events && callIds == old(callIds) && Grows(old(log), log)
      ensures forall x :: Trace(log, x) == old(Trace(log, x))
    {
      ghost var before := log;
      AppendMid(events);
      forall x ensures Trace(log, x) == Trace(before, x) {
        TraceConcat(before, events, x);
        TraceNone(events, x);
        assert Trace(before, x) + [] == Trace(before, x);
      }
    }

    /** `_preflight`: each call that was not rejected is answered at once, or prepared to run. */
    method Preflight(calls: seq<Call>, invalid: set<string>, capped: bool, rulings: seq<Ruling>, allowAsks: bool)
      returns (prepared: seq<string>, output: Option<string>)
      requires Valid() && |rulings| == |calls| && Distinct(CallIds(calls))
      modifies this
      ensures Valid() && callIds == old(callIds) && Grows(old(log), log)
      ensures prepared == Prepared(calls, invalid, rulings, capped, allowAsks)
      ensures Adds(old(log), log, calls, invalid, rulings, capped, allowAsks)
      ensures output == Submission(calls, invalid, rulings)
    {
      prepared, output := [], None;
      ghost var was := log;
      NothingSettled(was, calls, invalid, capped, rulings, allowAsks);
      for n := 0 to |calls|
        invariant Valid() && callIds == old(callIds) && Grows(was, log)
        invariant SettledUpTo(was, log, calls, n, invalid, capped, rulings, allowAsks, prepared, output)
      {
        ghost var mid := log;
        var out := output;
        prepared, output := PreflightOne(calls, n, invalid, capped, rulings, allowAsks, prepared, out, was);
        GrowsTwice(was, mid, log);
      }
      AllSettled(was, log, calls, invalid, capped, rulings, allowAsks, prepared, output);
    }

    /** The loop body of `_preflight`. */
    method PreflightOne(calls: seq<Call>, n: nat, invalid: set<string>, capped: bool, rulings: seq<Ruling>, allowAsks: bool,
                        prepared: seq<string>, output: Option<string>, ghost was: seq<Event>)
      returns (prepared': seq<string>, output': Option<string>)
      requires Valid() && n < |rulings| == |calls| && Distinct(CallIds(calls))
      requires SettledUpTo(was, log, calls, n, invalid, capped, rulings, allowAsks, prepared, output)
      modifies this
      ensures Valid() && callIds == old(callIds) && Grows(old(log), log)
      ensures SettledUpTo(was, log, calls, n + 1, invalid, capped, rulings, allowAsks, prepared', output')
    {
      prepared', output' := prepared, output;
      NextCall(calls, n);
      OneMore(calls, invalid, rulings, capped, allowAsks, n);
      ghost var before := log;
      if calls[n].id in invalid {
        GainsNothing(before, log, calls[n].id);
      } else {
        var runs, submitted := Settle(calls[n], rulings[n], output.Some?, capped, allowAsks);
        if runs { prepared' := prepared + [calls[n].id]; }
        if submitted.Some? { output' := submitted; }
      }
      AddsNext(was, before, log, calls, invalid, rulings, capped, allowAsks, n);
    }

    /** One tick of the tool tasks; ticks of tasks that are not running do nothing. */
    method RunOne(tick: Tick, prepared: seq<string>, running: set<string>, ghost was: seq<Event>, ghost past: seq<Tick>)
      returns (running': set<string>)
      requires Valid() && Underway(was, log, prepared, running, past)
      modifies this
      ensures Valid() && callIds == old(callIds) && Grows(old(log), log)
      ensures Underway(was, log, prepared, running', past + [tick])
    {
      running' := running;
      ghost var before := log;
      if tick.callId in running {
        match tick
        case Report(_) =>
          Quiet([Other]);
          IdleUnderway(was, before, log, prepared, running, past, tick);
        case Finish(c, result, isError) =>
          ResultIsPlain(c, result, isError);
          AppendMid([ToolCallCompleted(c, result, isError)]);
          running' := running - {c};
          FinishUnderway(was, before, prepared, running, past, tick);
      } else {
        IdleUnderway(was, before, log, prepared, running, past, tick);
      }
    }

    method StartTools(prepared: seq<string>) returns (running: set<string>)
      requires Valid() && Distinct(prepared)
      modifies this
      ensures Valid() && callIds == old(callIds) && Grows(old(log), log)
      ensures Underway(old(log), log, prepared, running, [])
    {
      StartingIsPlain(prepared);
      StartsUnderway(log, prepared);
      AppendMid(Starting(prepared));
      running := set c | c in prepared;
    }

    /** The tool tasks of `_batch`, under any schedule; `ok` if all of them end.  Each prepared call is
        started, and completed with what it first finishes with. */
    method RunTools(prepared: seq<string>, schedule: seq<Tick>) returns (ok: bool)
      requires Valid() && Distinct(prepared)
      modifies this
      ensures Valid() && callIds == old(callIds) && Grows(old(log), log)
      ensures HaveRun(old(log), log, prepared, schedule)
      ensures ok <==> forall x :: x in prepared ==> FirstFinish(schedule, x) != []
    {
      ghost var was := log;
      var running := StartTools(prepared);
      ghost var mid := log;
      running := RunAll(prepared, running, schedule, was);
      GrowsTwice(was, mid, log);
      ok := running == {};
      AllEnded(was, log, prepared, running, schedule);
    }

    method RunAll(prepared: seq<string>, started: set<string>, schedule: seq<Tick>, ghost was: seq<Event>) returns (running: set<string>)
      requires Valid() && Underway(was, log, prepared, started, [])
      modifies this
      ensures Valid() && callIds == old(callIds) && Grows(old(log), log)
      ensures Underway(was, log, prepared, running, schedule)
    {
      running := started;
      ghost var start := log;
      ghost var past: seq<Tick> := [];
      for n := 0 to |schedule|
        invariant Valid() && callIds == old(callIds) && Grows(start, log) && past == schedule[..n]
        invariant Underway(was, log, prepared, running, past)
      {
        ghost var mid := log;
        running := RunOne(schedule[n], prepared, running, was, past);
        past := past + [schedule[n]];
        GrowsTwice(start, mid, log);
      }
      assert past == schedule;
    }

    /** `_batch`: each call that was not rejected is answered at once, or runs. */
    method Batch(calls: seq<Call>, invalid: set<string>, capped: bool, rulings: seq<Ruling>, allowAsks: bool, schedule: seq<Tick>)
      returns (ok: bool, ran: seq<string>, output: Option<string>)
      requires Valid() && |rulings| == |calls| && Distinct(CallIds(calls))
      modifies this
      ensures Valid() && callIds == old(callIds) && Grows(old(log), log)
      ensures Becomes(old(log), log, calls, invalid, rulings, capped, allowAsks, schedule)
      ensures ran == Prepared(calls, invalid, rulings, capped, allowAsks)
      ensures ok <==> forall x :: x in ran ==> FirstFinish(schedule, x) != []
      ensures output == Submission(calls, invalid, rulings)
    {
      ghost var was := log;
      ran, output := Preflight(calls, invalid, capped, rulings, allowAsks);
      ghost var mid := log;
      PreparedIsDistinct(calls, invalid, rulings, capped, allowAsks);
      ok := true;
      if ran != [] { ok := RunTools(ran, schedule); }
      else { NothingRuns(log, schedule); }
      GrowsTwice(was, mid, log);
      BatchTraces(was, mid, log, calls, invalid, rulings, capped, allowAsks, schedule);
    }

    /** The sample's own part of the append of its parts. */
    method AppendBlock(block: Item)
      requires Valid() && block.Sample? && NewSample(items, block.id)
      requires Distinct(CallIds(block.calls)) && forall c :: c in CallIds(block.calls) ==> c in callIds && c !in Calls(items)
      modifies this
      ensures Valid() && log == old(log) + Events(block) && callIds == old(callIds)
    {
      BlockIsWhole(items, block);
      items := items + [block];
      log := log + Events(block);
    }

    /** The append of a sample's parts. */
    method AppendParts(block: Item, rest: seq<Event>, events: seq<Event>)
      requires Valid() && block.Sample? && NewSample(items, block.id) && NoParts(rest) && MidTurn(rest) && events == Events(block) + rest
      requires Distinct(CallIds(block.calls)) && forall c :: c in CallIds(block.calls) ==> c in callIds && c !in Calls(items)
      modifies this
      ensures Valid() && log == old(log) + events && callIds == old(callIds)
    {
      ghost var before := log;
      AppendBlock(block);
      Append(rest);
      Regroup(before, Events(block), rest);
    }

    /** One sample of `_drive`, from the provider's answer to the settled batch.  The answer is
        recorded as it came, but for call ids that clash; each of its calls is started once and
        completed with its own outcome. */
    method Step(end: StreamEnd, sampleId: string, rename: (nat, nat) -> string, parse: string -> Parsed,
                capped: bool, rulings: seq<Ruling>, allowAsks: bool, schedule: seq<Tick>)
      returns (calls: seq<Call>, ok: bool, ran: seq<string>, output: Option<string>)
      requires Valid() && NewSample(items, sampleId) && Distinguishes(rename) && |rulings| == |end.calls|
      modifies this
      ensures Valid()
      ensures AllNew(calls, old(callIds)) && callIds == old(callIds) + IdSet(calls)
      ensures RecordedAs(end.calls, calls, parse) && IdsAre(end.calls, CallIds(calls), old(callIds), rename)
      ensures Grows(old(log), log) && old(log) + Sampled(sampleId, end, calls) <= log
      ensures HaveOutcomes(old(log), log, end.calls, calls, parse, rulings, capped, allowAsks, schedule)
      ensures ok <==> AllPaired(end.calls, calls, parse, rulings, capped, allowAsks, schedule)
      ensures ran == Prepared(calls, BadIds(end.calls, calls, parse), rulings, capped, allowAsks) && (capped ==> ran == [] && ok)
      ensures output == Submission(calls, BadIds(end.calls, calls, parse), rulings)
    {
      ghost var was := log;
      var invalid;
      ghost var renamed;
      calls, invalid, renamed := Record(end, sampleId, rename, parse);
      ghost var mid := log;
      ok, ran, output := Batch(calls, invalid, capped, rulings, allowAsks, schedule);
      GrowsTwice(was, mid, log);
      StepTraces(was, mid, log, end.calls, renamed, calls, parse, rulings, capped, allowAsks, schedule);
      PairedIfEnded(end.calls, calls, parse, rulings, capped, allowAsks, schedule, ran, ok);
    }

    /** The first half: the answer's parts are appended under new call ids. */
    method Record(end: StreamEnd, sampleId: string, rename: (nat, nat) -> string, parse: string -> Parsed)
      returns (calls: seq<Call>, invalid: set<string>, ghost renamed: seq<Call>)
      requires Valid() && NewSample(items, sampleId) && Distinguishes(rename)
      modifies this
      ensures Valid()
      ensures AllNew(calls, old(callIds)) && callIds == old(callIds) + IdSet(calls)
      ensures Renamed(renamed, end.calls) && CallIds(renamed) == CallIds(calls) && calls == Requested(renamed, parse)
      ensures IdsAre(end.calls, CallIds(calls), old(callIds), rename)
      ensures invalid == Malformed(renamed, parse)
      ensures Rejects(old(log), log, renamed, parse)
      ensures Grows(old(log), log) && old(log) + Sampled(sampleId, end, calls) <= log
    {
      ghost var was := log;
      var unique := UniqueCalls(end.calls, rename);
      renamed := unique;
      var events;
      events, calls, invalid := Parts(sampleId, end.(calls := unique), parse);
      assert CallIds(calls) == CallIds(unique);
      var block := Sample(sampleId, end.reasoning, end.text, calls);
      var done := SampleCompleted(sampleId, end.reported);
      RestIsPlain(done, unique, parse);
      AppendParts(block, [done] + Rejected(unique, parse), events);
      PartsHandled(was, block, done, unique, parse);
      RejectedIsPlain(unique, parse);
      RecordGrows(was, sampleId, end, calls, Rejected(unique, parse));
    }
  }

  lemma Prefixed(was: seq<Event>, a: seq<Event>, b: seq<Event>, c: seq<Event>)
    ensures was + (a + b) <= was + (a + (b + c))
  {
    assert was + (a + (b + c)) == was + (a + b) + c;
  }

  lemma RecordGrows(was: seq<Event>, sampleId: string, end: StreamEnd, calls: seq<Call>, rejected: seq<Event>)
    requires MidTurn(rejected)
    ensures var block, done := Sample(sampleId, end.reasoning, end.text, calls), SampleCompleted(sampleId, end.reported);
            var log := was + (Events(block) + ([done] + rejected));
            Grows(was, log) && was + Sampled(sampleId, end, calls) <= log
  {
    var block, done := Sample(sampleId, end.reasoning, end.text, calls), SampleCompleted(sampleId, end.reported);
    Prefixed(was, Events(block), [done], rejected);
    forall i | 0 <= i < |Events(block)| ensures !Events(block)[i].CompactionApplied? && !Events(block)[i].TurnStarted? { OnlyParts(block, i); }
    PlainGrows(was, Events(block), [done] + rejected);
  }

  lemma PlainGrows(was: seq<Event>, a: seq<Event>, b: seq<Event>)
    requires MidTurn(a) && MidTurn(b)
    ensures Grows(was, was + (a + b))
  {
  }

  lemma RestIsPlain(done: Event, calls: seq<Call>, parse: string -> Parsed)
    requires done.SampleCompleted?
    ensures NoParts([done] + Rejected(calls, parse)) && MidTurn([done] + Rejected(calls, parse))
  {
    RejectedIsPlain(calls, parse);
  }

  lemma PartsHandled(was: seq<Event>, block: Item, done: Event, calls: seq<Call>, parse: string -> Parsed)
    requires block.Sample? && done.SampleCompleted? && Distinct(CallIds(calls))
    ensures Rejects(was, was + (Events(block) + ([done] + Rejected(calls, parse))), calls, parse)
  {
    var es := Events(block) + ([done] + Rejected(calls, parse));
    forall x ensures Trace(was + es, x) == Trace(was, x) + RejectionMarks(calls, parse, x) {
      TraceConcat(was, es, x);
      TraceParts(block, done, calls, parse, x);
    }
  }

  /** The calls as recorded: named as they came, with the arguments they parse to, none if they do not. */
  ghost predicate RecordedAs(given: seq<Call>, calls: seq<Call>, parse: string -> Parsed) {
    |calls| == |given|
    && forall i :: 0 <= i < |calls| ==>
         calls[i].name == given[i].name
         && calls[i].args == match parse(given[i].args) case Args(json) => json case Bad(_) => "{}"
  }

  /** The calls whose arguments are no JSON object. */
  function BadIds(given: seq<Call>, calls: seq<Call>, parse: string -> Parsed): set<string>
    requires |given| == |calls|
  {
    set n | 0 <= n < |calls| && parse(given[n].args).Bad? :: calls[n].id
  }

  /** What a sample records at once. */
  function Sampled(sampleId: string, end: StreamEnd, calls: seq<Call>): seq<Event> {
    Events(Sample(sampleId, end.reasoning, end.text, calls)) + [SampleCompleted(sampleId, end.reported)]
  }

  /** A start and one completion. */
  predicate Paired(marks: seq<Mark>) {
    |marks| == 2 && marks[0].Begun? && marks[1].Ended?
  }

  /** What becomes of call `n`: rejected for its arguments, answered on the spot, or run. */
  function Outcome(given: seq<Call>, calls: seq<Call>, parse: string -> Parsed, rulings: seq<Ruling>, capped: bool, allowAsks: bool,
                   schedule: seq<Tick>, n: nat): seq<Mark>
    requires n < |calls| == |given| == |rulings|
  {
    match parse(given[n].args)
    case Bad(reason) => [Begun, Ended("invalid JSON arguments: " + reason, true)]
    case Args(_) =>
      var stopped := Submission(calls[..n], BadIds(given, calls, parse), rulings[..n]).Some?;
      if Runs(rulings[n], stopped, capped, allowAsks) then [Begun] + FirstFinish(schedule, calls[n].id)
      else [Begun, AnswerFor(calls[n], rulings[n], stopped, capped, allowAsks)]
  }

  /** Each call of the sample gets its outcome, and nothing happens to any other. */
  ghost predicate HaveOutcomes(was: seq<Event>, log: seq<Event>, given: seq<Call>, calls: seq<Call>, parse: string -> Parsed,
                               rulings: seq<Ruling>, capped: bool, allowAsks: bool, schedule: seq<Tick>)
    requires |calls| == |given| == |rulings|
  {
    && (forall n :: 0 <= n < |calls| ==>
          Trace(log, calls[n].id) == Trace(was, calls[n].id) + Outcome(given, calls, parse, rulings, capped, allowAsks, schedule, n))
    && (forall x :: x !in CallIds(calls) ==> Trace(log, x) == Trace(was, x))
  }

  ghost predicate AllPaired(given: seq<Call>, calls: seq<Call>, parse: string -> Parsed, rulings: seq<Ruling>, capped: bool,
                            allowAsks: bool, schedule: seq<Tick>)
    requires |calls| == |given| == |rulings|
  {
    forall n :: 0 <= n < |calls| ==> Paired(Outcome(given, calls, parse, rulings, capped, allowAsks, schedule, n))
  }

  lemma {:induction false} MalformedAreBad(renamed: seq<Call>, parse: string -> Parsed, x: string)
    ensures x in Malformed(renamed, parse) <==> exists n :: 0 <= n < |renamed| && parse(renamed[n].args).Bad? && renamed[n].id == x
    decreases |renamed|
  {
    if renamed != [] {
      var k := |renamed| - 1;
      MalformedAreBad(renamed[..k], parse, x);
      if x in Malformed(renamed[..k], parse) {
        var n :| 0 <= n < k && parse(renamed[..k][n].args).Bad? && renamed[..k][n].id == x;
        assert renamed[n] == renamed[..k][n];
      }
      forall n | 0 <= n < k && parse(renamed[n].args).Bad? && renamed[n].id == x ensures x in Malformed(renamed[..k], parse) {
        assert renamed[..k][n] == renamed[n];
      }
    }
  }

  lemma MalformedIsBadIds(given: seq<Call>, renamed: seq<Call>, calls: seq<Call>, parse: string -> Parsed)
    requires Renamed(renamed, given) && CallIds(renamed) == CallIds(calls)
    ensures |calls| == |given| && Malformed(renamed, parse) == BadIds(given, calls, parse)
  {
    assert |calls| == |CallIds(calls)| == |renamed|;
    forall n | 0 <= n < |calls| ensures renamed[n].id == calls[n].id && renamed[n].args == given[n].args {
      assert CallIds(renamed)[n] == CallIds(calls)[n];
    }
    forall x ensures x in Malformed(renamed, parse) <==> x in BadIds(given, calls, parse) {
      MalformedAreBad(renamed, parse, x);
    }
  }

  lemma StepTraces(was: seq<Event>, mid: seq<Event>, log: seq<Event>, given: seq<Call>, renamed: seq<Call>, calls: seq<Call>,
                   parse: string -> Parsed, rulings: seq<Ruling>, capped: bool, allowAsks: bool, schedule: seq<Tick>)
    requires Renamed(renamed, given) && CallIds(renamed) == CallIds(calls) && calls == Requested(renamed, parse)
    requires |rulings| == |given| && Distinct(CallIds(calls))
    requires Rejects(was, mid, renamed, parse)
    requires Becomes(mid, log, calls, Malformed(renamed, parse), rulings, capped, allowAsks, schedule)
    ensures RecordedAs(given, calls, parse) && Malformed(renamed, parse) == BadIds(given, calls, parse)
    ensures HaveOutcomes(was, log, given, calls, parse, rulings, capped, allowAsks, schedule)
  {
    MalformedIsBadIds(given, renamed, calls, parse);
    forall n | 0 <= n < |calls|
      ensures Trace(log, calls[n].id) == Trace(was, calls[n].id) + Outcome(given, calls, parse, rulings, capped, allowAsks, schedule, n)
    {
      CallOutcome(given, renamed, calls, parse, rulings, capped, allowAsks, schedule, n);
      Thrice(Trace(was, calls[n].id), RejectionMarks(renamed, parse, calls[n].id),
             Fate(calls, Malformed(renamed, parse), rulings, capped, allowAsks, [Begun] + FirstFinish(schedule, calls[n].id), calls[n].id));
    }
    OtherCalls(was, mid, log, renamed, calls, parse, rulings, capped, allowAsks, schedule);
  }

  lemma Thrice<T>(a: seq<T>, b: seq<T>, c: seq<T>)
    ensures a + b + c == a + (b + c)
  {
  }

  lemma OtherCalls(was: seq<Event>, mid: seq<Event>, log: seq<Event>, renamed: seq<Call>, calls: seq<Call>,
                   parse: string -> Parsed, rulings: seq<Ruling>, capped: bool, allowAsks: bool, schedule: seq<Tick>)
    requires CallIds(renamed) == CallIds(calls) && |rulings| == |calls|
    requires Rejects(was, mid, renamed, parse)
    requires Becomes(mid, log, calls, Malformed(renamed, parse), rulings, capped, allowAsks, schedule)
    ensures forall x :: x !in CallIds(calls) ==> Trace(log, x) == Trace(was, x)
  {
    forall x | x !in CallIds(calls) ensures Trace(log, x) == Trace(was, x) {
      RejectsOnlyCalls(renamed, parse, x);
      FateOfCalls(calls, Malformed(renamed, parse), rulings, capped, allowAsks, [Begun] + FirstFinish(schedule, x), x);
    }
  }

  lemma CallOutcome(given: seq<Call>, renamed: seq<Call>, calls: seq<Call>, parse: string -> Parsed, rulings: seq<Ruling>, capped: bool,
                    allowAsks: bool, schedule: seq<Tick>, n: nat)
    requires Renamed(renamed, given) && CallIds(renamed) == CallIds(calls) && n < |calls| == |given| == |rulings| && Distinct(CallIds(calls))
    requires Malformed(renamed, parse) == BadIds(given, calls, parse)
    ensures RejectionMarks(renamed, parse, calls[n].id)
            + Fate(calls, Malformed(renamed, parse), rulings, capped, allowAsks, [Begun] + FirstFinish(schedule, calls[n].id), calls[n].id)
            == Outcome(given, calls, parse, rulings, capped, allowAsks, schedule, n)
  {
    assert CallIds(renamed)[n] == CallIds(calls)[n];
    RejectionOf(renamed, parse, n);
    FateOf(calls, Malformed(renamed, parse), rulings, capped, allowAsks, [Begun] + FirstFinish(schedule, calls[n].id), n);
    IdIsBad(given, calls, parse, n);
  }

  lemma IdIsBad(given: seq<Call>, calls: seq<Call>, parse: string -> Parsed, n: nat)
    requires n < |calls| == |given| && Distinct(CallIds(calls))
    ensures calls[n].id in BadIds(given, calls, parse) <==> parse(given[n].args).Bad?
  {
    if calls[n].id in BadIds(given, calls, parse) {
      var m :| 0 <= m < |calls| && parse(given[m].args).Bad? && calls[m].id == calls[n].id;
      assert CallIds(calls)[m] == CallIds(calls)[n];
    }
  }

  lemma PairedIfEnded(given: seq<Call>, calls: seq<Call>, parse: string -> Parsed, rulings: seq<Ruling>, capped: bool, allowAsks: bool,
                  schedule: seq<Tick>, ran: seq<string>, ok: bool)
    requires |calls| == |given| == |rulings| && Distinct(CallIds(calls))
    requires ran == Prepared(calls, BadIds(given, calls, parse), rulings, capped, allowAsks)
    requires ok <==> forall x :: x in ran ==> FirstFinish(schedule, x) != []
    ensures ok <==> AllPaired(given, calls, parse, rulings, capped, allowAsks, schedule)
    ensures capped ==> ran == []
  {
    var invalid := BadIds(given, calls, parse);
    forall n | 0 <= n < |calls|
      ensures Paired(Outcome(given, calls, parse, rulings, capped, allowAsks, schedule, n))
              <==> (calls[n].id in ran ==> FirstFinish(schedule, calls[n].id) != [])
    {
      IdIsBad(given, calls, parse, n);
      PreparedAt(calls, invalid, rulings, capped, allowAsks, n);
      FinishIsOne(schedule, calls[n].id);
    }
    forall x | x in ran ensures exists n :: 0 <= n < |calls| && calls[n].id == x { PreparedAreCalls(calls, invalid, rulings, capped, allowAsks, x); }
    if capped { NoneRunCapped(calls, invalid, rulings, allowAsks); }
  }

  /* ---- the tool tasks ---- */

  /** What a call first finishes with. */
  function FirstFinish(schedule: seq<Tick>, x: string): seq<Mark> {
    if schedule == [] then []
    else
      var earlier, last := FirstFinish(schedule[..|schedule| - 1], x), schedule[|schedule| - 1];
      if earlier != [] then earlier
      else match last
        case Finish(c, result, isError) => if c == x then [Ended(result, isError)] else []
        case Report(_) => []
  }

  lemma {:induction false} FinishIsOne(schedule: seq<Tick>, x: string)
    ensures FirstFinish(schedule, x) == [] || (|FirstFinish(schedule, x)| == 1 && FirstFinish(schedule, x)[0].Ended?)
  {
    if schedule != [] { FinishIsOne(schedule[..|schedule| - 1], x); }
  }

  /** It is the first tick of the schedule that ends the call. */
  lemma {:induction false} FinishIsFirst(schedule: seq<Tick>, x: string, i: nat)
    requires i < |schedule| && schedule[i].Finish? && schedule[i].callId == x
    requires forall k :: 0 <= k < i && schedule[k].Finish? ==> schedule[k].callId != x
    ensures FirstFinish(schedule, x) == [Ended(schedule[i].result, schedule[i].isError)]
    decreases |schedule|
  {
    var n := |schedule| - 1;
    if i < n { FinishIsFirst(schedule[..n], x, i); }
    else { NoFinish(schedule[..n], x); }
  }

  lemma {:induction false} NoFinish(schedule: seq<Tick>, x: string)
    requires forall k :: 0 <= k < |schedule| && schedule[k].Finish? ==> schedule[k].callId != x
    ensures FirstFinish(schedule, x) == []
  {
    if schedule != [] { NoFinish(schedule[..|schedule| - 1], x); }
  }

  function RunMarks(prepared: seq<string>, schedule: seq<Tick>, x: string): seq<Mark> {
    if x in prepared then [Begun] + FirstFinish(schedule, x) else []
  }

  /** Every prepared call is started, and completed with what it first finishes with, if it does;
      nothing happens to any other. */
  ghost predicate HaveRun(was: seq<Event>, log: seq<Event>, prepared: seq<string>, schedule: seq<Tick>) {
    forall x :: Trace(log, x) == Trace(was, x) + RunMarks(prepared, schedule, x)
  }

  /** Every prepared call has started; those that are not running have ended, with what they first
      finished with. */
  ghost predicate Underway(was: seq<Event>, log: seq<Event>, prepared: seq<string>, running: set<string>, past: seq<Tick>) {
    && (forall x :: x in running <==> x in prepared && FirstFinish(past, x) == [])
    && (forall x :: Trace(log, x) == Trace(was, x) + RunMarks(prepared, past, x))
  }

  lemma FinishNext(past: seq<Tick>, tick: Tick, x: string)
    ensures FirstFinish(past + [tick], x) ==
            if FirstFinish(past, x) == [] && tick.Finish? && tick.callId == x then [Ended(tick.result, tick.isError)] else FirstFinish(past, x)
  {
    assert (past + [tick])[..|past|] == past;
  }

  lemma IdleUnderway(was: seq<Event>, before: seq<Event>, log: seq<Event>, prepared: seq<string>, running: set<string>, past: seq<Tick>, tick: Tick)
    requires Underway(was, before, prepared, running, past) && (tick.Report? || tick.callId !in running)
    requires forall x :: Trace(log, x) == Trace(before, x)
    ensures Underway(was, log, prepared, running, past + [tick])
  {
    forall x ensures RunMarks(prepared, past + [tick], x) == RunMarks(prepared, past, x) && (x in running <==> x in prepared && FirstFinish(past + [tick], x) == []) {
      FinishNext(past, tick, x);
    }
  }

  lemma FinishUnderway(was: seq<Event>, log: seq<Event>, prepared: seq<string>, running: set<string>, past: seq<Tick>, tick: Tick)
    requires Underway(was, log, prepared, running, past) && tick.Finish? && tick.callId in running
    ensures Underway(was, log + [ToolCallCompleted(tick.callId, tick.result, tick.isError)], prepared, running - {tick.callId}, past + [tick])
  {
    var e := ToolCallCompleted(tick.callId, tick.result, tick.isError);
    forall x
      ensures Trace(log + [e], x) == Trace(was, x) + RunMarks(prepared, past + [tick], x)
      ensures x in running - {tick.callId} <==> x in prepared && FirstFinish(past + [tick], x) == []
    {
      TraceOne(log, e, x);
      FinishNext(past, tick, x);
      if x == tick.callId { Thrice(Trace(was, x), [Begun], MarkOf(e, x)); assert [Begun] + [] == [Begun]; }
      else { assert Trace(log, x) + [] == Trace(log, x); }
    }
  }

  lemma {:induction false} StartingIsPlain(ids: seq<string>)
    ensures NoParts(Starting(ids)) && MidTurn(Starting(ids))
  {
    if ids != [] { StartingIsPlain(ids[..|ids| - 1]); }
  }

  lemma StartsUnderway(was: seq<Event>, prepared: seq<string>)
    requires Distinct(prepared)
    ensures Underway(was, was + Starting(prepared), prepared, set c | c in prepared, [])
  {
    forall x ensures Trace(was + Starting(prepared), x) == Trace(was, x) + RunMarks(prepared, [], x) {
      TraceConcat(was, Starting(prepared), x);
      TraceStarting(prepared, x);
      assert [Begun] + [] == [Begun];
    }
  }

  lemma AllEnded(was: seq<Event>, log: seq<Event>, prepared: seq<string>, running: set<string>, schedule: seq<Tick>)
    requires Underway(was, log, prepared, running, schedule)
    ensures HaveRun(was, log, prepared, schedule)
    ensures running == {} <==> forall x :: x in prepared ==> FirstFinish(schedule, x) != []
  {
  }

  lemma NothingRuns(log: seq<Event>, schedule: seq<Tick>)
    ensures HaveRun(log, log, [], schedule)
  {
  }

  /** The first `n` calls of a batch are rejected, prepared or settled. */
  ghost predicate SettledUpTo(was: seq<Event>, log: seq<Event>, calls: seq<Call>, n: nat, invalid: set<string>, capped: bool,
                              rulings: seq<Ruling>, allowAsks: bool, prepared: seq<string>, output: Option<string>)
    requires n <= |calls| == |rulings|
  {
    && prepared == Prepared(calls[..n], invalid, rulings[..n], capped, allowAsks)
    && Adds(was, log, calls[..n], invalid, rulings[..n], capped, allowAsks)
    && output == Submission(calls[..n], invalid, rulings[..n])
  }

  lemma NothingSettled(was: seq<Event>, calls: seq<Call>, invalid: set<string>, capped: bool, rulings: seq<Ruling>, allowAsks: bool)
    requires |calls| == |rulings|
    ensures SettledUpTo(was, was, calls, 0, invalid, capped, rulings, allowAsks, [], None)
  {
    AddsNone(was, invalid, capped, allowAsks);
  }

  lemma AllSettled(was: seq<Event>, log: seq<Event>, calls: seq<Call>, invalid: set<string>, capped: bool, rulings: seq<Ruling>,
                   allowAsks: bool, prepared: seq<string>, output: Option<string>)
    requires |calls| == |rulings| && SettledUpTo(was, log, calls, |calls|, invalid, capped, rulings, allowAsks, prepared, output)
    ensures prepared == Prepared(calls, invalid, rulings, capped, allowAsks)
    ensures Adds(was, log, calls, invalid, rulings, capped, allowAsks) && output == Submission(calls, invalid, rulings)
  {
    assert calls[..|calls|] == calls && rulings[..|rulings|] == rulings;
  }

  /* ---- what becomes of the calls of a batch ---- */

  /** The completion of a call that is answered on the spot: the submitted value without error, and
      every refusal, with its reason, as an error. */
  function AnswerFor(call: Call, r: Ruling, stopped: bool, capped: bool, allowAsks: bool): (m: Mark)
    ensures m.Ended? && (!m.isError <==> !stopped && Submits(r))
    ensures !stopped && Submits(r) ==> m.result == r.output.value.json
  {
    if stopped then Ended(COMPLETED_RESULT, true)
    else if Submits(r) then Ended(r.output.value.json, false)
    else Ended(Refusal(call, r, capped, allowAsks), true)
  }

  /** Why a call is refused before any output is submitted: the first reason that applies. */
  function Refusal(call: Call, r: Ruling, capped: bool, allowAsks: bool): string {
    if r.output.Some? then (match r.output.value case Bad(reason) => "invalid output: " + reason case Args(_) => "")
    else if capped then "not executed: max steps reached"
    else if !r.known then "unknown tool '" + call.name + "'"
    else if r.denial.Some? then "denied by hook: " + r.denial.value
    else match r.verdict
      case Deny => "denied by permissions: " + call.name
      case Ask =>
        if !allowAsks then "child agents cannot ask humans; use send() to message the parent"
        else if !r.approved then "denied by user"
        else ProblemOf(r)
      case Allow => ProblemOf(r)
  }

  function ProblemOf(r: Ruling): string {
    match r.problem case Some(why) => why case None => ""
  }

  /** What becomes of the call `x`: nothing yet if it was rejected, `ran` if it runs, else its answer. */
  function Fate(calls: seq<Call>, invalid: set<string>, rulings: seq<Ruling>, capped: bool, allowAsks: bool, ran: seq<Mark>, x: string): seq<Mark>
    requires |calls| == |rulings|
  {
    if calls == [] then []
    else
      var n := |calls| - 1;
      if calls[n].id != x then Fate(calls[..n], invalid, rulings[..n], capped, allowAsks, ran, x)
      else if x in invalid then []
      else
        var stopped := Submission(calls[..n], invalid, rulings[..n]).Some?;
        if Runs(rulings[n], stopped, capped, allowAsks) then ran
        else [Begun, AnswerFor(calls[n], rulings[n], stopped, capped, allowAsks)]
  }

  /** The calls that run, in order. */
  function Prepared(calls: seq<Call>, invalid: set<string>, rulings: seq<Ruling>, capped: bool, allowAsks: bool): seq<string>
    requires |calls| == |rulings|
  {
    if calls == [] then []
    else
      var n := |calls| - 1;
      var earlier := Prepared(calls[..n], invalid, rulings[..n], capped, allowAsks);
      if calls[n].id !in invalid && Runs(rulings[n], Submission(calls[..n], invalid, rulings[..n]).Some?, capped, allowAsks)
      then earlier + [calls[n].id] else earlier
  }

  lemma {:induction false} FateOf(calls: seq<Call>, invalid: set<string>, rulings: seq<Ruling>, capped: bool, allowAsks: bool, ran: seq<Mark>, n: nat)
    requires n < |calls| == |rulings| && Distinct(CallIds(calls))
    ensures var stopped := Submission(calls[..n], invalid, rulings[..n]).Some?;
            Fate(calls, invalid, rulings, capped, allowAsks, ran, calls[n].id) ==
            if calls[n].id in invalid then [] else if Runs(rulings[n], stopped, capped, allowAsks) then ran
            else [Begun, AnswerFor(calls[n], rulings[n], stopped, capped, allowAsks)]
    decreases |calls|
  {
    var k := |calls| - 1;
    if n < k {
      CallsSplit(calls);
      FateOf(calls[..k], invalid, rulings[..k], capped, allowAsks, ran, n);
      assert calls[..k][..n] == calls[..n] && rulings[..k][..n] == rulings[..n];
    }
  }

  lemma {:induction false} FateOfCalls(calls: seq<Call>, invalid: set<string>, rulings: seq<Ruling>, capped: bool, allowAsks: bool, ran: seq<Mark>, x: string)
    requires |calls| == |rulings| && x !in CallIds(calls)
    ensures Fate(calls, invalid, rulings, capped, allowAsks, ran, x) == []
    decreases |calls|
  {
    if calls != [] {
      var n := |calls| - 1;
      assert CallIds(calls) == CallIds(calls[..n]) + [calls[n].id];
      FateOfCalls(calls[..n], invalid, rulings[..n], capped, allowAsks, ran, x);
    }
  }

  lemma {:induction false} PreparedAreCalls(calls: seq<Call>, invalid: set<string>, rulings: seq<Ruling>, capped: bool, allowAsks: bool, x: string)
    requires |calls| == |rulings| && x in Prepared(calls, invalid, rulings, capped, allowAsks)
    ensures x in CallIds(calls) && exists n :: 0 <= n < |calls| && calls[n].id == x
    decreases |calls|
  {
    var n := |calls| - 1;
    assert CallIds(calls) == CallIds(calls[..n]) + [calls[n].id];
    if x in Prepared(calls[..n], invalid, rulings[..n], capped, allowAsks) {
      PreparedAreCalls(calls[..n], invalid, rulings[..n], capped, allowAsks, x);
      var m :| 0 <= m < n && calls[..n][m].id == x;
      assert calls[m].id == x;
    }
  }

  /** A call is prepared exactly if it was not rejected and its ruling lets it run. */
  lemma {:induction false} PreparedAt(calls: seq<Call>, invalid: set<string>, rulings: seq<Ruling>, capped: bool, allowAsks: bool, n: nat)
    requires n < |calls| == |rulings| && Distinct(CallIds(calls))
    ensures calls[n].id in Prepared(calls, invalid, rulings, capped, allowAsks) <==>
            calls[n].id !in invalid && Runs(rulings[n], Submission(calls[..n], invalid, rulings[..n]).Some?, capped, allowAsks)
    decreases |calls|
  {
    var k := |calls| - 1;
    NextCall(calls, k);
    if n < k {
      CallsSplit(calls);
      PreparedAt(calls[..k], invalid, rulings[..k], capped, allowAsks, n);
      assert calls[..k][..n] == calls[..n] && rulings[..k][..n] == rulings[..n];
    } else if calls[k].id in Prepared(calls[..k], invalid, rulings[..k], capped, allowAsks) {
      PreparedAreCalls(calls[..k], invalid, rulings[..k], capped, allowAsks, calls[k].id);
    }
  }

  lemma {:induction false} PreparedIsDistinct(calls: seq<Call>, invalid: set<string>, rulings: seq<Ruling>, capped: bool, allowAsks: bool)
    requires |calls| == |rulings| && Distinct(CallIds(calls))
    ensures Distinct(Prepared(calls, invalid, rulings, capped, allowAsks))
    decreases |calls|
  {
    if calls != [] {
      var n := |calls| - 1;
      NextCall(calls, n);
      CallsSplit(calls);
      PreparedIsDistinct(calls[..n], invalid, rulings[..n], capped, allowAsks);
      var earlier := Prepared(calls[..n], invalid, rulings[..n], capped, allowAsks);
      forall x | x in earlier ensures x != calls[n].id { PreparedAreCalls(calls[..n], invalid, rulings[..n], capped, allowAsks, x); }
      NoDupJoin(earlier, [calls[n].id]);
    }
  }

  lemma {:induction false} NoneRunCapped(calls: seq<Call>, invalid: set<string>, rulings: seq<Ruling>, allowAsks: bool)
    requires |calls| == |rulings|
    ensures Prepared(calls, invalid, rulings, true, allowAsks) == []
  {
    if calls != [] { NoneRunCapped(calls[..|calls| - 1], invalid, rulings[..|calls| - 1], allowAsks); }
  }

  /** What the run of a batch adds to what its answers on the spot did. */
  lemma {:induction false} FateAndRun(calls: seq<Call>, invalid: set<string>, rulings: seq<Ruling>, capped: bool, allowAsks: bool, ran: seq<Mark>, x: string)
    requires |calls| == |rulings| && Distinct(CallIds(calls))
    ensures Fate(calls, invalid, rulings, capped, allowAsks, ran, x) ==
            Fate(calls, invalid, rulings, capped, allowAsks, [], x) + if x in Prepared(calls, invalid, rulings, capped, allowAsks) then ran else []
  {
    if x in CallIds(calls) {
      var n :| 0 <= n < |calls| && CallIds(calls)[n] == x;
      FateOf(calls, invalid, rulings, capped, allowAsks, ran, n);
      FateOf(calls, invalid, rulings, capped, allowAsks, [], n);
      PreparedAt(calls, invalid, rulings, capped, allowAsks, n);
    } else {
      FateOfCalls(calls, invalid, rulings, capped, allowAsks, ran, x);
      FateOfCalls(calls, invalid, rulings, capped, allowAsks, [], x);
      if x in Prepared(calls, invalid, rulings, capped, allowAsks) { PreparedAreCalls(calls, invalid, rulings, capped, allowAsks, x); }
    }
  }

  /** Each call that was not rejected is answered on the spot, or started and completed with what it
      first finishes with; nothing happens to any other. */
  ghost predicate Becomes(was: seq<Event>, log: seq<Event>, calls: seq<Call>, invalid: set<string>, rulings: seq<Ruling>, capped: bool,
                          allowAsks: bool, schedule: seq<Tick>)
    requires |calls| == |rulings|
  {
    forall x :: Trace(log, x) == Trace(was, x) + Fate(calls, invalid, rulings, capped, allowAsks, [Begun] + FirstFinish(schedule, x), x)
  }

  /** The malformed calls are rejected, and nothing happens to any other. */
  ghost predicate Rejects(was: seq<Event>, log: seq<Event>, calls: seq<Call>, parse: string -> Parsed) {
    forall x :: Trace(log, x) == Trace(was, x) + RejectionMarks(calls, parse, x)
  }

  lemma BatchTraces(was: seq<Event>, mid: seq<Event>, log: seq<Event>, calls: seq<Call>, invalid: set<string>, rulings: seq<Ruling>,
                    capped: bool, allowAsks: bool, schedule: seq<Tick>)
    requires |calls| == |rulings| && Distinct(CallIds(calls))
    requires Adds(was, mid, calls, invalid, rulings, capped, allowAsks)
    requires HaveRun(mid, log, Prepared(calls, invalid, rulings, capped, allowAsks), schedule)
    ensures Becomes(was, log, calls, invalid, rulings, capped, allowAsks, schedule)
  {
    forall x ensures Trace(log, x) == Trace(was, x) + Fate(calls, invalid, rulings, capped, allowAsks, [Begun] + FirstFinish(schedule, x), x) {
      FateAndRun(calls, invalid, rulings, capped, allowAsks, [Begun] + FirstFinish(schedule, x), x);
      Thrice(Trace(was, x), Fate(calls, invalid, rulings, capped, allowAsks, [], x),
             RunMarks(Prepared(calls, invalid, rulings, capped, allowAsks), schedule, x));
    }
  }

  /** The answers so far, and nothing else. */
  ghost predicate Adds(was: seq<Event>, log: seq<Event>, calls: seq<Call>, invalid: set<string>, rulings: seq<Ruling>, capped: bool, allowAsks: bool)
    requires |calls| == |rulings|
  {
    forall x :: Trace(log, x) == Trace(was, x) + Fate(calls, invalid, rulings, capped, allowAsks, [], x)
  }

  lemma AddsNone(log: seq<Event>, invalid: set<string>, capped: bool, allowAsks: bool)
    ensures Adds(log, log, [], invalid, [], capped, allowAsks)
  {
    forall x ensures Trace(log, x) == Trace(log, x) + Fate([], invalid, [], capped, allowAsks, [], x) { }
  }

  /** What is answered on the spot of one call. */
  function AnswersOne(calls: seq<Call>, invalid: set<string>, rulings: seq<Ruling>, capped: bool, allowAsks: bool, n: nat): seq<Mark>
    requires n < |calls| == |rulings|
  {
    var stopped := Submission(calls[..n], invalid, rulings[..n]).Some?;
    if calls[n].id in invalid || Runs(rulings[n], stopped, capped, allowAsks) then []
    else [Begun, AnswerFor(calls[n], rulings[n], stopped, capped, allowAsks)]
  }

  lemma OneMore(calls: seq<Call>, invalid: set<string>, rulings: seq<Ruling>, capped: bool, allowAsks: bool, n: nat)
    requires n < |calls| == |rulings|
    ensures Prepared(calls[..n + 1], invalid, rulings[..n + 1], capped, allowAsks) ==
            Prepared(calls[..n], invalid, rulings[..n], capped, allowAsks)
            + if calls[n].id !in invalid && Runs(rulings[n], Submission(calls[..n], invalid, rulings[..n]).Some?, capped, allowAsks)
              then [calls[n].id] else []
    ensures Submission(calls[..n + 1], invalid, rulings[..n + 1]) ==
            if Submission(calls[..n], invalid, rulings[..n]).Some? then Submission(calls[..n], invalid, rulings[..n])
            else if calls[n].id !in invalid && Submits(rulings[n]) then Some(rulings[n].output.value.json) else None
  {
    assert rulings[..n + 1][..n] == rulings[..n] && calls[..n + 1][..n] == calls[..n];
  }

  lemma FateNext(calls: seq<Call>, invalid: set<string>, rulings: seq<Ruling>, capped: bool, allowAsks: bool, n: nat, x: string)
    requires n < |calls| == |rulings|
    ensures Fate(calls[..n + 1], invalid, rulings[..n + 1], capped, allowAsks, [], x) ==
            if x == calls[n].id then AnswersOne(calls, invalid, rulings, capped, allowAsks, n)
            else Fate(calls[..n], invalid, rulings[..n], capped, allowAsks, [], x)
  {
    assert rulings[..n + 1][..n] == rulings[..n] && calls[..n + 1][..n] == calls[..n];
  }

  lemma AddsNext(was: seq<Event>, before: seq<Event>, log: seq<Event>, calls: seq<Call>, invalid: set<string>, rulings: seq<Ruling>,
                 capped: bool, allowAsks: bool, n: nat)
    requires n < |calls| == |rulings| && calls[n].id !in CallIds(calls[..n])
    requires Adds(was, before, calls[..n], invalid, rulings[..n], capped, allowAsks)
    requires Gains(before, log, calls[n].id, AnswersOne(calls, invalid, rulings, capped, allowAsks, n))
    ensures Adds(was, log, calls[..n + 1], invalid, rulings[..n + 1], capped, allowAsks)
  {
    FateOfCalls(calls[..n], invalid, rulings[..n], capped, allowAsks, [], calls[n].id);
    forall x ensures Trace(log, x) == Trace(was, x) + Fate(calls[..n + 1], invalid, rulings[..n + 1], capped, allowAsks, [], x) {
      FateNext(calls, invalid, rulings, capped, allowAsks, n, x);
      assert Trace(was, x) + [] == Trace(was, x);
      assert Trace(before, x) + [] == Trace(before, x);
    }
  }

  predicate Submits(r: Ruling) {
    r.output.Some? && r.output.value.Args?
  }

  /** A tool body runs only for a known, permitted call with valid arguments, before any
      submitted output and not on the last permitted step. */
  predicate Runs(r: Ruling, stopped: bool, capped: bool, allowAsks: bool) {
    && !stopped && !capped && r.output.None? && r.known && r.denial.None? && r.problem.None?
    && (r.verdict == Allow || (r.verdict == Ask && allowAsks && r.approved))
  }

  /** The first valid submitted output. */
  function Submission(calls: seq<Call>, invalid: set<string>, rulings: seq<Ruling>): Option<string>
    requires |calls| == |rulings|
  {
    if calls == [] then None
    else
      var n := |calls| - 1;
      var earlier := Submission(calls[..n], invalid, rulings[..n]);
      if earlier.Some? then earlier
      else if calls[n].id !in invalid && Submits(rulings[n]) then Some(rulings[n].output.value.json)
      else None
  }

  /** The call submits an output, and may. */
  predicate MaySubmit(calls: seq<Call>, invalid: set<string>, rulings: seq<Ruling>, n: nat)
    requires n < |calls| == |rulings|
  {
    calls[n].id !in invalid && rulings[n].output.Some? && rulings[n].output.value.Args?
  }

  lemma SameSubmits(calls: seq<Call>, invalid: set<string>, rulings: seq<Ruling>)
    requires |calls| == |rulings| > 0
    ensures var last := |calls| - 1;
            forall n :: 0 <= n < last ==> (MaySubmit(calls, invalid, rulings, n) <==> MaySubmit(calls[..last], invalid, rulings[..last], n))
  {
  }

  /** A turn's output is that of the first call that submits a valid one. */
  lemma {:induction false} SubmissionIsFirst(calls: seq<Call>, invalid: set<string>, rulings: seq<Ruling>)
    requires |calls| == |rulings|
    ensures Submission(calls, invalid, rulings).None? <==> forall n :: 0 <= n < |calls| ==> !MaySubmit(calls, invalid, rulings, n)
    ensures forall n :: 0 <= n < |calls| && MaySubmit(calls, invalid, rulings, n) && (forall k :: 0 <= k < n ==> !MaySubmit(calls, invalid, rulings, k))
              ==> Submission(calls, invalid, rulings) == Some(rulings[n].output.value.json)
    decreases |calls|
  {
    if calls != [] {
      var last := |calls| - 1;
      SubmissionIsFirst(calls[..last], invalid, rulings[..last]);
      SameSubmits(calls, invalid, rulings);
      assert MaySubmit(calls, invalid, rulings, last) <==> calls[last].id !in invalid && Submits(rulings[last]);
    }
  }

  lemma NextCall(calls: seq<Call>, n: nat)
    requires n < |calls| && Distinct(CallIds(calls))
    ensures CallIds(calls[..n + 1]) == CallIds(calls[..n]) + [calls[n].id]
    ensures calls[n].id !in CallIds(calls[..n])
  {
    assert forall i :: 0 <= i < |calls| ==> CallIds(calls)[i] == calls[i].id;
  }

  lemma AddNew(calls: seq<Call>, call: Call, known: set<string>)
    requires AllNew(calls, known) && call.id !in known + IdSet(calls)
    ensures AllNew(calls + [call], known) && IdSet(calls + [call]) == IdSet(calls) + {call.id}
    ensures CallIds(calls + [call]) == CallIds(calls) + [call.id]
  {
    assert CallIds(calls + [call]) == CallIds(calls) + [call.id];
  }
}
