/** Journals as the turn loop writes them: whole sample blocks between single events.  Every
    request built from such a journal, through any compaction window, passes the pair checker. */
module Samples {
  import opened Basics
  import opened History
  import opened Assembly
  import opened Pairs

  /** What one append of the turn loop puts in the journal. */
  datatype Item =
    | Sample(id: string, thoughts: seq<Reasoning>, text: string, calls: seq<Call>)
    | Plain(event: Event)

  function ThoughtEvents(id: string, thoughts: seq<Reasoning>): seq<Event> {
    if thoughts == [] then []
    else ThoughtEvents(id, thoughts[..|thoughts| - 1])
         + [ReasoningPart(id, thoughts[|thoughts| - 1].text, thoughts[|thoughts| - 1].signature)]
  }

  function CallEvents(id: string, calls: seq<Call>): seq<Event> {
    if calls == [] then []
    else var c := calls[|calls| - 1]; CallEvents(id, calls[..|calls| - 1]) + [ToolCallRequested(id, c.id, c.name, c.args)]
  }

  function TextEvents(id: string, text: string): seq<Event> {
    if text == "" then [] else [TextPart(id, text)]
  }

  function Events(item: Item): seq<Event> {
    match item
    case Sample(id, thoughts, text, calls) => ThoughtEvents(id, thoughts) + TextEvents(id, text) + CallEvents(id, calls)
    case Plain(e) => [e]
  }

  function Flatten(items: seq<Item>): seq<Event> {
    if items == [] then [] else Flatten(items[..|items| - 1]) + Events(items[|items| - 1])
  }

  function ItemCalls(item: Item): seq<string> {
    match item case Sample(_, _, _, calls) => CallIds(calls) case Plain(_) => []
  }

  function Calls(items: seq<Item>): seq<string> {
    if items == [] then [] else Calls(items[..|items| - 1]) + ItemCalls(items[|items| - 1])
  }

  /** The calls whose completion follows their request. */
  function Done(items: seq<Item>): set<string> {
    if items == [] then {}
    else
      var before := items[..|items| - 1];
      match items[|items| - 1]
      case Plain(ToolCallCompleted(c, _, _)) => if c in Calls(before) then Done(before) + {c} else Done(before)
      case _ => Done(before)
  }

  predicate IsPart(e: Event) {
    e.TextPart? || e.ReasoningPart? || e.ToolCallRequested?
  }

  /** Parts occur only inside blocks, and no two blocks share a sample id or a call id. */
  ghost predicate WholeBlocks(items: seq<Item>) {
    PartsInBlocks(items) && SamplesDistinct(items) && Distinct(Calls(items))
  }

  ghost predicate PartsInBlocks(items: seq<Item>) {
    forall i :: 0 <= i < |items| && items[i].Plain? ==> !IsPart(items[i].event)
  }

  ghost predicate SamplesDistinct(items: seq<Item>) {
    forall i, k :: 0 <= i < k < |items| && items[i].Sample? && items[k].Sample? ==> items[i].id != items[k].id
  }

  /* ---- one block folds into one group of drafts ---- */

  function Replies(calls: seq<Call>): (r: seq<Draft>)
    ensures |r| == |calls|
    ensures forall i :: 0 <= i < |calls| ==> r[i] == Reply(calls[i].id, "", false, false)
  {
    seq(|calls|, i requires 0 <= i < |calls| => Reply(calls[i].id, "", false, false))
  }

  function Group(id: string, thoughts: seq<Reasoning>, text: string, calls: seq<Call>): seq<Draft> {
    if thoughts == [] && text == "" && calls == [] then []
    else [Assistant(id, text, thoughts, calls)] + Replies(calls)
  }

  /** A part of a sample patches that sample's own group and nothing else. */
  lemma PartOnGroup(ds: seq<Draft>, id: string, thoughts: seq<Reasoning>, text: string, calls: seq<Call>, p: Part)
    requires !HasSample(ds, id)
    ensures OnPart(ds + Group(id, thoughts, text, calls), id, p)
            == ds + ([AddPart(Assistant(id, text, thoughts, calls), p)] + Replies(calls))
  {
    var g := Group(id, thoughts, text, calls);
    var whole := ds + ([Assistant(id, text, thoughts, calls)] + Replies(calls));
    if g == [] {
      assert ds + g == ds;
      assert WithSample(ds, id) == whole;
    } else {
      assert whole == ds + g;
      assert IsSample(whole[|ds|], id);
    }
    var out := ds + ([AddPart(Assistant(id, text, thoughts, calls), p)] + Replies(calls));
    assert Amend(whole, id, p) == out;
  }

  lemma FoldSnoc(ds: seq<Draft>, es: seq<Event>, e: Event)
    ensures Fold(ds, es + [e]) == OnEvent(Fold(ds, es), e)
  {
    assert (es + [e])[..|es|] == es;
  }

  lemma {:induction false} FoldThoughts(ds: seq<Draft>, id: string, thoughts: seq<Reasoning>)
    requires !HasSample(ds, id)
    ensures Fold(ds, ThoughtEvents(id, thoughts)) == ds + Group(id, thoughts, "", [])
  {
    if thoughts == [] {
      assert ds + [] == ds;
    } else {
      var front, last := thoughts[..|thoughts| - 1], thoughts[|thoughts| - 1];
      FoldThoughts(ds, id, front);
      FoldSnoc(ds, ThoughtEvents(id, front), ReasoningPart(id, last.text, last.signature));
      ThoughtOnGroup(ds, id, thoughts);
    }
  }

  lemma ThoughtOnGroup(ds: seq<Draft>, id: string, thoughts: seq<Reasoning>)
    requires !HasSample(ds, id) && thoughts != []
    ensures var last := thoughts[|thoughts| - 1];
            OnEvent(ds + Group(id, thoughts[..|thoughts| - 1], "", []), ReasoningPart(id, last.text, last.signature))
            == ds + Group(id, thoughts, "", [])
  {
    var front, last := thoughts[..|thoughts| - 1], thoughts[|thoughts| - 1];
    PartOnGroup(ds, id, front, "", [], Thought(last));
    assert front + [last] == thoughts;
  }

  lemma FoldText(ds: seq<Draft>, id: string, thoughts: seq<Reasoning>, text: string)
    requires !HasSample(ds, id)
    ensures Fold(ds + Group(id, thoughts, "", []), TextEvents(id, text)) == ds + Group(id, thoughts, text, [])
  {
    if text != "" {
      PartOnGroup(ds, id, thoughts, "", [], Text(text));
      var es := TextEvents(id, text);
      assert es[..|es| - 1] == [];
      assert "" + text == text;
    }
  }

  ghost predicate NoReply(ds: seq<Draft>, calls: seq<Call>) {
    forall i :: 0 <= i < |calls| ==> !HasReply(ds, calls[i].id)
  }

  lemma AddReply(ds: seq<Draft>, id: string, thoughts: seq<Reasoning>, text: string, calls: seq<Call>, c: Call)
    requires !HasReply(ds, c.id) && forall i :: 0 <= i < |calls| ==> calls[i].id != c.id
    ensures var n := ds + ([Assistant(id, text, thoughts, calls + [c])] + Replies(calls));
            !HasReply(n, c.id) && n + [Reply(c.id, "", false, false)] == ds + Group(id, thoughts, text, calls + [c])
  {
    assert Replies(calls + [c]) == Replies(calls) + [Reply(c.id, "", false, false)];
  }

  lemma CallOnGroup(ds: seq<Draft>, id: string, thoughts: seq<Reasoning>, text: string, front: seq<Call>, c: Call)
    requires !HasSample(ds, id) && !HasReply(ds, c.id) && forall i :: 0 <= i < |front| ==> front[i].id != c.id
    ensures OnEvent(ds + Group(id, thoughts, text, front), ToolCallRequested(id, c.id, c.name, c.args))
            == ds + Group(id, thoughts, text, front + [c])
  {
    PartOnGroup(ds, id, thoughts, text, front, Tool(c));
    AddReply(ds, id, thoughts, text, front, c);
  }

  lemma FoldNextCall(ds: seq<Draft>, start: seq<Draft>, es: seq<Event>, id: string, thoughts: seq<Reasoning>, text: string,
                     front: seq<Call>, c: Call)
    requires Fold(start, es) == ds + Group(id, thoughts, text, front)
    requires !HasSample(ds, id) && !HasReply(ds, c.id) && forall i :: 0 <= i < |front| ==> front[i].id != c.id
    ensures Fold(start, es + [ToolCallRequested(id, c.id, c.name, c.args)]) == ds + Group(id, thoughts, text, front + [c])
  {
    FoldSnoc(start, es, ToolCallRequested(id, c.id, c.name, c.args));
    CallOnGroup(ds, id, thoughts, text, front, c);
  }

  lemma {:induction false} FoldCalls(ds: seq<Draft>, id: string, thoughts: seq<Reasoning>, text: string, calls: seq<Call>)
    requires !HasSample(ds, id) && NoReply(ds, calls) && Distinct(CallIds(calls))
    ensures Fold(ds + Group(id, thoughts, text, []), CallEvents(id, calls)) == ds + Group(id, thoughts, text, calls)
  {
    if calls != [] {
      var front, c := calls[..|calls| - 1], calls[|calls| - 1];
      CallsSplit(calls);
      FoldCalls(ds, id, thoughts, text, front);
      FoldNextCall(ds, ds + Group(id, thoughts, text, []), CallEvents(id, front), id, thoughts, text, front, c);
      assert calls == front + [c];
    }
  }

  lemma CallsSplit(calls: seq<Call>)
    requires calls != [] && Distinct(CallIds(calls))
    ensures Distinct(CallIds(calls[..|calls| - 1]))
    ensures forall i :: 0 <= i < |calls| - 1 ==> calls[i].id != calls[|calls| - 1].id
  {
    var ids := CallIds(calls);
    assert forall i :: 0 <= i < |calls| ==> ids[i] == calls[i].id;
  }

  /** A fresh block adds its assistant message and one open reply for each call. */
  lemma FoldBlock(ds: seq<Draft>, item: Item)
    requires item.Sample? && !HasSample(ds, item.id) && NoReply(ds, item.calls) && Distinct(CallIds(item.calls))
    ensures Fold(ds, Events(item)) == ds + Group(item.id, item.thoughts, item.text, item.calls)
  {
    var a, b, c := ThoughtEvents(item.id, item.thoughts), TextEvents(item.id, item.text), CallEvents(item.id, item.calls);
    FoldConcat(ds, a + b, c);
    FoldConcat(ds, a, b);
    FoldThoughts(ds, item.id, item.thoughts);
    FoldText(ds, item.id, item.thoughts, item.text);
    FoldCalls(ds, item.id, item.thoughts, item.text, item.calls);
  }

  lemma GroupShape(id: string, thoughts: seq<Reasoning>, text: string, calls: seq<Call>)
    ensures var g := Group(id, thoughts, text, calls);
            Shaped(g) && ReplyIds(g) == CallIds(calls) && CompletedIds(g) == {}
  {
    var g := Group(id, thoughts, text, calls);
    if g != [] {
      var rs := Replies(calls);
      GroupIds(calls, rs);
      assert g[1..] == rs;
      assert g[1 + |calls|..] == [];
    }
  }

  /* ---- the drafts of a whole journal ---- */

  ghost predicate Known(ds: seq<Draft>, items: seq<Item>) {
    forall i :: 0 <= i < |ds| && ds[i].Assistant? ==>
      exists k :: 0 <= k < |items| && items[k].Sample? && items[k].id == ds[i].sample
  }

  /** The drafts are groups whose replies are the journal's calls, in order, answered as the
      journal answers them. */
  ghost predicate Follows(ds: seq<Draft>, items: seq<Item>) {
    && Shaped(ds) && ReplyIds(ds) == Calls(items) && CompletedIds(ds) == Done(items) && Known(ds, items)
  }

  lemma {:induction false} ReplyListed(ds: seq<Draft>, c: string)
    ensures HasReply(ds, c) <==> c in ReplyIds(ds)
  {
    if ds != [] {
      ReplyListed(ds[1..], c);
      assert IsReply(ds[0], c) || HasReply(ds[1..], c) <==> HasReply(ds, c) by {
        if HasReply(ds[1..], c) {
          var i :| 0 <= i < |ds[1..]| && IsReply(ds[1..][i], c);
          assert IsReply(ds[i + 1], c);
        }
        if HasReply(ds, c) {
          var i :| 0 <= i < |ds| && IsReply(ds[i], c);
          assert i > 0 ==> IsReply(ds[1..][i - 1], c);
        }
      }
    }
  }

  lemma CompletedConcat(a: seq<Draft>, b: seq<Draft>)
    ensures CompletedIds(a + b) == CompletedIds(a) + CompletedIds(b)
  {
    forall c | c in CompletedIds(a) ensures c in CompletedIds(a + b) {
      var i :| 0 <= i < |a| && a[i].Reply? && a[i].done && a[i].callId == c;
      assert (a + b)[i] == a[i];
    }
    forall c | c in CompletedIds(b) ensures c in CompletedIds(a + b) {
      var i :| 0 <= i < |b| && b[i].Reply? && b[i].done && b[i].callId == c;
      assert (a + b)[|a| + i] == b[i];
    }
  }

  lemma KnownGrows(ds: seq<Draft>, more: seq<Draft>, items: seq<Item>, item: Item)
    requires Known(ds, items)
    requires forall i :: 0 <= i < |more| && more[i].Assistant? ==> item.Sample? && item.id == more[i].sample
    ensures Known(ds + more, items + [item])
  {
    forall i | 0 <= i < |ds + more| && (ds + more)[i].Assistant?
      ensures exists k :: 0 <= k < |items + [item]| && (items + [item])[k].Sample? && (items + [item])[k].id == (ds + more)[i].sample
    {
      if i < |ds| {
        var k :| 0 <= k < |items| && items[k].Sample? && items[k].id == ds[i].sample;
        assert (items + [item])[k] == items[k];
      } else {
        assert (items + [item])[|items|] == item;
      }
    }
  }

  lemma AppendFollows(ds: seq<Draft>, more: seq<Draft>, items: seq<Item>, item: Item)
    requires Follows(ds, items) && Shaped(more) && ReplyIds(more) == ItemCalls(item) && CompletedIds(more) == {}
    requires forall i :: 0 <= i < |more| && more[i].Assistant? ==> item.Sample? && item.id == more[i].sample
    requires item.Sample? || !item.event.ToolCallCompleted?
    ensures Follows(ds + more, items + [item])
  {
    ShapedConcat(ds, more);
    ReplyIdsConcat(ds, more);
    CompletedConcat(ds, more);
    KnownGrows(ds, more, items, item);
    assert (items + [item])[..|items|] == items;
  }

  lemma NothingFollows(ds: seq<Draft>, items: seq<Item>, item: Item)
    requires Follows(ds, items) && item.Plain? && !item.event.ToolCallCompleted?
    ensures Follows(ds, items + [item])
  {
    AppendFollows(ds, [], items, item);
    assert ds + [] == ds;
  }

  lemma AnswerFollows(ds: seq<Draft>, items: seq<Item>, c: string, result: string, isError: bool)
    requires Follows(ds, items)
    ensures Follows(Answer(ds, c, result, isError), items + [Plain(ToolCallCompleted(c, result, isError))])
  {
    var ds', item := Answer(ds, c, result, isError), Plain(ToolCallCompleted(c, result, isError));
    assert SameOutline(ds, ds');
    OutlineKeeps(ds, ds');
    ReplyListed(ds, c);
    AnswerCompletes(ds, c, result, isError);
    KnownGrows(ds, [], items, item);
    assert ds + [] == ds;
    assert forall i :: 0 <= i < |ds| && ds'[i].Assistant? ==> ds[i] == ds'[i];
    assert (items + [item])[..|items|] == items;
  }

  lemma AnswerCompletes(ds: seq<Draft>, c: string, result: string, isError: bool)
    ensures CompletedIds(Answer(ds, c, result, isError)) == CompletedIds(ds) + if HasReply(ds, c) then {c} else {}
  {
    var ds' := Answer(ds, c, result, isError);
    forall x | x in CompletedIds(ds) ensures x in CompletedIds(ds') {
      var i :| 0 <= i < |ds| && ds[i].Reply? && ds[i].done && ds[i].callId == x;
      assert ds'[i].Reply? && ds'[i].done && ds'[i].callId == x;
    }
    if HasReply(ds, c) {
      var i :| 0 <= i < |ds| && IsReply(ds[i], c);
      assert ds'[i].Reply? && ds'[i].done && ds'[i].callId == c;
    }
  }

  lemma PlainFollows(ds: seq<Draft>, items: seq<Item>, e: Event)
    requires Follows(ds, items) && !IsPart(e)
    ensures Follows(OnEvent(ds, e), items + [Plain(e)])
  {
    match e
    case TurnStarted(_, input) => UserFollows(ds, input, items, e);
    case CancellationRequested(d) =>
      UserFollows(ds, if d then CANCELLATION_CONTEXT else ROOT_CANCELLATION_CONTEXT, items, e);
    case ToolCallCompleted(c, result, isError) => AnswerFollows(ds, items, c, result, isError);
    case _ => NothingFollows(ds, items, Plain(e));
  }

  lemma UserFollows(ds: seq<Draft>, content: string, items: seq<Item>, e: Event)
    requires Follows(ds, items) && !e.ToolCallCompleted?
    ensures Follows(ds + [User(content)], items + [Plain(e)])
  {
    UserShape(content);
    AppendFollows(ds, [User(content)], items, Plain(e));
  }

  lemma UserShape(content: string)
    ensures Shaped([User(content)]) && ReplyIds([User(content)]) == [] && CompletedIds([User(content)]) == {}
  {
    assert [User(content)][1..] == [];
  }

  lemma SampleFollows(ds: seq<Draft>, items: seq<Item>, item: Item)
    requires Follows(ds, items) && item.Sample? && WholeBlocks(items + [item])
    ensures Follows(Fold(ds, Events(item)), items + [item])
  {
    var all := items + [item];
    assert all[..|items|] == items;
    assert Calls(all) == Calls(items) + CallIds(item.calls);
    FreshBlock(ds, items, item);
    FoldBlock(ds, item);
    BlockFollows(ds, items, item);
  }

  lemma BlockFollows(ds: seq<Draft>, items: seq<Item>, item: Item)
    requires Follows(ds, items) && item.Sample?
    ensures Follows(ds + Group(item.id, item.thoughts, item.text, item.calls), items + [item])
  {
    GroupShape(item.id, item.thoughts, item.text, item.calls);
    AppendFollows(ds, Group(item.id, item.thoughts, item.text, item.calls), items, item);
  }

  lemma FreshBlock(ds: seq<Draft>, items: seq<Item>, item: Item)
    requires Follows(ds, items) && item.Sample? && WholeBlocks(items + [item])
    requires Calls(items + [item]) == Calls(items) + CallIds(item.calls)
    ensures !HasSample(ds, item.id) && NoReply(ds, item.calls) && Distinct(CallIds(item.calls))
  {
    FreshSample(ds, items, item);
    NoDupSplit(Calls(items), CallIds(item.calls));
    forall i | 0 <= i < |item.calls| ensures !HasReply(ds, item.calls[i].id) {
      assert CallIds(item.calls)[i] == item.calls[i].id;
      ReplyListed(ds, item.calls[i].id);
    }
  }

  lemma FreshSample(ds: seq<Draft>, items: seq<Item>, item: Item)
    requires Known(ds, items) && item.Sample? && WholeBlocks(items + [item])
    ensures !HasSample(ds, item.id)
  {
    assert (items + [item])[|items|] == item;
    assert forall k :: 0 <= k < |items| ==> (items + [item])[k] == items[k];
  }

  lemma NoDupSplit(a: seq<string>, b: seq<string>)
    requires Distinct(a + b)
    ensures Distinct(a) && Distinct(b) && forall x :: x in b ==> x !in a
  {
    assert forall k :: 0 <= k < |a| ==> (a + b)[k] == a[k];
    assert forall k :: 0 <= k < |b| ==> (a + b)[|a| + k] == b[k];
    forall i, k | 0 <= i < k < |b| ensures b[i] != b[k] { assert (a + b)[|a| + i] != (a + b)[|a| + k]; }
  }

  lemma FrontIsWhole(items: seq<Item>)
    requires items != [] && WholeBlocks(items)
    ensures WholeBlocks(items[..|items| - 1])
  {
    var front := items[..|items| - 1];
    assert forall k :: 0 <= k < |front| ==> front[k] == items[k];
    assert forall k :: 0 <= k < |Calls(front)| ==> Calls(items)[k] == Calls(front)[k];
  }

  lemma {:induction false} JournalFollows(summary: string, items: seq<Item>)
    requires WholeBlocks(items)
    ensures Follows(Fold(First(summary), Flatten(items)), items)
    decreases |items|
  {
    if items == [] {
      if summary != "" { UserShape(summary); }
    } else {
      var front, item := items[..|items| - 1], items[|items| - 1];
      assert items == front + [item];
      FrontIsWhole(items);
      JournalFollows(summary, front);
      FoldConcat(First(summary), Flatten(front), Events(item));
      var ds := Fold(First(summary), Flatten(front));
      if item.Sample? {
        SampleFollows(ds, front, item);
      } else {
        PlainFollows(ds, front, item.event);
        assert Events(item)[..0] == [];
        assert Fold(ds, Events(item)) == OnEvent(ds, item.event);
      }
    }
  }

  /** The request assembled from whole blocks passes the checker, with one pair for each call
      completed after its request. */
  lemma AssembledIsAccepted(summary: string, items: seq<Item>)
    requires WholeBlocks(items)
    ensures Check(Assemble(summary, Flatten(items)), [], {}) == Some(CountIn(Calls(items), Done(items)))
  {
    JournalFollows(summary, items);
    ShapedIsAccepted(Fold(First(summary), Flatten(items)), Done(items), {});
  }

  /* ---- any compaction window ---- */

  lemma FlattenSnoc(items: seq<Item>, x: Item)
    ensures Flatten(items + [x]) == Flatten(items) + Events(x)
    ensures Calls(items + [x]) == Calls(items) + ItemCalls(x)
  {
    assert (items + [x])[..|items|] == items;
  }

  lemma {:induction false} FlattenConcat(a: seq<Item>, b: seq<Item>)
    ensures Flatten(a + b) == Flatten(a) + Flatten(b)
    decreases |b|
  {
    if b == [] { assert a + b == a; }
    else {
      var front, x := b[..|b| - 1], b[|b| - 1];
      assert b == front + [x] && a + b == a + front + [x];
      FlattenConcat(a, front);
      FlattenSnoc(a + front, x);
      FlattenSnoc(front, x);
      Regrouped(Flatten(a + b), Flatten(a + front), Flatten(a), Flatten(front), Flatten(b), Events(x));
    }
  }

  lemma Regrouped<T>(ab: seq<T>, af: seq<T>, a: seq<T>, f: seq<T>, b: seq<T>, x: seq<T>)
    requires ab == af + x && af == a + f && b == f + x
    ensures ab == a + b
  {
  }

  lemma {:induction false} CallsConcat(a: seq<Item>, b: seq<Item>)
    ensures Calls(a + b) == Calls(a) + Calls(b)
    decreases |b|
  {
    if b == [] { assert a + b == a; }
    else {
      var front, x := b[..|b| - 1], b[|b| - 1];
      assert b == front + [x] && a + b == a + front + [x];
      CallsConcat(a, front);
      FlattenSnoc(a + front, x);
      FlattenSnoc(front, x);
      Regrouped(Calls(a + b), Calls(a + front), Calls(a), Calls(front), Calls(b), ItemCalls(x));
    }
  }

  lemma {:induction false} OnlyParts(item: Item, n: nat)
    requires item.Sample? && n < |Events(item)|
    ensures IsPart(Events(item)[n])
  {
    ThoughtsAreParts(item.id, item.thoughts);
    CallsAreParts(item.id, item.calls);
  }

  lemma {:induction false} ThoughtsAreParts(id: string, thoughts: seq<Reasoning>)
    ensures forall n :: 0 <= n < |ThoughtEvents(id, thoughts)| ==> IsPart(ThoughtEvents(id, thoughts)[n])
  {
    if thoughts != [] { ThoughtsAreParts(id, thoughts[..|thoughts| - 1]); }
  }

  lemma {:induction false} CallsAreParts(id: string, calls: seq<Call>)
    ensures forall n :: 0 <= n < |CallEvents(id, calls)| ==> IsPart(CallEvents(id, calls)[n])
  {
    if calls != [] { CallsAreParts(id, calls[..|calls| - 1]); }
  }

  /** An event that is no part of a sample sits between whole items. */
  lemma {:induction false} PlainPosition(items: seq<Item>, n: nat) returns (k: nat)
    requires n < |Flatten(items)| && !IsPart(Flatten(items)[n])
    ensures k < |items| && items[k].Plain? && |Flatten(items[..k])| == n
    decreases |items|
  {
    var front, item := items[..|items| - 1], items[|items| - 1];
    if n < |Flatten(front)| {
      k := PlainPosition(front, n);
      assert front[..k] == items[..k];
    } else {
      if item.Sample? { OnlyParts(item, n - |Flatten(front)|); }
      k := |front|;
    }
  }

  lemma SuffixIsWhole(items: seq<Item>, k: nat)
    requires k <= |items| && WholeBlocks(items)
    ensures WholeBlocks(items[k..])
    ensures Flatten(items) == Flatten(items[..k]) + Flatten(items[k..])
  {
    assert items[..k] + items[k..] == items;
    FlattenConcat(items[..k], items[k..]);
    CallsConcat(items[..k], items[k..]);
    NoDupSplit(Calls(items[..k]), Calls(items[k..]));
    SuffixIsDistinct(items, k);
  }

  lemma SuffixIsDistinct(items: seq<Item>, k: nat)
    requires k <= |items| && PartsInBlocks(items) && SamplesDistinct(items)
    ensures PartsInBlocks(items[k..]) && SamplesDistinct(items[k..])
  {
    var tail := items[k..];
    forall i, j | 0 <= i < j < |tail| && tail[i].Sample? && tail[j].Sample? ensures tail[i].id != tail[j].id {
      assert tail[i] == items[k + i] && tail[j] == items[k + j];
    }
  }

  /** The window begins at an item. */
  lemma WindowPosition(items: seq<Item>) returns (k: nat)
    ensures k <= |items| && |Flatten(items[..k])| == Floor(Flatten(items))
  {
    var h := Flatten(items);
    var latest := Latest(h);
    if latest < 0 {
      k := 0;
    } else if h[latest].floor.Some? && Starts(h, h[latest].floor.value) {
      var n := StartOf(h, h[latest].floor.value);
      k := PlainPosition(items, n);
    } else {
      k := PlainPosition(items, latest);
      assert items[..k + 1][..k] == items[..k];
      assert |Flatten(items[..k + 1])| == latest + 1;
      k := k + 1;
    }
  }

  /** Whatever compactions the journal holds, the request built from it passes the checker. */
  lemma BuildIsAccepted(items: seq<Item>) returns (k: nat)
    requires WholeBlocks(items)
    ensures k <= |items| && Window(Flatten(items)).1 == Flatten(items[k..])
    ensures Check(Build(Flatten(items)), [], {}) == Some(CountIn(Calls(items[k..]), Done(items[k..])))
  {
    k := WindowPosition(items);
    SuffixIsWhole(items, k);
    AssembledIsAccepted(Window(Flatten(items)).0, items[k..]);
  }
}
