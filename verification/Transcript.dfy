/** What a request says, read off the journal: every message stands where its first event stands and
    holds what the whole journal has for it.  The patched messages of the assembly are these. */
module Transcript {
  import opened Basics
  import opened History
  import opened Assembly
  import opened Pairs

  /** What a message is for: a text of the user's side, a sample, or the result of a call. */
  datatype Slot = Said(text: string) | OfSample(id: string) | OfCall(id: string)

  datatype Answered = Answered(text: string, isError: bool)

  predicate IsPartOf(e: Event, s: string) {
    (e.TextPart? || e.ReasoningPart? || e.ToolCallRequested?) && e.sampleId == s
  }

  predicate HasPart(es: seq<Event>, s: string) {
    exists i :: 0 <= i < |es| && IsPartOf(es[i], s)
  }

  /* ---- where messages stand ---- */

  function OpensSample(before: seq<Event>, s: string): seq<Slot> {
    if HasPart(before, s) then [] else [OfSample(s)]
  }

  /** The messages an event is the first of. */
  function Opens(before: seq<Event>, e: Event): seq<Slot> {
    match e
    case TurnStarted(_, input) => [Said(input)]
    case CancellationRequested(d) =>
      [Said(if d then "[runtime] The user cancelled the live root and descendant work."
            else "[runtime] The user cancelled the live root turn. Descendant agents keep running.")]
    case TextPart(s, _) => OpensSample(before, s)
    case ReasoningPart(s, _, _) => OpensSample(before, s)
    case ToolCallRequested(s, c, _, _) => OpensSample(before, s) + if Asks(before, c) then [] else [OfCall(c)]
    case _ => []
  }

  function Slots(es: seq<Event>): seq<Slot> {
    if es == [] then [] else Slots(es[..|es| - 1]) + Opens(es[..|es| - 1], es[|es| - 1])
  }

  /* ---- what they hold ---- */

  function TextOf(es: seq<Event>, s: string): string {
    if es == [] then ""
    else
      var e := es[|es| - 1];
      TextOf(es[..|es| - 1], s) + if e.TextPart? && e.sampleId == s then e.text else ""
  }

  function ThoughtsOf(es: seq<Event>, s: string): seq<Reasoning> {
    if es == [] then []
    else
      var e := es[|es| - 1];
      ThoughtsOf(es[..|es| - 1], s) + if e.ReasoningPart? && e.sampleId == s then [Reasoning(e.text, e.signature)] else []
  }

  function CallsOf(es: seq<Event>, s: string): seq<Call> {
    if es == [] then []
    else
      var e := es[|es| - 1];
      CallsOf(es[..|es| - 1], s) + if e.ToolCallRequested? && e.sampleId == s then [Call(e.callId, e.name, e.args)] else []
  }

  /** The last completion of a call after its request. */
  function AnswerTo(es: seq<Event>, c: string): Option<Answered> {
    if es == [] then None
    else
      var front, e := es[..|es| - 1], es[|es| - 1];
      if e.ToolCallCompleted? && e.callId == c && Asks(front, c) then Some(Answered(e.result, e.isError)) else AnswerTo(front, c)
  }

  /** The completion at `i` is the last one of its call, and follows a request of it. */
  ghost predicate LastAnswer(es: seq<Event>, c: string, i: nat) {
    && i < |es| && es[i].ToolCallCompleted? && es[i].callId == c && Asks(es[..i], c)
    && forall k :: i < k < |es| && es[k].ToolCallCompleted? ==> es[k].callId != c
  }

  lemma AskedGrows(es: seq<Event>, e: Event, c: string)
    ensures Asks(es + [e], c) <==> Asks(es, c) || (e.ToolCallRequested? && e.callId == c)
  {
    if Asks(es, c) {
      var i :| 0 <= i < |es| && es[i].ToolCallRequested? && es[i].callId == c;
      assert (es + [e])[i] == es[i];
    }
    if e.ToolCallRequested? && e.callId == c { assert (es + [e])[|es|] == e; }
  }

  lemma PartGrows(es: seq<Event>, e: Event, s: string)
    ensures HasPart(es + [e], s) <==> HasPart(es, s) || IsPartOf(e, s)
  {
    if HasPart(es, s) {
      var i :| 0 <= i < |es| && IsPartOf(es[i], s);
      assert IsPartOf((es + [e])[i], s);
    }
    if IsPartOf(e, s) { assert (es + [e])[|es|] == e; }
  }

  lemma {:induction false} AnswerIsLast(es: seq<Event>, c: string)
    ensures AnswerTo(es, c).None? <==> forall i: nat :: !LastAnswer(es, c, i)
    ensures forall i: nat :: LastAnswer(es, c, i) ==> AnswerTo(es, c) == Some(Answered(es[i].result, es[i].isError))
    decreases |es|
  {
    if es != [] {
      var front, e := es[..|es| - 1], es[|es| - 1];
      AnswerIsLast(front, c);
      if e.ToolCallCompleted? && e.callId == c && Asks(front, c) {
        assert LastAnswer(es, c, |front|);
      } else {
        forall i: nat ensures LastAnswer(es, c, i) <==> LastAnswer(front, c, i) { SameAnswer(es, c, i); }
      }
    }
  }

  lemma SameAnswer(es: seq<Event>, c: string, i: nat)
    requires es != [] && var e := es[|es| - 1]; !(e.ToolCallCompleted? && e.callId == c && Asks(es[..|es| - 1], c))
    ensures LastAnswer(es, c, i) <==> LastAnswer(es[..|es| - 1], c, i)
  {
    var front, e := es[..|es| - 1], es[|es| - 1];
    if i < |front| {
      assert front[..i] == es[..i];
      if Asks(front[..i], c) { AskedBefore(front, i, c); }
    }
  }

  lemma AskedBefore(es: seq<Event>, i: nat, c: string)
    requires i <= |es| && Asks(es[..i], c)
    ensures Asks(es, c)
  {
    var k :| 0 <= k < i && es[..i][k].ToolCallRequested? && es[..i][k].callId == c;
    assert es[k] == es[..i][k];
  }

  lemma {:induction false} AnsweredIsAsked(es: seq<Event>, c: string)
    ensures AnswerTo(es, c).Some? ==> Asks(es, c)
  {
    if es != [] {
      var front := es[..|es| - 1];
      AnsweredIsAsked(front, c);
      AskedGrows(front, es[|es| - 1], c);
      assert es == front + [es[|es| - 1]];
    }
  }

  /* ---- the drafts are these ---- */

  ghost predicate AllUsers(first: seq<Draft>) {
    forall i :: 0 <= i < |first| ==> first[i].User?
  }

  function DraftOf(es: seq<Event>, slot: Slot): Draft {
    match slot
    case Said(text) => User(text)
    case OfSample(s) => Assistant(s, TextOf(es, s), ThoughtsOf(es, s), CallsOf(es, s))
    case OfCall(c) =>
      match AnswerTo(es, c)
      case None => Reply(c, "", false, false)
      case Some(a) => Reply(c, a.text, a.isError, true)
  }

  function Drafts(es: seq<Event>, slots: seq<Slot>): (r: seq<Draft>)
    ensures |r| == |slots|
    ensures forall i :: 0 <= i < |slots| ==> r[i] == DraftOf(es, slots[i])
  {
    seq(|slots|, i requires 0 <= i < |slots| => DraftOf(es, slots[i]))
  }

  lemma {:induction false} SampleKnown(es: seq<Event>, s: string)
    ensures OfSample(s) in Slots(es) <==> HasPart(es, s)
    decreases |es|
  {
    if es != [] {
      var front, e := es[..|es| - 1], es[|es| - 1];
      assert es == front + [e];
      SampleKnown(front, s);
      PartGrows(front, e, s);
      OpensParts(front, e, s);
    }
  }

  lemma OpensParts(front: seq<Event>, e: Event, s: string)
    ensures OfSample(s) in Opens(front, e) <==> IsPartOf(e, s) && !HasPart(front, s)
  {
    match e
    case TextPart(x, _) => OpensIt(front, x, s);
    case ReasoningPart(x, _, _) => OpensIt(front, x, s);
    case ToolCallRequested(x, c, _, _) =>
      OpensIt(front, x, s);
      Either(OfSample(s), OpensSample(front, x), if Asks(front, c) then [] else [OfCall(c)]);
    case _ =>
  }

  lemma Either<T>(x: T, a: seq<T>, b: seq<T>)
    ensures x in a + b <==> x in a || x in b
  {
  }

  lemma OpensIt(front: seq<Event>, x: string, s: string)
    ensures OfSample(s) in OpensSample(front, x) <==> x == s && !HasPart(front, s)
  {
  }

  lemma {:induction false} CallKnown(es: seq<Event>, c: string)
    ensures OfCall(c) in Slots(es) <==> Asks(es, c)
    decreases |es|
  {
    if es != [] {
      var front, e := es[..|es| - 1], es[|es| - 1];
      assert es == front + [e];
      CallKnown(front, c);
      AskedGrows(front, e, c);
      OpensCalls(front, e, c);
    }
  }

  lemma OpensCalls(front: seq<Event>, e: Event, c: string)
    ensures OfCall(c) in Opens(front, e) <==> e.ToolCallRequested? && e.callId == c && !Asks(front, c)
  {
  }

  lemma {:induction false} NothingYet(es: seq<Event>, s: string)
    requires !HasPart(es, s)
    ensures TextOf(es, s) == "" && ThoughtsOf(es, s) == [] && CallsOf(es, s) == []
    decreases |es|
  {
    if es != [] {
      var front, e := es[..|es| - 1], es[|es| - 1];
      assert es == front + [e];
      PartGrows(front, e, s);
      NothingYet(front, s);
    }
  }

  /** The part of a sample an event is. */
  function PartIn(e: Event): Part
    requires e.TextPart? || e.ReasoningPart? || e.ToolCallRequested?
  {
    match e
    case TextPart(_, text) => Text(text)
    case ReasoningPart(_, text, signature) => Thought(Reasoning(text, signature))
    case ToolCallRequested(_, c, name, args) => Tool(Call(c, name, args))
  }

  /** A part goes to its own sample's message, and to no other. */
  lemma PartDrafts(front: seq<Event>, e: Event, slot: Slot)
    requires e.TextPart? || e.ReasoningPart? || e.ToolCallRequested?
    ensures DraftOf(front + [e], slot) ==
            if slot == OfSample(e.sampleId) then AddPart(DraftOf(front, slot), PartIn(e)) else DraftOf(front, slot)
  {
    assert (front + [e])[..|front|] == front;
  }

  lemma AmendDrafts(first: seq<Draft>, front: seq<Event>, e: Event, slots: seq<Slot>)
    requires (e.TextPart? || e.ReasoningPart? || e.ToolCallRequested?) && AllUsers(first)
    ensures Amend(first + Drafts(front, slots), e.sampleId, PartIn(e)) == first + Drafts(front + [e], slots)
  {
    var was, now := first + Drafts(front, slots), first + Drafts(front + [e], slots);
    forall i | 0 <= i < |was| ensures now[i] == if IsSample(was[i], e.sampleId) then AddPart(was[i], PartIn(e)) else was[i] {
      if i >= |first| { PartDrafts(front, e, slots[i - |first|]); }
    }
  }

  lemma SampleIsThere(first: seq<Draft>, es: seq<Event>, slots: seq<Slot>, s: string)
    requires AllUsers(first)
    ensures HasSample(first + Drafts(es, slots), s) <==> OfSample(s) in slots
  {
    var ds := first + Drafts(es, slots);
    if OfSample(s) in slots {
      var i :| 0 <= i < |slots| && slots[i] == OfSample(s);
      assert IsSample(ds[|first| + i], s);
    }
    if HasSample(ds, s) {
      var i :| 0 <= i < |ds| && IsSample(ds[i], s);
      if i >= |first| { assert slots[i - |first|] == OfSample(s); }
    }
  }

  lemma ReplyIsThere(first: seq<Draft>, es: seq<Event>, slots: seq<Slot>, c: string)
    requires AllUsers(first)
    ensures HasReply(first + Drafts(es, slots), c) <==> OfCall(c) in slots
  {
    var ds := first + Drafts(es, slots);
    if OfCall(c) in slots {
      var i :| 0 <= i < |slots| && slots[i] == OfCall(c);
      assert IsReply(ds[|first| + i], c);
    }
    if HasReply(ds, c) {
      var i :| 0 <= i < |ds| && IsReply(ds[i], c);
      if i >= |first| { assert slots[i - |first|] == OfCall(c); }
    }
  }

  lemma PartFolds(first: seq<Draft>, front: seq<Event>, e: Event)
    requires (e.TextPart? || e.ReasoningPart? || e.ToolCallRequested?) && AllUsers(first)
    ensures OnPart(first + Drafts(front, Slots(front)), e.sampleId, PartIn(e))
            == first + Drafts(front + [e], Slots(front) + OpensSample(front, e.sampleId))
  {
    var s, slots := e.sampleId, Slots(front) + OpensSample(front, e.sampleId);
    SampleKnown(front, s);
    SampleIsThere(first, front, Slots(front), s);
    AmendDrafts(first, front, e, slots);
    if !HasPart(front, s) {
      NothingYet(front, s);
      assert first + Drafts(front, slots) == first + Drafts(front, Slots(front)) + [Assistant(s, "", [], [])];
    } else {
      assert slots == Slots(front);
    }
  }

  lemma RequestFolds(first: seq<Draft>, front: seq<Event>, e: Event)
    requires e.ToolCallRequested? && AllUsers(first)
    ensures OnEvent(first + Drafts(front, Slots(front)), e) == first + Drafts(front + [e], Slots(front + [e]))
  {
    var c, slots, all := e.callId, Slots(front) + OpensSample(front, e.sampleId), Slots(front + [e]);
    assert (front + [e])[..|front|] == front;
    PartFolds(first, front, e);
    ReplyIsThere(first, front + [e], slots, c);
    CallKnown(front, c);
    assert OfCall(c) in slots <==> Asks(front, c);
    if Asks(front, c) {
      assert all == slots;
    } else {
      AnsweredIsAsked(front, c);
      assert all == slots + [OfCall(c)];
      assert DraftOf(front + [e], OfCall(c)) == Reply(c, "", false, false);
      assert Drafts(front + [e], all) == Drafts(front + [e], slots) + [Reply(c, "", false, false)];
    }
  }

  /** A completion answers its call, if the call was requested, and nothing else. */
  lemma CompletionDrafts(front: seq<Event>, e: Event, slot: Slot)
    requires e.ToolCallCompleted? && (slot.OfCall? ==> Asks(front, slot.id))
    ensures DraftOf(front + [e], slot) ==
            if slot == OfCall(e.callId) then Reply(e.callId, e.result, e.isError, true) else DraftOf(front, slot)
  {
    assert (front + [e])[..|front|] == front;
  }

  lemma CompletionFolds(first: seq<Draft>, front: seq<Event>, e: Event)
    requires e.ToolCallCompleted? && AllUsers(first)
    ensures OnEvent(first + Drafts(front, Slots(front)), e) == first + Drafts(front + [e], Slots(front + [e]))
  {
    var slots := Slots(front);
    assert (front + [e])[..|front|] == front;
    assert Slots(front + [e]) == slots;
    var was, now := first + Drafts(front, slots), first + Drafts(front + [e], slots);
    forall i | 0 <= i < |was|
      ensures now[i] == if IsReply(was[i], e.callId) then Reply(e.callId, e.result, e.isError, true) else was[i]
    {
      if i >= |first| {
        if slots[i - |first|].OfCall? { CallKnown(front, slots[i - |first|].id); }
        CompletionDrafts(front, e, slots[i - |first|]);
      }
    }
  }

  /** Any other event leaves every message as it is. */
  lemma OtherDrafts(front: seq<Event>, e: Event, slot: Slot)
    requires !e.TextPart? && !e.ReasoningPart? && !e.ToolCallRequested? && !e.ToolCallCompleted?
    ensures DraftOf(front + [e], slot) == DraftOf(front, slot)
  {
    assert (front + [e])[..|front|] == front;
  }

  lemma OtherFolds(first: seq<Draft>, front: seq<Event>, e: Event)
    requires !e.TextPart? && !e.ReasoningPart? && !e.ToolCallRequested? && !e.ToolCallCompleted?
    ensures OnEvent(first + Drafts(front, Slots(front)), e) == first + Drafts(front + [e], Slots(front + [e]))
  {
    var slots, all := Slots(front), Slots(front + [e]);
    assert (front + [e])[..|front|] == front;
    forall i | 0 <= i < |slots| ensures Drafts(front + [e], all)[i] == Drafts(front, slots)[i] { OtherDrafts(front, e, slots[i]); }
    var more := OnEvent([], e);
    assert OnEvent(first + Drafts(front, slots), e) == first + Drafts(front, slots) + more;
    assert Drafts(front + [e], all) == Drafts(front, slots) + more;
  }

  /** The fold over the events has exactly these drafts, where they belong. */
  lemma {:induction false} FoldIsDrafts(first: seq<Draft>, es: seq<Event>)
    requires AllUsers(first)
    ensures Fold(first, es) == first + Drafts(es, Slots(es))
    decreases |es|
  {
    if es == [] { assert first + [] == first; }
    else {
      var front, e := es[..|es| - 1], es[|es| - 1];
      assert es == front + [e];
      FoldIsDrafts(first, front);
      match e
      case ToolCallRequested(_, _, _, _) => RequestFolds(first, front, e);
      case ToolCallCompleted(_, _, _) => CompletionFolds(first, front, e);
      case TextPart(_, _) => PartFolds(first, front, e);
      case ReasoningPart(_, _, _) => PartFolds(first, front, e);
      case _ => OtherFolds(first, front, e);
    }
  }

  /* ---- the messages ---- */

  /** The calls of a sample that the journal answers, in order. */
  function AnsweredCalls(all: seq<Event>, es: seq<Event>, s: string): seq<Call> {
    if es == [] then []
    else
      var e := es[|es| - 1];
      AnsweredCalls(all, es[..|es| - 1], s)
      + if e.ToolCallRequested? && e.sampleId == s && AnswerTo(all, e.callId).Some? then [Call(e.callId, e.name, e.args)] else []
  }

  /** A text; a sample's text, reasoning and answered calls, unless it has none of them; the answer of
      a call, if it has one. */
  function MessageOf(es: seq<Event>, slot: Slot): seq<Message> {
    match slot
    case Said(text) => [UserMessage(text)]
    case OfSample(s) =>
      var calls := AnsweredCalls(es, es, s);
      if TextOf(es, s) == "" && ThoughtsOf(es, s) == [] && calls == [] then []
      else [AssistantMessage(TextOf(es, s), ThoughtsOf(es, s), calls)]
    case OfCall(c) =>
      match AnswerTo(es, c)
      case None => []
      case Some(a) => [ToolResult(c, a.text, a.isError)]
  }

  function Messages(es: seq<Event>, slots: seq<Slot>): seq<Message> {
    if slots == [] then [] else MessageOf(es, slots[0]) + Messages(es, slots[1..])
  }

  /** The request a journal reads as. */
  function Transcribed(summary: string, es: seq<Event>): seq<Message> {
    (if summary == "" then [] else [UserMessage(summary)]) + Messages(es, Slots(es))
  }

  lemma {:induction false} KeptSnoc(calls: seq<Call>, c: Call, completed: set<string>)
    ensures KeptCalls(calls + [c], completed) == KeptCalls(calls, completed) + if c.id in completed then [c] else []
  {
    if calls != [] {
      assert (calls + [c])[1..] == calls[1..] + [c];
      KeptSnoc(calls[1..], c, completed);
    }
  }

  lemma {:induction false} KeptAreAnswered(all: seq<Event>, es: seq<Event>, s: string, completed: set<string>)
    requires forall c :: c in completed <==> AnswerTo(all, c).Some?
    ensures KeptCalls(CallsOf(es, s), completed) == AnsweredCalls(all, es, s)
    decreases |es|
  {
    if es != [] {
      var front, e := es[..|es| - 1], es[|es| - 1];
      KeptAreAnswered(all, front, s, completed);
      if e.ToolCallRequested? && e.sampleId == s {
        assert CallsOf(es, s) == CallsOf(front, s) + [Call(e.callId, e.name, e.args)];
        KeptSnoc(CallsOf(front, s), Call(e.callId, e.name, e.args), completed);
      } else {
        assert CallsOf(es, s) == CallsOf(front, s);
        assert AnsweredCalls(all, es, s) == AnsweredCalls(all, front, s);
      }
    }
  }

  lemma SlotIsKept(es: seq<Event>, slot: Slot, completed: set<string>)
    requires forall c :: c in completed <==> AnswerTo(es, c).Some?
    ensures Kept(DraftOf(es, slot), completed) == MessageOf(es, slot)
  {
    if slot.OfSample? { KeptAreAnswered(es, es, slot.id, completed); }
  }

  lemma {:induction false} SlotsAreKept(es: seq<Event>, slots: seq<Slot>, completed: set<string>)
    requires forall c :: c in completed <==> AnswerTo(es, c).Some?
    ensures Finish(Drafts(es, slots), completed) == Messages(es, slots)
    decreases |slots|
  {
    if slots != [] {
      SlotIsKept(es, slots[0], completed);
      SlotsAreKept(es, slots[1..], completed);
      assert Drafts(es, slots)[1..] == Drafts(es, slots[1..]);
    }
  }

  /** The completed calls are the answered ones. */
  lemma CompletedAreAnswered(first: seq<Draft>, es: seq<Event>)
    requires AllUsers(first)
    ensures forall c :: c in CompletedIds(first + Drafts(es, Slots(es))) <==> AnswerTo(es, c).Some?
  {
    var ds := first + Drafts(es, Slots(es));
    forall c ensures c in CompletedIds(ds) <==> AnswerTo(es, c).Some? {
      if AnswerTo(es, c).Some? {
        AnsweredIsAsked(es, c);
        CallKnown(es, c);
        var i :| 0 <= i < |Slots(es)| && Slots(es)[i] == OfCall(c);
        assert ds[|first| + i] == DraftOf(es, OfCall(c));
      }
      if c in CompletedIds(ds) {
        var i :| 0 <= i < |ds| && ds[i].Reply? && ds[i].done && ds[i].callId == c;
        if i >= |first| { assert ds[i] == DraftOf(es, Slots(es)[i - |first|]); }
      }
    }
  }

  /** What the assembly makes of a journal is what the journal reads as. */
  lemma AssembledIsTranscribed(summary: string, es: seq<Event>)
    ensures Assemble(summary, es) == Transcribed(summary, es)
  {
    var first := First(summary);
    FoldIsDrafts(first, es);
    var completed := CompletedIds(Fold(first, es));
    CompletedAreAnswered(first, es);
    SlotsAreKept(es, Slots(es), completed);
    FinishConcat(first, Drafts(es, Slots(es)), completed);
    assert first != [] ==> first[1..] == [];
  }

  /** A tool result in a request carries the text and the error flag of the last completion of its
      call after a request of it. */
  lemma ResultIsTheLast(summary: string, es: seq<Event>, m: Message) returns (i: nat)
    requires m in Assemble(summary, es) && m.ToolResult?
    ensures LastAnswer(es, m.callId, i) && m == ToolResult(es[i].callId, es[i].result, es[i].isError)
  {
    AssembledIsTranscribed(summary, es);
    MessageHasSlot(es, Slots(es), m);
    AnswerIsLast(es, m.callId);
    i :| LastAnswer(es, m.callId, i);
  }

  lemma {:induction false} MessageHasSlot(es: seq<Event>, slots: seq<Slot>, m: Message)
    requires m in Messages(es, slots) && m.ToolResult?
    ensures AnswerTo(es, m.callId) == Some(Answered(m.content, m.isError))
  {
    if m !in MessageOf(es, slots[0]) { MessageHasSlot(es, slots[1..], m); }
  }

  /** Every call that is completed after its request has its result in the request. */
  lemma ResultIsThere(summary: string, es: seq<Event>, c: string, i: nat)
    requires LastAnswer(es, c, i)
    ensures ToolResult(c, es[i].result, es[i].isError) in Assemble(summary, es)
  {
    AssembledIsTranscribed(summary, es);
    AnswerIsLast(es, c);
    AnsweredIsAsked(es, c);
    CallKnown(es, c);
    SlotIsSaid(es, Slots(es), OfCall(c));
  }

  lemma {:induction false} SlotIsSaid(es: seq<Event>, slots: seq<Slot>, slot: Slot)
    requires slot in slots
    ensures forall m :: m in MessageOf(es, slot) ==> m in Messages(es, slots)
  {
    if slots[0] != slot { SlotIsSaid(es, slots[1..], slot); }
  }
}
