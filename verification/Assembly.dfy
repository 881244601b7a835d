/** From history to model request: `assemble_messages` with its in-place patching, proved
    against a fold over drafts. */
module Assembly {
  import opened Basics
  import opened History

  datatype Call = Call(id: string, name: string, args: string)
  datatype Reasoning = Reasoning(text: string, signature: Option<string>)

  /** A message under construction.  `Reply` is a tool result; it is `done` once completed. */
  datatype Draft =
    | User(content: string)
    | Assistant(sample: string, text: string, reasoning: seq<Reasoning>, calls: seq<Call>)
    | Reply(callId: string, content: string, isError: bool, done: bool)

  datatype Message =
    | UserMessage(content: string)
    | AssistantMessage(text: string, reasoning: seq<Reasoning>, calls: seq<Call>)
    | ToolResult(callId: string, content: string, isError: bool)

  const CANCELLATION_CONTEXT := "[runtime] The user cancelled the live root and descendant work."
  const ROOT_CANCELLATION_CONTEXT := "[runtime] The user cancelled the live root turn. Descendant agents keep running."

  /* ---- the fold ---- */

  predicate IsSample(d: Draft, s: string) { d.Assistant? && d.sample == s }
  predicate IsReply(d: Draft, c: string) { d.Reply? && d.callId == c }

  predicate HasSample(ds: seq<Draft>, s: string) {
    exists i :: 0 <= i < |ds| && IsSample(ds[i], s)
  }

  predicate HasReply(ds: seq<Draft>, c: string) {
    exists i :: 0 <= i < |ds| && IsReply(ds[i], c)
  }

  /** The drafts with an assistant message for the sample. */
  function WithSample(ds: seq<Draft>, s: string): seq<Draft> {
    if HasSample(ds, s) then ds else ds + [Assistant(s, "", [], [])]
  }

  datatype Part = Text(text: string) | Thought(block: Reasoning) | Tool(call: Call)

  function AddPart(d: Draft, p: Part): Draft
    requires d.Assistant?
  {
    match p
    case Text(t) => d.(text := d.text + t)
    case Thought(r) => d.(reasoning := d.reasoning + [r])
    case Tool(c) => d.(calls := d.calls + [c])
  }

  function Amend(ds: seq<Draft>, s: string, p: Part): (r: seq<Draft>)
    ensures |r| == |ds|
    ensures forall i :: 0 <= i < |ds| ==> r[i] == if IsSample(ds[i], s) then AddPart(ds[i], p) else ds[i]
  {
    seq(|ds|, i requires 0 <= i < |ds| => if IsSample(ds[i], s) then AddPart(ds[i], p) else ds[i])
  }

  function Answer(ds: seq<Draft>, c: string, content: string, isError: bool): (r: seq<Draft>)
    ensures |r| == |ds|
    ensures forall i :: 0 <= i < |ds| ==> r[i] == if IsReply(ds[i], c) then Reply(c, content, isError, true) else ds[i]
  {
    seq(|ds|, i requires 0 <= i < |ds| => if IsReply(ds[i], c) then Reply(c, content, isError, true) else ds[i])
  }

  function OnPart(ds: seq<Draft>, s: string, p: Part): seq<Draft> {
    Amend(WithSample(ds, s), s, p)
  }

  function OnEvent(ds: seq<Draft>, e: Event): seq<Draft> {
    match e
    case TurnStarted(_, input) => ds + [User(input)]
    case TextPart(s, text) => OnPart(ds, s, Text(text))
    case CancellationRequested(d) => ds + [User(if d then CANCELLATION_CONTEXT else ROOT_CANCELLATION_CONTEXT)]
    case ReasoningPart(s, text, signature) => OnPart(ds, s, Thought(Reasoning(text, signature)))
    case ToolCallRequested(s, c, name, args) =>
      var n := OnPart(ds, s, Tool(Call(c, name, args)));
      if HasReply(n, c) then n else n + [Reply(c, "", false, false)]
    case ToolCallCompleted(c, result, isError) => Answer(ds, c, result, isError)
    case _ => ds
  }

  function Fold(ds: seq<Draft>, es: seq<Event>): seq<Draft> {
    if es == [] then ds else OnEvent(Fold(ds, es[..|es| - 1]), es[|es| - 1])
  }

  lemma {:induction false} FoldConcat(ds: seq<Draft>, a: seq<Event>, b: seq<Event>)
    ensures Fold(ds, a + b) == Fold(Fold(ds, a), b)
    decreases |b|
  {
    if b == [] { assert a + b == a; }
    else {
      assert (a + b)[..|a + b| - 1] == a + b[..|b| - 1];
      FoldConcat(ds, a, b[..|b| - 1]);
    }
  }

  /* ---- the end of the assembly ---- */

  function CompletedIds(ds: seq<Draft>): set<string> {
    set i | 0 <= i < |ds| && ds[i].Reply? && ds[i].done :: ds[i].callId
  }

  function KeptCalls(calls: seq<Call>, completed: set<string>): (r: seq<Call>)
    ensures forall c :: c in r <==> c in calls && c.id in completed
  {
    if calls == [] then []
    else if calls[0].id in completed then [calls[0]] + KeptCalls(calls[1..], completed)
    else KeptCalls(calls[1..], completed)
  }

  /** What a finished draft contributes to the request: nothing for an unanswered call or an
      assistant message left empty. */
  function Kept(d: Draft, completed: set<string>): seq<Message> {
    match d
    case User(content) => [UserMessage(content)]
    case Assistant(_, text, reasoning, calls) =>
      var kept := KeptCalls(calls, completed);
      if text == "" && reasoning == [] && kept == [] then [] else [AssistantMessage(text, reasoning, kept)]
    case Reply(c, content, isError, _) => if c in completed then [ToolResult(c, content, isError)] else []
  }

  function Finish(ds: seq<Draft>, completed: set<string>): seq<Message> {
    if ds == [] then [] else Kept(ds[0], completed) + Finish(ds[1..], completed)
  }

  function First(summary: string): seq<Draft> {
    if summary == "" then [] else [User(summary)]
  }

  function Assemble(summary: string, events: seq<Event>): seq<Message> {
    var ds := Fold(First(summary), events);
    Finish(ds, CompletedIds(ds))
  }

  function Build(events: seq<Event>): seq<Message> {
    Assemble(Window(events).0, Window(events).1)
  }

  /** Events that reach no request add no draft. */
  lemma {:induction false} FoldHeard(ds: seq<Draft>, events: seq<Event>)
    ensures Fold(ds, Heard(events)) == Fold(ds, events)
    decreases |events|
  {
    if events != [] {
      var front, last := events[..|events| - 1], events[|events| - 1];
      FoldHeard(ds, front);
      assert events == front + [last];
      FoldConcat(ds, front, [last]);
      if last.Other? { FoldOther(Fold(ds, front), last); }
      else { FoldConcat(ds, Heard(front), [last]); }
    }
  }

  lemma FoldOther(ds: seq<Draft>, e: Event)
    requires e.Other?
    ensures Fold(ds, [e]) == ds
  {
    assert [e][..0] == [];
  }

  /** Histories with the same view give the same request. */
  lemma SameViewSameRequest(a: seq<Event>, b: seq<Event>)
    requires SameView(a, b)
    ensures Build(a) == Build(b)
  {
    FoldHeard(First(Summary(a)), Window(a).1);
    FoldHeard(First(Summary(a)), Window(b).1);
  }

  /* ---- the source's loop ---- */

  /** The indices the dictionaries hold are those of the only message with that key. */
  ghost predicate Indexed(ds: seq<Draft>, samples: map<string, nat>, replies: map<string, nat>) {
    && (forall s :: s in samples ==> samples[s] < |ds| && IsSample(ds[samples[s]], s))
    && (forall i :: 0 <= i < |ds| && ds[i].Assistant? ==> ds[i].sample in samples && samples[ds[i].sample] == i)
    && (forall c :: c in replies ==> replies[c] < |ds| && IsReply(ds[replies[c]], c))
    && (forall i :: 0 <= i < |ds| && ds[i].Reply? ==> ds[i].callId in replies && replies[ds[i].callId] == i)
  }

  /** `sample_message` and the patch of the message it returns. */
  method Patch(ds: seq<Draft>, samples: map<string, nat>, ghost replies: map<string, nat>, s: string, p: Part)
    returns (ds': seq<Draft>, samples': map<string, nat>)
    requires Indexed(ds, samples, replies)
    ensures ds' == OnPart(ds, s, p) && Indexed(ds', samples', replies)
    ensures CompletedIds(ds') == CompletedIds(ds)
  {
    ds', samples' := ds, samples;
    if s !in samples {
      samples' := samples'[s := |ds'|];
      ds' := ds' + [Assistant(s, "", [], [])];
      assert !HasSample(ds, s);
    } else {
      assert IsSample(ds[samples[s]], s);
    }
    ghost var with' := ds';
    assert with' == WithSample(ds, s);
    ds' := ds'[samples'[s] := AddPart(ds'[samples'[s]], p)];
    assert ds' == Amend(with', s, p);
    SameCompleted(ds, ds');
  }

  /** `assemble_messages`. */
  method AssembleMessages(summary: string, events: seq<Event>) returns (messages: seq<Message>)
    ensures messages == Assemble(summary, events)
  {
    var ds := First(summary);
    var samples: map<string, nat> := map[];
    var replies: map<string, nat> := map[];
    var requested: set<string> := {};
    var completed: set<string> := {};
    for n := 0 to |events|
      invariant ds == Fold(First(summary), events[..n])
      invariant Indexed(ds, samples, replies)
      invariant requested == replies.Keys
      invariant completed == CompletedIds(ds)
    {
      assert events[..n + 1][..n] == events[..n];
      ds, samples, replies, requested, completed := Advance(ds, samples, replies, requested, completed, events[n]);
    }
    assert events[..|events|] == events;
    messages := FinishAll(ds, completed);
  }

  /** The final filtering of messages and calls. */
  method FinishAll(ds: seq<Draft>, completed: set<string>) returns (messages: seq<Message>)
    ensures messages == Finish(ds, completed)
  {
    messages := [];
    for n := 0 to |ds|
      invariant messages + Finish(ds[n..], completed) == Finish(ds, completed)
    {
      FinishNext(ds, n, completed, messages);
      messages := messages + Kept(ds[n], completed);
    }
  }

  lemma FinishNext(ds: seq<Draft>, n: nat, completed: set<string>, done: seq<Message>)
    requires n < |ds|
    ensures done + Finish(ds[n..], completed) == done + Kept(ds[n], completed) + Finish(ds[n + 1..], completed)
  {
    assert ds[n..][0] == ds[n] && ds[n..][1..] == ds[n + 1..];
  }

  /** The reply of a call is placed when the call is first requested. */
  method OpenReply(ds: seq<Draft>, ghost samples: map<string, nat>, replies: map<string, nat>, c: string)
    returns (ds': seq<Draft>, replies': map<string, nat>)
    requires Indexed(ds, samples, replies)
    ensures ds' == if HasReply(ds, c) then ds else ds + [Reply(c, "", false, false)]
    ensures Indexed(ds', samples, replies') && replies'.Keys == replies.Keys + {c}
    ensures CompletedIds(ds') == CompletedIds(ds)
  {
    ds', replies' := ds, replies;
    if c !in replies {
      assert !HasReply(ds, c);
      replies' := replies[c := |ds|];
      ds' := ds + [Reply(c, "", false, false)];
      SameCompleted(ds, ds');
    } else {
      assert IsReply(ds[replies[c]], c);
    }
  }

  method AddRequest(ds: seq<Draft>, samples: map<string, nat>, replies: map<string, nat>, e: Event)
    returns (ds': seq<Draft>, samples': map<string, nat>, replies': map<string, nat>)
    requires Indexed(ds, samples, replies) && e.ToolCallRequested?
    ensures ds' == OnEvent(ds, e) && Indexed(ds', samples', replies') && replies'.Keys == replies.Keys + {e.callId}
    ensures CompletedIds(ds') == CompletedIds(ds)
  {
    ds', samples' := Patch(ds, samples, replies, e.sampleId, Tool(Call(e.callId, e.name, e.args)));
    ds', replies' := OpenReply(ds', samples', replies, e.callId);
  }

  method Complete(ds: seq<Draft>, ghost samples: map<string, nat>, replies: map<string, nat>, c: string, result: string, isError: bool)
    returns (ds': seq<Draft>)
    requires Indexed(ds, samples, replies) && c in replies
    ensures ds' == Answer(ds, c, result, isError) && Indexed(ds', samples, replies)
    ensures CompletedIds(ds') == CompletedIds(ds) + {c}
  {
    ds' := ds[replies[c] := Reply(c, result, isError, true)];
    assert ds' == Answer(ds, c, result, isError);
    CompletedAfter(ds, c, replies[c], ds');
  }

  method Advance(ds: seq<Draft>, samples: map<string, nat>, replies: map<string, nat>,
                 requested: set<string>, completed: set<string>, e: Event)
    returns (ds': seq<Draft>, samples': map<string, nat>, replies': map<string, nat>,
             requested': set<string>, completed': set<string>)
    requires Indexed(ds, samples, replies) && requested == replies.Keys && completed == CompletedIds(ds)
    ensures ds' == OnEvent(ds, e) && Indexed(ds', samples', replies')
    ensures requested' == replies'.Keys && completed' == CompletedIds(ds')
  {
    ds', samples', replies', requested', completed' := ds, samples, replies, requested, completed;
    match e
    case TurnStarted(_, input) =>
      UserAdded(ds, samples, replies, input);
      ds' := ds + [User(input)];
    case CancellationRequested(d) =>
      UserAdded(ds, samples, replies, if d then CANCELLATION_CONTEXT else ROOT_CANCELLATION_CONTEXT);
      ds' := ds + [User(if d then CANCELLATION_CONTEXT else ROOT_CANCELLATION_CONTEXT)];
    case TextPart(s, text) =>
      ds', samples' := Patch(ds, samples, replies, s, Text(text));
    case ReasoningPart(s, text, signature) =>
      ds', samples' := Patch(ds, samples, replies, s, Thought(Reasoning(text, signature)));
    case ToolCallRequested(s, c, name, args) =>
      requested' := requested + {c};
      ds', samples', replies' := AddRequest(ds, samples, replies, e);
    case ToolCallCompleted(c, result, isError) =>
      if c in requested {
        ds' := Complete(ds, samples, replies, c, result, isError);
        completed' := completed + {c};
      } else {
        NotRequested(ds, samples, replies, c, result, isError);
      }
    case _ =>
  }

  lemma UserAdded(ds: seq<Draft>, samples: map<string, nat>, replies: map<string, nat>, content: string)
    requires Indexed(ds, samples, replies)
    ensures Indexed(ds + [User(content)], samples, replies) && CompletedIds(ds + [User(content)]) == CompletedIds(ds)
  {
    SameCompleted(ds, ds + [User(content)]);
  }

  lemma NotRequested(ds: seq<Draft>, samples: map<string, nat>, replies: map<string, nat>, c: string, result: string, isError: bool)
    requires Indexed(ds, samples, replies) && c !in replies
    ensures Answer(ds, c, result, isError) == ds
  {
  }

  /** Everything but a completion leaves the completed calls as they are. */
  lemma SameCompleted(ds: seq<Draft>, ds': seq<Draft>)
    requires |ds| <= |ds'|
    requires forall i :: 0 <= i < |ds| ==> (ds[i].Reply? <==> ds'[i].Reply?) && (ds[i].Reply? ==> ds'[i] == ds[i])
    requires forall i :: |ds| <= i < |ds'| && ds'[i].Reply? ==> !ds'[i].done
    ensures CompletedIds(ds') == CompletedIds(ds)
  {
    forall c | c in CompletedIds(ds) ensures c in CompletedIds(ds') {
      var i :| 0 <= i < |ds| && ds[i].Reply? && ds[i].done && ds[i].callId == c;
      assert ds'[i] == ds[i];
    }
  }

  lemma CompletedAfter(ds: seq<Draft>, c: string, at: nat, ds': seq<Draft>)
    requires at < |ds| == |ds'| && IsReply(ds[at], c) && ds' == ds[at := ds'[at]] && IsReply(ds'[at], c) && ds'[at].done
    ensures CompletedIds(ds') == CompletedIds(ds) + {c}
  {
    forall x | x in CompletedIds(ds) ensures x in CompletedIds(ds') {
      var i :| 0 <= i < |ds| && ds[i].Reply? && ds[i].done && ds[i].callId == x;
      assert ds'[i].Reply? && ds'[i].done && ds'[i].callId == x;
    }
    assert ds'[at].callId == c;
  }
}
