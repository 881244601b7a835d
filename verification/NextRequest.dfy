/** From one sample to the next: the request built after a sampling step carries the outcome of each
    of the step's calls. */
module NextRequest {
  import opened Basics
  import opened History
  import opened Assembly
  import opened Samples
  import opened TurnLoop
  import opened Transcript
  import opened Pairs

  /** In the middle of a turn the window grows with the history. */
  lemma WindowGrows(was: seq<Event>, more: seq<Event>)
    requires MidTurn(more)
    ensures Window(was + more) == (Summary(was), Window(was).1 + more)
  {
    LatestWithout(was, more);
    if Latest(was) >= 0 {
      assert (was + more)[Latest(was)] == was[Latest(was)];
      var floor := was[Latest(was)].floor;
      if floor.Some? {
        StartsOfSplit(was, more, floor.value);
        if Starts(was, floor.value) { SameStart(was, more, floor.value); }
      }
    }
    Suffix(was, more, Floor(was));
  }

  lemma Suffix(was: seq<Event>, more: seq<Event>, n: nat)
    requires n <= |was|
    ensures (was + more)[n..] == was[n..] + more
  {
  }

  lemma SameStart(was: seq<Event>, more: seq<Event>, t: string)
    requires Starts(was, t)
    ensures StartOf(was + more, t) == StartOf(was, t)
  {
    var i := StartOf(was, t);
    var k :| 0 <= k < |was| && was[k].TurnStarted? && was[k].turnId == t;
    assert i <= k;
    assert (was + more)[i] == was[i];
    assert forall n :: 0 <= n < i ==> (was + more)[n] == was[n];
  }

  /** The last thing that happened to a call is in the journal where it happened. */
  lemma {:induction false} LastMark(es: seq<Event>, c: string, result: string, isError: bool) returns (i: nat)
    requires Trace(es, c) != [] && Trace(es, c)[|Trace(es, c)| - 1] == Ended(result, isError)
    ensures i < |es| && es[i] == ToolCallCompleted(c, result, isError)
    ensures forall k :: i < k < |es| && es[k].ToolCallCompleted? ==> es[k].callId != c
    decreases |es|
  {
    var front, e := es[..|es| - 1], es[|es| - 1];
    if MarkOf(e, c) == [] {
      assert Trace(es, c) == Trace(front, c);
      i := LastMark(front, c, result, isError);
    } else {
      assert Trace(es, c)[|Trace(es, c)| - 1] == MarkOf(e, c)[0];
      i := |front|;
    }
  }

  lemma Cancel<T>(a: seq<T>, b: seq<T>, c: seq<T>)
    requires a + b == a + c
    ensures b == c
  {
    assert (a + b)[|a|..] == b && (a + c)[|a|..] == c;
  }

  /** What a sample records at once starts and completes nothing. */
  lemma SampledIsUnmarked(sampleId: string, end: StreamEnd, calls: seq<Call>, x: string)
    ensures Trace(Sampled(sampleId, end, calls), x) == []
  {
    var block := Sample(sampleId, end.reasoning, end.text, calls);
    var done := SampleCompleted(sampleId, end.reported);
    TraceConcat(Events(block), [done], x);
    PartsAreUnmarked(block);
    TraceNone(Events(block), x);
    TraceNone([done], x);
  }

  lemma SampledAsks(sampleId: string, end: StreamEnd, calls: seq<Call>, n: nat)
    requires n < |calls|
    ensures Asks(Sampled(sampleId, end, calls), calls[n].id)
  {
    var block := Sample(sampleId, end.reasoning, end.text, calls);
    assert CallIds(calls)[n] == calls[n].id;
    SampleAsks(block, calls[n].id);
    AsksConcat(Events(block), [SampleCompleted(sampleId, end.reported)], calls[n].id);
  }

  /** A call recorded with its sample and then completed is answered last where its trace ends. */
  lemma AnsweredAfter(window: seq<Event>, sampled: seq<Event>, rest: seq<Event>, c: string, result: string, isError: bool) returns (i: nat)
    requires Asks(sampled, c) && Trace(rest, c) != [] && Trace(rest, c)[|Trace(rest, c)| - 1] == Ended(result, isError)
    ensures var all := window + (sampled + rest); LastAnswer(all, c, i) && all[i] == ToolCallCompleted(c, result, isError)
  {
    var k := LastMark(rest, c, result, isError);
    var all := window + (sampled + rest);
    i := |window| + |sampled| + k;
    assert all[i] == rest[k];
    AsksConcat(window, sampled, c);
    AsksConcat(window + sampled, rest[..k], c);
    assert all[..i] == window + sampled + rest[..k];
    forall m | i < m < |all| && all[m].ToolCallCompleted? ensures all[m].callId != c { assert all[m] == rest[m - |window| - |sampled|]; }
  }

  lemma RestTrace(was: seq<Event>, sampled: seq<Event>, rest: seq<Event>, c: string, marks: seq<Mark>)
    requires Trace(was + (sampled + rest), c) == Trace(was, c) + marks && Trace(sampled, c) == []
    ensures Trace(rest, c) == marks
  {
    TraceConcat(was, sampled + rest, c);
    TraceConcat(sampled, rest, c);
    assert [] + Trace(rest, c) == Trace(rest, c);
    Cancel(Trace(was, c), Trace(rest, c), marks);
  }

  lemma AnsweredNext(was: seq<Event>, sampled: seq<Event>, rest: seq<Event>, c: string, result: string, isError: bool)
    requires MidTurn(sampled + rest) && Asks(sampled, c)
    requires Trace(rest, c) != [] && Trace(rest, c)[|Trace(rest, c)| - 1] == Ended(result, isError)
    ensures ToolResult(c, result, isError) in Build(was + (sampled + rest))
  {
    WindowGrows(was, sampled + rest);
    var i := AnsweredAfter(Window(was).1, sampled, rest, c, result, isError);
    ResultIsThere(Summary(was), Window(was).1 + (sampled + rest), c, i);
  }

  lemma GrownBy(was: seq<Event>, log: seq<Event>, sampled: seq<Event>) returns (rest: seq<Event>)
    requires Grows(was, log) && was + sampled <= log
    ensures log == was + (sampled + rest) && MidTurn(sampled + rest)
  {
    rest := log[|was| + |sampled|..];
    assert log == was + (sampled + rest);
    forall i | 0 <= i < |sampled + rest| ensures !(sampled + rest)[i].CompactionApplied? && !(sampled + rest)[i].TurnStarted? {
      assert (sampled + rest)[i] == log[|was| + i];
    }
  }

  /** After a step, the next request answers every call that was completed, with the text and the
      error flag of its outcome: the tool's own result, the submitted value, or the refusal. */
  lemma NextRequestAnswers(was: seq<Event>, log: seq<Event>, sampleId: string, end: StreamEnd, calls: seq<Call>, n: nat, marks: seq<Mark>)
    requires Grows(was, log) && was + Sampled(sampleId, end, calls) <= log && n < |calls|
    requires Trace(log, calls[n].id) == Trace(was, calls[n].id) + marks && Paired(marks)
    ensures ToolResult(calls[n].id, marks[1].result, marks[1].isError) in Build(log)
  {
    var c, sampled := calls[n].id, Sampled(sampleId, end, calls);
    var rest := GrownBy(was, log, sampled);
    SampledIsUnmarked(sampleId, end, calls, c);
    RestTrace(was, sampled, rest, c, marks);
    SampledAsks(sampleId, end, calls, n);
    AnsweredNext(was, sampled, rest, c, marks[1].result, marks[1].isError);
  }
}
