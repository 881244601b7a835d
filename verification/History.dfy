/** A turn's history: the compaction window over a journal, and the trimmed history a turn
    engine keeps in memory instead of the whole journal. */
module History {
  import opened Basics

  /** Session events as far as they reach the model request; every other kind is `Other`. */
  datatype Event =
    | TurnStarted(turnId: string, input: string)
    | TextPart(sampleId: string, text: string)
    | ReasoningPart(sampleId: string, text: string, signature: Option<string>)
    | ToolCallRequested(sampleId: string, callId: string, name: string, args: string)
    | ToolCallStarted(callId: string)
    | ToolCallCompleted(callId: string, result: string, isError: bool)
    | SampleCompleted(sampleId: string, reported: nat)
    | CancellationRequested(descendants: bool)
    | CompactionApplied(tokensBefore: int, tokensAfter: int, summary: string, floor: Option<string>)
    | Other

  /** The call is requested. */
  predicate Asks(es: seq<Event>, c: string) {
    exists i :: 0 <= i < |es| && es[i].ToolCallRequested? && es[i].callId == c
  }

  /** Index of the last compaction, or -1. */
  function Latest(h: seq<Event>): (i: int)
    ensures -1 <= i < |h|
    ensures i >= 0 ==> h[i].CompactionApplied?
    ensures forall k :: i < k < |h| ==> !h[k].CompactionApplied?
  {
    if h == [] then -1
    else if h[|h| - 1].CompactionApplied? then |h| - 1
    else Latest(h[..|h| - 1])
  }

  /** Index of the first start of a turn, or the length. */
  function StartOf(h: seq<Event>, turn: string): (i: nat)
    ensures i <= |h|
    ensures i < |h| ==> h[i].TurnStarted? && h[i].turnId == turn
    ensures forall k :: 0 <= k < i ==> !(h[k].TurnStarted? && h[k].turnId == turn)
  {
    if h == [] then 0
    else if h[0].TurnStarted? && h[0].turnId == turn then 0
    else 1 + StartOf(h[1..], turn)
  }

  predicate Starts(h: seq<Event>, turn: string) {
    exists k :: 0 <= k < |h| && h[k].TurnStarted? && h[k].turnId == turn
  }

  /** Where the window begins: at the floor turn of the last compaction if the history starts
      that turn, else just after the compaction; a history never compacted is all window. */
  function Floor(h: seq<Event>): (i: nat)
    ensures i <= |h|
  {
    var latest := Latest(h);
    if latest < 0 then 0
    else if h[latest].floor.Some? && Starts(h, h[latest].floor.value) then StartOf(h, h[latest].floor.value)
    else latest + 1
  }

  function Summary(h: seq<Event>): string {
    if Latest(h) < 0 then "" else h[Latest(h)].summary
  }

  function Window(h: seq<Event>): (string, seq<Event>) {
    (Summary(h), h[Floor(h)..])
  }

  /** First index a trimmed history keeps. */
  function Cut(h: seq<Event>): (i: nat)
    ensures i <= |h|
  {
    if Latest(h) < 0 then 0 else if Latest(h) < Floor(h) then Latest(h) else Floor(h)
  }

  function Compacted(h: seq<Event>): seq<Event> {
    h[Cut(h)..]
  }

  /** The last compaction is at `i`. */
  predicate LastAt(h: seq<Event>, i: nat) {
    i < |h| && h[i].CompactionApplied? && forall k :: i < k < |h| ==> !h[k].CompactionApplied?
  }

  /** The turn is first started at `i`. */
  predicate FirstStartAt(h: seq<Event>, turn: string, i: nat) {
    i < |h| && h[i].TurnStarted? && h[i].turnId == turn && forall k :: 0 <= k < i && h[k].TurnStarted? ==> h[k].turnId != turn
  }

  /** What a request is built from: after a compaction, its summary and what follows it, or what
      begins with its floor turn, if that was started; everything, if there was no compaction. */
  ghost predicate IsWindow(h: seq<Event>, summary: string, from: nat) {
    && ((forall i: nat :: !LastAt(h, i)) ==> summary == "" && from == 0)
    && (forall i: nat :: LastAt(h, i) ==>
          summary == h[i].summary
          && if h[i].floor.Some? && Starts(h, h[i].floor.value) then FirstStartAt(h, h[i].floor.value, from) else from == i + 1)
  }

  /** What is kept: the window, and the compaction it comes from. */
  ghost predicate IsKept(h: seq<Event>, from: nat, cut: nat) {
    && ((forall i: nat :: !LastAt(h, i)) ==> cut == 0)
    && (forall i: nat :: LastAt(h, i) ==> cut == if i < from then i else from)
  }

  lemma WindowIs(h: seq<Event>)
    ensures IsWindow(h, Summary(h), Floor(h)) && IsKept(h, Floor(h), Cut(h))
  {
    if Latest(h) >= 0 { assert LastAt(h, Latest(h)); }
    forall i: nat | LastAt(h, i) ensures i == Latest(h) { LatestIs(h, i); }
  }

  /** `compaction_window`: one scan for the last compaction, one for its floor turn. */
  method CompactionWindow(events: seq<Event>) returns (summary: string, window: seq<Event>)
    ensures (summary, window) == Window(events)
  {
    var latest := -1;
    for index := 0 to |events|
      invariant latest == Latest(events[..index])
    {
      assert events[..index + 1][..index] == events[..index];
      if events[index].CompactionApplied? { latest := index; }
    }
    assert events[..|events|] == events;
    if latest < 0 { return "", events; }
    var applied := events[latest];
    var floor := latest + 1;
    if applied.floor.Some? { floor := FloorScan(events, applied.floor.value, floor); }
    return applied.summary, events[floor..];
  }

  /** The second scan: the first start of the floor turn, if there is one. */
  method FloorScan(events: seq<Event>, turn: string, otherwise: nat) returns (floor: nat)
    ensures floor == if Starts(events, turn) then StartOf(events, turn) else otherwise
  {
    floor := otherwise;
    for index := 0 to |events|
      invariant forall k :: 0 <= k < index ==> !(events[k].TurnStarted? && events[k].turnId == turn)
    {
      if events[index].TurnStarted? && events[index].turnId == turn { return index; }
    }
  }

  lemma LatestIs(h: seq<Event>, i: int)
    requires -1 <= i < |h| && (i >= 0 ==> h[i].CompactionApplied?)
    requires forall k :: i < k < |h| ==> !h[k].CompactionApplied?
    ensures Latest(h) == i
  {
  }

  /** `compacted_history`: keep the window and the compaction it comes from. */
  method CompactedHistory(events: seq<Event>) returns (kept: seq<Event>)
    ensures kept == Compacted(events)
  {
    var _, window := CompactionWindow(events);
    var latest := |events| - 1;
    while latest >= 0 && !events[latest].CompactionApplied?
      invariant -1 <= latest < |events|
      invariant forall k :: latest < k < |events| ==> !events[k].CompactionApplied?
    {
      latest := latest - 1;
    }
    LatestIs(events, latest);
    if latest < 0 { return window; }
    var floor := |events| - |window|;
    return events[if latest < floor then latest else floor..];
  }

  /* ---- splitting a journal into a dropped and a kept part ---- */

  /** The dropped part matters to no window: the kept part has the last compaction, and the
      dropped part does not start its floor turn. */
  ghost predicate Forgettable(dropped: seq<Event>, kept: seq<Event>) {
    if Latest(kept) < 0 then dropped == []
    else kept[Latest(kept)].floor.Some? ==> !Starts(dropped, kept[Latest(kept)].floor.value)
  }

  lemma LatestOfSplit(a: seq<Event>, b: seq<Event>)
    requires Latest(b) >= 0
    ensures Latest(a + b) == |a| + Latest(b)
  {
    assert (a + b)[|a| + Latest(b)] == b[Latest(b)];
    assert forall k :: |a| <= k < |a + b| ==> (a + b)[k] == b[k - |a|];
  }

  lemma LatestWithout(a: seq<Event>, b: seq<Event>)
    requires Latest(b) < 0
    ensures Latest(a + b) == Latest(a)
  {
    if Latest(a) >= 0 { assert (a + b)[Latest(a)] == a[Latest(a)]; }
    assert forall k :: |a| <= k < |a + b| ==> (a + b)[k] == b[k - |a|];
  }

  lemma StartsOfSplit(a: seq<Event>, b: seq<Event>, turn: string)
    ensures Starts(a + b, turn) <==> Starts(a, turn) || Starts(b, turn)
  {
    if Starts(a, turn) {
      var k :| 0 <= k < |a| && a[k].TurnStarted? && a[k].turnId == turn;
      assert (a + b)[k] == a[k];
    }
    if Starts(b, turn) {
      var k :| 0 <= k < |b| && b[k].TurnStarted? && b[k].turnId == turn;
      assert (a + b)[|a| + k] == b[k];
    }
    if Starts(a + b, turn) {
      var k :| 0 <= k < |a + b| && (a + b)[k].TurnStarted? && (a + b)[k].turnId == turn;
      assert k < |a| ==> a[k] == (a + b)[k];
      assert k >= |a| ==> b[k - |a|] == (a + b)[k];
    }
  }

  lemma StartOfSplit(a: seq<Event>, b: seq<Event>, turn: string)
    requires !Starts(a, turn)
    ensures StartOf(a + b, turn) == |a| + StartOf(b, turn)
  {
    var i, k := StartOf(a + b, turn), StartOf(b, turn);
    assert forall n :: 0 <= n < |a| ==> (a + b)[n] == a[n];
    assert forall n :: |a| <= n < |a + b| ==> (a + b)[n] == b[n - |a|];
    if k < |b| { assert (a + b)[|a| + k] == b[k]; }
  }

  lemma SuffixOfJoin(a: seq<Event>, b: seq<Event>, n: nat)
    requires n <= |b|
    ensures (a + b)[|a| + n..] == b[n..]
  {
  }

  /** Both parts give the window of the whole. */
  lemma ForgetKeepsWindow(dropped: seq<Event>, kept: seq<Event>)
    requires Forgettable(dropped, kept)
    ensures Window(dropped + kept) == Window(kept)
    ensures Floor(dropped + kept) == |dropped| + Floor(kept)
  {
    if Latest(kept) < 0 {
      assert dropped + kept == kept;
    } else {
      LatestOfSplit(dropped, kept);
      var c := kept[Latest(kept)];
      assert (dropped + kept)[Latest(dropped + kept)] == c;
      if c.floor.Some? {
        StartsOfSplit(dropped, kept, c.floor.value);
        StartOfSplit(dropped, kept, c.floor.value);
      }
      SuffixOfJoin(dropped, kept, Floor(kept));
    }
  }

  /** Cutting a history loses nothing a window needs. */
  lemma CutIsForgettable(h: seq<Event>)
    ensures Forgettable(h[..Cut(h)], Compacted(h))
    ensures h == h[..Cut(h)] + Compacted(h)
  {
    var c := Cut(h);
    var latest := Latest(h);
    if latest >= 0 {
      var kept := h[c..];
      assert kept[latest - c] == h[latest];
      assert Latest(kept) == latest - c by {
        assert kept[latest - c].CompactionApplied?;
        assert Latest(kept) >= latest - c;
        assert kept[Latest(kept)] == h[c + Latest(kept)];
      }
      if h[latest].floor.Some? {
        StartsOfSplit(h[..c], kept, h[latest].floor.value);
        assert h == h[..c] + kept;
      }
    }
  }

  /** A cut of the kept part, which keeps its last compaction, is a cut of the whole. */
  lemma StillForgettable(dropped: seq<Event>, cut: seq<Event>, more: seq<Event>)
    requires Latest(more) >= 0 && Forgettable(dropped, cut + more) && Forgettable(cut, more)
    ensures Forgettable(dropped + cut, more)
  {
    LatestOfSplit(cut, more);
    var c := more[Latest(more)];
    assert (cut + more)[Latest(cut + more)] == c;
    if c.floor.Some? { StartsOfSplit(dropped, cut, c.floor.value); }
  }

  lemma CutTwice(dropped: seq<Event>, kept: seq<Event>)
    requires Forgettable(dropped, kept)
    ensures Forgettable(dropped + kept[..Cut(kept)], Compacted(kept))
  {
    CutIsForgettable(kept);
    if Latest(kept) < 0 {
      assert dropped + kept[..Cut(kept)] == [];
    } else {
      LatestKept(kept);
      StillForgettable(dropped, kept[..Cut(kept)], Compacted(kept));
    }
  }

  lemma TrimInStep(dropped: seq<Event>, kept: seq<Event>)
    requires Forgettable(dropped, kept)
    ensures Forgettable(dropped + kept[..Cut(kept)], Compacted(kept))
    ensures dropped + kept == dropped + kept[..Cut(kept)] + Compacted(kept)
    ensures Window(dropped + kept) == Window(Compacted(kept))
  {
    CutTwice(dropped, kept);
    CutParts(dropped, kept, Cut(kept));
    ForgetKeepsWindow(dropped + kept[..Cut(kept)], Compacted(kept));
  }

  lemma CutParts(dropped: seq<Event>, kept: seq<Event>, n: nat)
    requires n <= |kept|
    ensures dropped + kept == dropped + kept[..n] + kept[n..]
  {
  }

  lemma LatestKept(h: seq<Event>)
    requires Latest(h) >= 0
    ensures Latest(Compacted(h)) >= 0
  {
    assert Compacted(h)[Latest(h) - Cut(h)] == h[Latest(h)];
  }

  /** Trimming a trimmed history changes nothing. */
  lemma TrimIsIdempotent(h: seq<Event>)
    ensures Compacted(Compacted(h)) == Compacted(h)
  {
    CutIsForgettable(h);
    var kept := Compacted(h);
    if Latest(h) < 0 {
      assert kept == h;
    } else {
      LatestKept(h);
      LatestOfSplit(h[..Cut(h)], kept);
      ForgetKeepsWindow(h[..Cut(h)], kept);
      assert Cut(kept) == 0;
    }
  }

  /** The last compaction of the appended events, if any, does not name a floor turn that was
      started only in the dropped part. */
  ghost predicate FloorAtHand(dropped: seq<Event>, events: seq<Event>) {
    Latest(events) >= 0 && events[Latest(events)].floor.Some? ==> !Starts(dropped, events[Latest(events)].floor.value)
  }

  lemma AppendIsForgettable(dropped: seq<Event>, kept: seq<Event>, events: seq<Event>)
    requires Forgettable(dropped, kept) && FloorAtHand(dropped, events)
    ensures Forgettable(dropped, kept + events)
  {
    if Latest(events) >= 0 {
      LatestOfSplit(kept, events);
      assert (kept + events)[Latest(kept + events)] == events[Latest(events)];
    } else {
      LatestWithout(kept, events);
      if Latest(kept) >= 0 { assert (kept + events)[Latest(kept)] == kept[Latest(kept)]; }
    }
  }

  lemma TrimKeepsWindow(h: seq<Event>)
    ensures Window(Compacted(h)) == Window(h)
  {
    CutIsForgettable(h);
    ForgetKeepsWindow(h[..Cut(h)], Compacted(h));
  }

  lemma LatestAppended(kept: seq<Event>, events: seq<Event>)
    requires Latest(events) >= 0
    ensures Latest(kept + events) >= 0 && (kept + events)[Latest(kept + events)] == events[Latest(events)]
  {
    LatestOfSplit(kept, events);
  }

  /** Exactly when an appended compaction keeps the trimmed history in step with the journal. */
  lemma FloorConditionIsExact(dropped: seq<Event>, kept: seq<Event>, events: seq<Event>)
    requires Forgettable(dropped, kept) && Latest(events) >= 0
    ensures Window(dropped + (kept + events)) == Window(Compacted(kept + events)) <==> FloorAtHand(dropped, events)
  {
    var h := kept + events;
    TrimKeepsWindow(h);
    LatestAppended(kept, events);
    if FloorAtHand(dropped, events) {
      ForgetKeepsWindow(dropped, h);
    } else {
      LongerWindow(dropped, h);
    }
  }

  /** A floor turn that only the dropped part starts makes the journal's window longer. */
  lemma LongerWindow(dropped: seq<Event>, h: seq<Event>)
    requires Latest(h) >= 0 && h[Latest(h)].floor.Some? && Starts(dropped, h[Latest(h)].floor.value)
    ensures |Window(dropped + h).1| > |Window(h).1|
  {
    var full, c := dropped + h, h[Latest(h)];
    LatestOfSplit(dropped, h);
    assert full[Latest(full)] == c;
    StartsOfSplit(dropped, h, c.floor.value);
    var k :| 0 <= k < |dropped| && dropped[k].TurnStarted? && dropped[k].turnId == c.floor.value;
    assert full[k] == dropped[k];
    assert Floor(full) <= k;
  }

  const FORGOTTEN: seq<Event> := [TurnStarted("t1", "")]
  const RETAINED: seq<Event> := [CompactionApplied(0, 0, "", None)]
  const REVIVED: seq<Event> := [CompactionApplied(0, 0, "", Some("t1"))]

  /** A compaction that revives a turn started in the dropped part alone puts the trimmed history
      out of step: the journal's window begins with that turn, the trimmed one does not. */
  lemma RevivedFloorBreaksStep()
    ensures Forgettable(FORGOTTEN, RETAINED)
    ensures Window(FORGOTTEN + (RETAINED + REVIVED)) != Window(Compacted(RETAINED + REVIVED))
    ensures Window(FORGOTTEN + (RETAINED + REVIVED)).1 == FORGOTTEN + (RETAINED + REVIVED)
  {
    assert RETAINED[0].CompactionApplied? && REVIVED[0].CompactionApplied?;
    assert FORGOTTEN[0].TurnStarted? && FORGOTTEN[0].turnId == "t1";
    assert Starts(FORGOTTEN, "t1");
    LatestAppended(RETAINED, REVIVED);
    FloorConditionIsExact(FORGOTTEN, RETAINED, REVIVED);
    FirstStarts(FORGOTTEN, RETAINED + REVIVED, "t1");
  }

  /** A window whose floor turn is started by the first event is the whole history. */
  lemma FirstStarts(dropped: seq<Event>, h: seq<Event>, t: string)
    requires dropped != [] && dropped[0].TurnStarted? && dropped[0].turnId == t
    requires Latest(h) >= 0 && h[Latest(h)].floor == Some(t)
    ensures Window(dropped + h).1 == dropped + h
  {
    var full := dropped + h;
    LatestOfSplit(dropped, h);
    assert full[Latest(full)] == h[Latest(h)];
    assert full[0] == dropped[0];
    assert Starts(full, t) && Floor(full) == 0;
  }

  ghost predicate DistinctTurns(h: seq<Event>) {
    forall i, k :: 0 <= i < k < |h| && h[i].TurnStarted? && h[k].TurnStarted? ==> h[i].turnId != h[k].turnId
  }

  /** The last compaction of `events` names no floor turn, one the journal does not start, or
      one that starts in the journal's current window (turn ids being distinct). */
  ghost predicate FloorKnown(journal: seq<Event>, events: seq<Event>) {
    Latest(events) >= 0 && events[Latest(events)].floor.Some? ==>
      var t := events[Latest(events)].floor.value;
      !Starts(journal, t) || (DistinctTurns(journal) && Starts(Window(journal).1, t))
  }

  /** A floor in the current window is always still at hand, however the journal was cut. */
  lemma FloorKnownIsAtHand(dropped: seq<Event>, kept: seq<Event>, events: seq<Event>)
    requires Forgettable(dropped, kept) && FloorKnown(dropped + kept, events)
    ensures FloorAtHand(dropped, events)
  {
    if Latest(events) >= 0 && events[Latest(events)].floor.Some? {
      var t := events[Latest(events)].floor.value;
      StartsOfSplit(dropped, kept, t);
      if Starts(dropped + kept, t) { WindowNotDropped(dropped, kept, t); }
    }
  }

  lemma WindowNotDropped(dropped: seq<Event>, kept: seq<Event>, t: string)
    requires Forgettable(dropped, kept) && DistinctTurns(dropped + kept) && Starts(Window(dropped + kept).1, t)
    ensures !Starts(dropped, t)
  {
    ForgetKeepsWindow(dropped, kept);
    var n := StartInSuffix(kept, Floor(kept), t);
    StartedOnce(dropped, kept, n);
  }

  lemma StartInSuffix(h: seq<Event>, f: nat, t: string) returns (n: nat)
    requires f <= |h| && Starts(h[f..], t)
    ensures n < |h| && h[n].TurnStarted? && h[n].turnId == t
  {
    var k :| 0 <= k < |h[f..]| && h[f..][k].TurnStarted? && h[f..][k].turnId == t;
    n := f + k;
  }

  lemma StartedOnce(dropped: seq<Event>, kept: seq<Event>, n: nat)
    requires DistinctTurns(dropped + kept) && n < |kept| && kept[n].TurnStarted?
    ensures !Starts(dropped, kept[n].turnId)
  {
    assert (dropped + kept)[|dropped| + n] == kept[n];
    assert forall k :: 0 <= k < |dropped| ==> (dropped + kept)[k] == dropped[k];
  }

  lemma AppendInStep(dropped: seq<Event>, kept: seq<Event>, events: seq<Event>)
    requires Forgettable(dropped, kept) && FloorKnown(dropped + kept, events)
    ensures Forgettable(dropped, kept + events)
    ensures dropped + kept + events == dropped + (kept + events)
    ensures Window(dropped + (kept + events)) == Window(kept + events)
  {
    FloorKnownIsAtHand(dropped, kept, events);
    AppendIsForgettable(dropped, kept, events);
    Regroup(dropped, kept, events);
    ForgetKeepsWindow(dropped, kept + events);
  }

  lemma Regroup(a: seq<Event>, b: seq<Event>, c: seq<Event>)
    ensures a + b + c == a + (b + c)
  {
  }

  /* ---- events that reach no request ---- */

  /** A history without the events that reach no request. */
  function Heard(h: seq<Event>): seq<Event> {
    if h == [] then []
    else if h[|h| - 1].Other? then Heard(h[..|h| - 1])
    else Heard(h[..|h| - 1]) + [h[|h| - 1]]
  }

  /** Two histories with the same summary whose windows differ in such events only. */
  ghost predicate SameView(a: seq<Event>, b: seq<Event>) {
    Summary(a) == Summary(b) && Heard(Window(a).1) == Heard(Window(b).1)
  }

  lemma {:induction false} HeardConcat(a: seq<Event>, b: seq<Event>)
    ensures Heard(a + b) == Heard(a) + Heard(b)
    decreases |b|
  {
    if b == [] { assert a + b == a; }
    else {
      assert (a + b)[..|a + b| - 1] == a + b[..|b| - 1];
      HeardConcat(a, b[..|b| - 1]);
    }
  }

  lemma {:induction false} HeardMembers(h: seq<Event>)
    ensures forall e :: e in Heard(h) <==> e in h && !e.Other?
    decreases |h|
  {
    if h != [] {
      HeardMembers(h[..|h| - 1]);
      assert h == h[..|h| - 1] + [h[|h| - 1]];
    }
  }

  lemma HeardStarts(h: seq<Event>, t: string)
    ensures Starts(Heard(h), t) <==> Starts(h, t)
  {
    HeardMembers(h);
    if Starts(h, t) {
      var k :| 0 <= k < |h| && h[k].TurnStarted? && h[k].turnId == t;
      assert h[k] in Heard(h);
      var i :| 0 <= i < |Heard(h)| && Heard(h)[i] == h[k];
    }
    if Starts(Heard(h), t) {
      var k :| 0 <= k < |Heard(h)| && Heard(h)[k].TurnStarted? && Heard(h)[k].turnId == t;
      assert Heard(h)[k] in h;
      var i :| 0 <= i < |h| && h[i] == Heard(h)[k];
    }
  }

  lemma HeardAround(h: seq<Event>, n: nat)
    requires n < |h| && !h[n].Other?
    ensures Heard(h) == Heard(h[..n]) + [h[n]] + Heard(h[n + 1..])
  {
    var to := h[..n + 1];
    assert h == to + h[n + 1..] && to[..|to| - 1] == h[..n];
    HeardConcat(to, h[n + 1..]);
  }

  lemma LatestAt(a: seq<Event>, c: Event, b: seq<Event>)
    requires c.CompactionApplied? && Latest(b) < 0
    ensures Latest(a + [c] + b) == |a| && (a + [c] + b)[|a|] == c
  {
    LatestWithout(a + [c], b);
    assert (a + [c])[..|a|] == a;
  }

  lemma StartAt(a: seq<Event>, e: Event, b: seq<Event>, t: string)
    requires e.TurnStarted? && e.turnId == t && !Starts(a, t)
    ensures StartOf(a + [e] + b, t) == |a|
  {
    StartOfSplit(a, [e] + b, t);
    assert a + [e] + b == a + ([e] + b);
  }

  lemma HeardNone(h: seq<Event>)
    requires Latest(h) < 0
    ensures Latest(Heard(h)) < 0
  {
    HeardMembers(h);
  }

  lemma HeardLatest(h: seq<Event>)
    ensures Latest(Heard(h)) < 0 <==> Latest(h) < 0
    ensures Latest(h) >= 0 ==> Latest(Heard(h)) == |Heard(h[..Latest(h)])| && Heard(h)[Latest(Heard(h))] == h[Latest(h)]
  {
    if Latest(h) >= 0 {
      HeardAround(h, Latest(h));
      HeardNone(h[Latest(h) + 1..]);
      LatestAt(Heard(h[..Latest(h)]), h[Latest(h)], Heard(h[Latest(h) + 1..]));
    } else {
      HeardNone(h);
    }
  }

  lemma HeardSuffix(h: seq<Event>, n: nat)
    requires n <= |h|
    ensures |Heard(h[..n])| <= |Heard(h)| && Heard(h)[|Heard(h[..n])|..] == Heard(h[n..])
  {
    assert h == h[..n] + h[n..];
    HeardConcat(h[..n], h[n..]);
  }

  lemma HeardStartOf(h: seq<Event>, t: string)
    requires Starts(h, t)
    ensures StartOf(Heard(h), t) == |Heard(h[..StartOf(h, t)])|
  {
    var n := StartOf(h, t);
    var k :| 0 <= k < |h| && h[k].TurnStarted? && h[k].turnId == t;
    HeardAround(h, n);
    HeardStarts(h[..n], t);
    StartAt(Heard(h[..n]), h[n], Heard(h[n + 1..]), t);
  }

  lemma HeardFloor(h: seq<Event>)
    ensures Floor(Heard(h)) == |Heard(h[..Floor(h)])|
  {
    HeardLatest(h);
    if Latest(h) >= 0 {
      var floor := h[Latest(h)].floor;
      if floor.Some? { HeardStarts(h, floor.value); }
      if floor.Some? && Starts(h, floor.value) { HeardStartOf(h, floor.value); }
      else {
        assert h[..Latest(h) + 1] == h[..Latest(h)] + [h[Latest(h)]];
        assert h[..Latest(h) + 1][..Latest(h)] == h[..Latest(h)];
      }
    }
  }

  /** Such events change neither the summary nor what is heard of the window. */
  lemma HeardWindow(h: seq<Event>)
    ensures Window(Heard(h)) == (Summary(h), Heard(Window(h).1))
  {
    HeardLatest(h);
    HeardFloor(h);
    HeardSuffix(h, Floor(h));
  }

  lemma SameHeardSameView(a: seq<Event>, b: seq<Event>)
    requires Heard(a) == Heard(b)
    ensures SameView(a, b)
  {
    HeardWindow(a);
    HeardWindow(b);
  }

  lemma {:induction false} HeardDistinct(h: seq<Event>)
    ensures DistinctTurns(Heard(h)) <==> DistinctTurns(h)
    decreases |h|
  {
    if h != [] {
      var front, last := h[..|h| - 1], h[|h| - 1];
      assert h == front + [last];
      HeardDistinct(front);
      DistinctSnoc(front, last);
      DistinctSnoc(Heard(front), last);
      if last.TurnStarted? { HeardStarts(front, last.turnId); }
    }
  }

  lemma DistinctSnoc(h: seq<Event>, e: Event)
    ensures DistinctTurns(h + [e]) <==> DistinctTurns(h) && (e.TurnStarted? ==> !Starts(h, e.turnId))
  {
    var all := h + [e];
    assert forall i :: 0 <= i < |h| ==> all[i] == h[i];
    if DistinctTurns(h) && (e.TurnStarted? ==> !Starts(h, e.turnId)) {
      forall i, k | 0 <= i < k < |all| && all[i].TurnStarted? && all[k].TurnStarted? ensures all[i].turnId != all[k].turnId { }
    }
    if DistinctTurns(all) {
      forall i, k | 0 <= i < k < |h| && h[i].TurnStarted? && h[k].TurnStarted? ensures h[i].turnId != h[k].turnId {
        assert all[i].turnId != all[k].turnId;
      }
      if e.TurnStarted? {
        forall i | 0 <= i < |h| && h[i].TurnStarted? ensures h[i].turnId != e.turnId { assert all[i] == h[i] && all[|h|] == e; }
      }
    }
  }

  /** What is known of a floor does not depend on such events. */
  lemma SameHeardSameFloor(journal: seq<Event>, known: seq<Event>, events: seq<Event>)
    requires Heard(journal) == Heard(known) && FloorKnown(journal, events)
    ensures FloorKnown(known, events)
  {
    if Latest(events) >= 0 && events[Latest(events)].floor.Some? {
      var t := events[Latest(events)].floor.value;
      SameHeardSameView(journal, known);
      HeardStarts(journal, t);
      HeardStarts(known, t);
      HeardStarts(Window(journal).1, t);
      HeardStarts(Window(known).1, t);
      HeardDistinct(journal);
      HeardDistinct(known);
    }
  }

  ghost predicate Unheard(events: seq<Event>) {
    forall i :: 0 <= i < |events| ==> events[i].Other?
  }

  lemma UnheardAside(journal: seq<Event>, known: seq<Event>, others: seq<Event>, events: seq<Event>)
    requires Heard(journal) == Heard(known) && Unheard(others)
    ensures Heard(journal + others + events) == Heard(known + events)
  {
    HeardConcat(journal + others, events);
    HeardConcat(journal, others);
    HeardConcat(known, events);
    NothingHeard(others);
    assert Heard(journal) + [] == Heard(journal);
  }

  lemma {:induction false} NothingHeard(events: seq<Event>)
    requires Unheard(events)
    ensures Heard(events) == []
    decreases |events|
  {
    if events != [] { NothingHeard(events[..|events| - 1]); }
  }

  ghost predicate PagesKnown(journal: seq<Event>, pages: seq<seq<Event>>) {
    forall i :: 0 <= i < |pages| ==> FloorKnown(journal + Joined(pages[..i]), pages[i])
  }

  /** The history part of a turn engine in compacted mode.  `journal` is what the session's
      journal holds; `known` the part of it the engine has read or appended itself, for its own
      appends move past what others journaled just before; `dropped` the part it no longer
      keeps. */
  class TurnHistory {
    var history: seq<Event>
    ghost var journal: seq<Event>
    ghost var known: seq<Event>
    ghost var dropped: seq<Event>

    ghost predicate Valid()
      reads this
    {
      known == dropped + history && Forgettable(dropped, history) && Heard(journal) == Heard(known)
    }

    /** The engine's window is the journal's, events that reach no request aside. */
    lemma SeesTheJournal()
      requires Valid()
      ensures SameView(history, journal)
    {
      ForgetKeepsWindow(dropped, history);
      SameHeardSameView(known, journal);
    }

    /** Load the journal and cut it. */
    constructor (events: seq<Event>)
      ensures Valid() && journal == events
      ensures Window(history) == Window(journal)
      ensures Compacted(history) == history
    {
      history := events;
      journal, known := events, events;
      dropped := [];
      new;
      assert Forgettable([], events);
      Trim();
      TrimIsIdempotent(events);
    }

    /** `_trim_history`. */
    method Trim()
      requires Valid()
      modifies this
      ensures Valid() && journal == old(journal) && known == old(known)
      ensures history == Compacted(old(history))
      ensures Window(history) == Window(known)
    {
      TrimInStep(dropped, history);
      ghost var gone := history[..Cut(history)];
      history := CompactedHistory(history);
      dropped := dropped + gone;
    }

    /** `_append`: extend, and trim if the events hold a compaction.  `others` is what other
        writers journaled since; while the turn runs, such events reach no request. */
    method Append(events: seq<Event>, ghost others: seq<Event>)
      requires Valid() && FloorKnown(journal, events) && Unheard(others)
      modifies this
      ensures Valid() && journal == old(journal) + others + events && known == old(known) + events
      ensures SameView(history, journal)
      ensures history == if Latest(events) >= 0 then Compacted(old(history) + events) else old(history) + events
    {
      SameHeardSameFloor(journal, known, events);
      UnheardAside(journal, known, others, events);
      journal := journal + others;
      Extend(events);
      SeesTheJournal();
    }

    /** The engine's own part of it. */
    method Extend(events: seq<Event>)
      requires known == dropped + history && Forgettable(dropped, history) && FloorKnown(known, events)
      requires Heard(journal + events) == Heard(known + events)
      modifies this
      ensures Valid() && journal == old(journal) + events && known == old(known) + events
      ensures history == if Latest(events) >= 0 then Compacted(old(history) + events) else old(history) + events
    {
      AppendInStep(dropped, history, events);
      history := history + events;
      journal, known := journal + events, known + events;
      var found := HasCompaction(events);
      if found { Trim(); }
    }

    /** `_absorb`: catch up with the journal, page by page. */
    method Absorb(pages: seq<seq<Event>>)
      requires Valid() && PagesKnown(journal, pages)
      modifies this
      ensures Valid() && journal == old(journal) + Joined(pages)
      ensures SameView(history, journal)
    {
      ghost var loaded := journal;
      assert journal == loaded + Joined(pages[..0]);
      for i := 0 to |pages|
        invariant Valid() && journal == loaded + Joined(pages[..i])
      {
        AbsorbOne(loaded, pages, i);
      }
      assert pages[..|pages|] == pages;
      SeesTheJournal();
    }

    method AbsorbOne(ghost loaded: seq<Event>, pages: seq<seq<Event>>, i: nat)
      requires i < |pages| && Valid() && PagesKnown(loaded, pages) && journal == loaded + Joined(pages[..i])
      modifies this
      ensures Valid() && journal == loaded + Joined(pages[..i + 1])
    {
      JoinedNext(pages, i);
      assert loaded + Joined(pages[..i]) + pages[i] == loaded + (Joined(pages[..i]) + pages[i]);
      assert journal + [] == journal;
      Append(pages[i], []);
    }
  }

  lemma JoinedNext(pages: seq<seq<Event>>, i: nat)
    requires i < |pages|
    ensures Joined(pages[..i + 1]) == Joined(pages[..i]) + pages[i]
  {
    assert pages[..i + 1][..i] == pages[..i];
  }

  method HasCompaction(events: seq<Event>) returns (found: bool)
    ensures found <==> Latest(events) >= 0
  {
    found := false;
    for i := 0 to |events|
      invariant found <==> exists k :: 0 <= k < i && events[k].CompactionApplied?
    {
      if events[i].CompactionApplied? { found := true; }
    }
  }

  function Joined(pages: seq<seq<Event>>): seq<Event> {
    if pages == [] then [] else Joined(pages[..|pages| - 1]) + pages[|pages| - 1]
  }
}
