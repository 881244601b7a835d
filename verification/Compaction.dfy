/** Prune-then-summarize compaction.  Whenever it returns, the request rebuilt from the extended
    history fits the budget, is as large as recorded, and still holds the current turn. */
module Compaction {
  import opened Basics
  import opened History
  import opened Assembly

  datatype Config = Config(
    buffer: nat, prunePoolMin: nat, pruneGainMin: nat, tailTurns: nat,
    summarizeAt: real, triggerAt: real, recentTokens: nat)
  datatype Limits = Limits(contextWindow: nat, maxOutput: nat)
  datatype Outcome = Returned(events: seq<Event>) | Raised

  const MIN_RESULT_CHARS := 256
  const SKILL_TOOL := "skill"
  const PRUNED := "[pruned:"

  predicate ValidConfig(c: Config) {
    0.0 < c.triggerAt <= 1.0 && 0.0 < c.summarizeAt < 1.0 && c.recentTokens > 0
  }

  /** Python's `int` of a float: towards zero. */
  function Truncate(x: real): int {
    if x >= 0.0 then x.Floor else -(-x).Floor
  }

  function Min(a: int, b: int): int { if a < b then a else b }
  function Max(a: int, b: int): int { if a < b then b else a }

  /** `CompactionConfig.usable`. */
  function Usable(c: Config, l: Limits): int {
    Min(Truncate(l.contextWindow as real * c.triggerAt), l.contextWindow - l.maxOutput - c.buffer)
  }

  lemma UsableLeavesRoom(c: Config, l: Limits)
    requires ValidConfig(c)
    ensures Usable(c, l) + l.maxOutput + c.buffer <= l.contextWindow
    ensures Usable(c, l) as real <= l.contextWindow as real * c.triggerAt
  {
    assert l.contextWindow as real * c.triggerAt >= 0.0;
  }

  /** The budget is the most that leaves that room. */
  lemma UsableIsMost(c: Config, l: Limits, n: int)
    requires ValidConfig(c) && n + l.maxOutput + c.buffer <= l.contextWindow && n as real <= l.contextWindow as real * c.triggerAt
    ensures n <= Usable(c, l)
  {
    assert l.contextWindow as real * c.triggerAt >= 0.0;
  }

  /** A positive budget has its target strictly below it. */
  lemma TargetBelowTrigger(c: Config, trigger: int)
    requires ValidConfig(c) && trigger > 0
    ensures 0 <= Truncate(trigger as real * c.summarizeAt) < trigger
  {
    var x := trigger as real * c.summarizeAt;
    assert 0.0 <= x < trigger as real;
  }

  /* ---- the tail ---- */

  function TurnIndices(es: seq<Event>): (r: seq<nat>)
    ensures forall i :: 0 <= i < |r| ==> r[i] < |es| && es[r[i]].TurnStarted?
    ensures forall i, k :: 0 <= i < k < |r| ==> r[i] < r[k]
    ensures forall n :: 0 <= n < |es| && es[n].TurnStarted? ==> n in r
  {
    if es == [] then []
    else
      var n := |es| - 1;
      if es[n].TurnStarted? then TurnIndices(es[..n]) + [n] else TurnIndices(es[..n])
  }

  /** The source's rough size of the events from an index on. */
  function Size(rough: seq<Message> -> nat, es: seq<Event>, start: nat): nat
    requires start <= |es|
  {
    rough(Assemble("", es[start..]))
  }

  function Sizes(rough: seq<Message> -> nat, es: seq<Event>, starts: seq<nat>): (r: seq<nat>)
    requires forall i :: 0 <= i < |starts| ==> starts[i] <= |es|
    ensures |r| == |starts|
    ensures forall i :: 0 <= i < |starts| ==> r[i] == Size(rough, es, starts[i])
  {
    seq(|starts|, i requires 0 <= i < |starts| => Size(rough, es, starts[i]))
  }

  /** One backward scan: extend the tail turn by turn for as long as it fits. */
  function Scan(starts: seq<nat>, sizes: seq<nat>, k: nat, budget: int): (r: nat)
    requires k < |starts| == |sizes|
  {
    if k == 0 || sizes[k - 1] > budget then starts[k] else Scan(starts, sizes, k - 1, budget)
  }

  function Tail(es: seq<Event>, rough: seq<Message> -> nat, budget: int): nat {
    var starts := TurnIndices(es);
    if starts == [] then |es| else Scan(starts, Sizes(rough, es, starts), |starts| - 1, budget)
  }

  predicate IsTurn(es: seq<Event>, n: nat) {
    n < |es| && es[n].TurnStarted?
  }

  /** The last turn of a history. */
  ghost predicate LastTurn(es: seq<Event>, n: nat) {
    IsTurn(es, n) && forall m :: n < m < |es| ==> !es[m].TurnStarted?
  }

  /** Two turns with none between them. */
  ghost predicate NextTurn(es: seq<Event>, p: nat, n: nat) {
    p < n && IsTurn(es, p) && IsTurn(es, n) && forall m :: p < m < n ==> !es[m].TurnStarted?
  }

  /** What follows an index is small enough. */
  ghost predicate SmallFrom(es: seq<Event>, rough: seq<Message> -> nat, budget: int, n: nat) {
    n <= |es| && rough(Assemble("", es[n..])) <= budget
  }

  ghost predicate NoTurns(es: seq<Event>) {
    forall n :: 0 <= n < |es| ==> !es[n].TurnStarted?
  }

  /** Every turn of the tail but the last fits the budget with what follows it. */
  ghost predicate TailIsSmall(es: seq<Event>, rough: seq<Message> -> nat, budget: int, boundary: nat) {
    forall n: nat :: boundary <= n && IsTurn(es, n) && !LastTurn(es, n) ==> SmallFrom(es, rough, budget, n)
  }

  /** The turn before the tail does not. */
  ghost predicate TailIsFull(es: seq<Event>, rough: seq<Message> -> nat, budget: int, boundary: nat) {
    forall p: nat :: NextTurn(es, p, boundary) ==> !SmallFrom(es, rough, budget, p)
  }

  /** The longest run of whole turns at the end that fits the budget turn by turn, the last turn in
      any case; a history without turns has none. */
  ghost predicate LongestTail(es: seq<Event>, rough: seq<Message> -> nat, budget: int, boundary: nat) {
    && (if NoTurns(es) then boundary == |es| else IsTurn(es, boundary))
    && TailIsSmall(es, rough, budget, boundary) && TailIsFull(es, rough, budget, boundary)
  }

  /** Which turns are small enough to begin the tail. */
  ghost function SmallStarts(es: seq<Event>, rough: seq<Message> -> nat, budget: int): (r: seq<bool>)
    ensures |r| == |TurnIndices(es)|
    ensures forall m :: 0 <= m < |r| ==> (r[m] <==> SmallFrom(es, rough, budget, TurnIndices(es)[m]))
  {
    seq(|TurnIndices(es)|, m requires 0 <= m < |TurnIndices(es)| => SmallFrom(es, rough, budget, TurnIndices(es)[m]))
  }

  /** The scan finds it. */
  lemma TailIsLongest(es: seq<Event>, rough: seq<Message> -> nat, budget: int)
    ensures LongestTail(es, rough, budget, Tail(es, rough, budget))
  {
    var starts := TurnIndices(es);
    if starts == [] {
      assert NoTurns(es);
    } else {
      SmallIsJudged(es, rough, budget);
      var j := ScanSmall(starts, Sizes(rough, es, starts), SmallStarts(es, rough, budget), budget);
      TailFrom(es, rough, budget, SmallStarts(es, rough, budget), j);
    }
  }

  lemma SmallIsJudged(es: seq<Event>, rough: seq<Message> -> nat, budget: int)
    ensures Judged(Sizes(rough, es, TurnIndices(es)), SmallStarts(es, rough, budget), budget)
  {
    var sizes, small := Sizes(rough, es, TurnIndices(es)), SmallStarts(es, rough, budget);
    forall m | 0 <= m < |small| ensures small[m] <==> sizes[m] <= budget { SmallAt(es, rough, budget, m); }
  }

  ghost predicate Judged(sizes: seq<nat>, small: seq<bool>, budget: int) {
    |sizes| == |small| && forall m :: 0 <= m < |small| ==> (small[m] <==> sizes[m] <= budget)
  }

  /** All but the last from `j` on are small, and the one before is not. */
  ghost predicate LongestRun(small: seq<bool>, j: nat) {
    j < |small| && (forall m :: j <= m < |small| - 1 ==> small[m]) && (j > 0 ==> !small[j - 1])
  }

  lemma ScanSmall(starts: seq<nat>, sizes: seq<nat>, small: seq<bool>, budget: int) returns (j: nat)
    requires 0 < |starts| == |sizes| && Judged(sizes, small, budget)
    ensures j < |starts| && Scan(starts, sizes, |starts| - 1, budget) == starts[j]
    ensures LongestRun(small, j)
  {
    j := ScanIsLongest(starts, sizes, |starts| - 1, budget);
  }

  lemma SmallAt(es: seq<Event>, rough: seq<Message> -> nat, budget: int, i: nat)
    requires i < |TurnIndices(es)|
    ensures Sizes(rough, es, TurnIndices(es))[i] <= budget <==> SmallFrom(es, rough, budget, TurnIndices(es)[i])
  {
  }

  lemma TailFrom(es: seq<Event>, rough: seq<Message> -> nat, budget: int, small: seq<bool>, j: nat)
    requires small == SmallStarts(es, rough, budget) && LongestRun(small, j)
    ensures LongestTail(es, rough, budget, TurnIndices(es)[j])
  {
    assert IsTurn(es, TurnIndices(es)[j]);
    SmallTail(es, rough, budget, TurnIndices(es), j);
    FullTail(es, rough, budget, TurnIndices(es), j);
  }

  lemma SmallTail(es: seq<Event>, rough: seq<Message> -> nat, budget: int, starts: seq<nat>, j: nat)
    requires starts == TurnIndices(es) && j < |starts|
    requires forall m :: j <= m < |starts| - 1 ==> SmallFrom(es, rough, budget, starts[m])
    ensures TailIsSmall(es, rough, budget, starts[j])
  {
    forall n: nat | starts[j] <= n && IsTurn(es, n) && !LastTurn(es, n) ensures SmallFrom(es, rough, budget, n) {
      var i := TurnAt(es, n);
      LaterTurn(es, i);
      TurnsInOrder(es, j, i);
    }
  }

  lemma FullTail(es: seq<Event>, rough: seq<Message> -> nat, budget: int, starts: seq<nat>, j: nat)
    requires starts == TurnIndices(es) && j < |starts|
    requires j > 0 ==> !SmallFrom(es, rough, budget, starts[j - 1])
    ensures TailIsFull(es, rough, budget, starts[j])
  {
    forall p: nat | NextTurn(es, p, starts[j]) ensures !SmallFrom(es, rough, budget, p) {
      var i := TurnAt(es, p);
      TurnBefore(es, i, j);
    }
  }

  lemma TurnAt(es: seq<Event>, n: nat) returns (i: nat)
    requires IsTurn(es, n)
    ensures i < |TurnIndices(es)| && TurnIndices(es)[i] == n
  {
    i :| 0 <= i < |TurnIndices(es)| && TurnIndices(es)[i] == n;
  }

  lemma TurnsInOrder(es: seq<Event>, j: nat, i: nat)
    requires i < |TurnIndices(es)| && j < |TurnIndices(es)| && TurnIndices(es)[j] <= TurnIndices(es)[i]
    ensures j <= i
  {
  }

  lemma TurnBefore(es: seq<Event>, i: nat, j: nat)
    requires i < |TurnIndices(es)| && j < |TurnIndices(es)| && NextTurn(es, TurnIndices(es)[i], TurnIndices(es)[j])
    ensures i == j - 1
  {
    var starts := TurnIndices(es);
    TurnsInOrder(es, i, j);
    assert IsTurn(es, starts[i + 1]) && starts[i] < starts[i + 1];
    assert starts[i + 1] >= starts[j];
    TurnsInOrder(es, j, i + 1);
  }

  lemma LaterTurn(es: seq<Event>, i: nat)
    requires i < |TurnIndices(es)| && !LastTurn(es, TurnIndices(es)[i])
    ensures i < |TurnIndices(es)| - 1
  {
    var starts := TurnIndices(es);
    var m :| starts[i] < m < |es| && es[m].TurnStarted?;
    assert m in starts;
  }

  /** The loops of `_tail_start`, first over the preferred turns and then over the others. */
  method ScanTurns(starts: seq<nat>, sizes: seq<nat>, budget: int, tailTurns: nat) returns (boundary: nat)
    requires 0 < |starts| == |sizes|
    ensures boundary == Scan(starts, sizes, |starts| - 1, budget) && boundary in starts
  {
    var preferred := Min(Max(tailTurns, 1), |starts|);
    boundary := starts[|starts| - 1];
    var k := |starts| - 1;
    while k > |starts| - preferred
      invariant |starts| - preferred <= k < |starts| && boundary == starts[k]
      invariant Scan(starts, sizes, |starts| - 1, budget) == Scan(starts, sizes, k, budget)
    {
      if sizes[k - 1] > budget { return; }
      k := k - 1;
      boundary := starts[k];
    }
    while k > 0
      invariant 0 <= k < |starts| && boundary == starts[k]
      invariant Scan(starts, sizes, |starts| - 1, budget) == Scan(starts, sizes, k, budget)
    {
      if sizes[k - 1] > budget { break; }
      k := k - 1;
      boundary := starts[k];
    }
  }

  /** `_tail_start`: one scan, whatever `tailTurns` is. */
  method TailStart(es: seq<Event>, rough: seq<Message> -> nat, budget: int, tailTurns: nat) returns (boundary: nat)
    ensures boundary == Tail(es, rough, budget)
    ensures TurnIndices(es) == [] || boundary in TurnIndices(es)
    ensures LongestTail(es, rough, budget, boundary)
  {
    TailIsLongest(es, rough, budget);
    boundary := LastTurns(es, rough, budget, tailTurns);
  }

  method LastTurns(es: seq<Event>, rough: seq<Message> -> nat, budget: int, tailTurns: nat) returns (boundary: nat)
    ensures boundary == Tail(es, rough, budget)
    ensures TurnIndices(es) == [] || boundary in TurnIndices(es)
  {
    var starts := TurnIndices(es);
    if starts == [] { return |es|; }
    boundary := ScanTurns(starts, Sizes(rough, es, starts), budget, tailTurns);
  }

  /** The scan ends at a turn: every turn after it that could be added was, and the turn before
      it would not have fitted. */
  lemma {:induction false} ScanIsLongest(starts: seq<nat>, sizes: seq<nat>, k: nat, budget: int) returns (j: nat)
    requires k < |starts| == |sizes|
    ensures j <= k && Scan(starts, sizes, k, budget) == starts[j]
    ensures forall m :: j <= m < k ==> sizes[m] <= budget
    ensures j > 0 ==> sizes[j - 1] > budget
  {
    if k == 0 || sizes[k - 1] > budget { j := k; }
    else { j := ScanIsLongest(starts, sizes, k - 1, budget); }
  }

  /* ---- pruning ---- */

  function Digits(n: nat): string {
    var d := ["0", "1", "2", "3", "4", "5", "6", "7", "8", "9"][n % 10];
    if n < 10 then d else Digits(n / 10) + d
  }

  function Stub(name: string, content: string): string {
    PRUNED + " " + name + " output, " + Digits(|content|) + " chars omitted]"
  }

  function Names(es: seq<Event>): map<string, string>
  {
    if es == [] then map[]
    else
      var e := es[|es| - 1];
      if e.ToolCallRequested? then Names(es[..|es| - 1])[e.callId := e.name] else Names(es[..|es| - 1])
  }

  /** The last request of its call. */
  ghost predicate LastRequest(es: seq<Event>, i: nat) {
    i < |es| && es[i].ToolCallRequested?
    && forall k :: i < k < |es| && es[k].ToolCallRequested? ==> es[k].callId != es[i].callId
  }

  /** The name each call was last requested with. */
  ghost predicate AreNames(es: seq<Event>, names: map<string, string>) {
    && (forall c :: c in names ==> exists i: nat :: LastRequest(es, i) && es[i].callId == c && es[i].name == names[c])
    && forall i: nat :: LastRequest(es, i) ==> es[i].callId in names
  }

  lemma {:induction false} NamesAre(es: seq<Event>)
    ensures AreNames(es, Names(es))
    decreases |es|
  {
    if es != [] {
      var front, e := es[..|es| - 1], es[|es| - 1];
      NamesAre(front);
      if e.ToolCallRequested? { assert LastRequest(es, |front|); }
      forall c | c in Names(es) ensures exists i: nat :: LastRequest(es, i) && es[i].callId == c && es[i].name == Names(es)[c] {
        if e.ToolCallRequested? && e.callId == c { }
        else {
          var i: nat :| LastRequest(front, i) && front[i].callId == c && front[i].name == Names(front)[c];
          assert LastRequest(es, i);
        }
      }
      forall i: nat | LastRequest(es, i) ensures es[i].callId in Names(es) {
        if i < |front| { assert LastRequest(front, i); }
      }
    }
  }

  predicate IsLatest(es: seq<Event>, n: nat)
    requires n < |es| && es[n].ToolCallCompleted?
  {
    forall m :: n < m < |es| && es[m].ToolCallCompleted? ==> es[m].callId != es[n].callId
  }

  /** A long result of a named tool, other than the skill tool's, not pruned before. */
  predicate Prunable(es: seq<Event>, names: map<string, string>, n: nat)
    requires n < |es|
  {
    var e := es[n];
    && e.ToolCallCompleted? && IsLatest(es, n) && e.callId in names && names[e.callId] != SKILL_TOOL
    && |e.result| >= MIN_RESULT_CHARS && !(PRUNED <= e.result)
  }

  function Candidates(es: seq<Event>, names: map<string, string>, n: nat): (r: seq<nat>)
    requires n <= |es|
    ensures forall i :: 0 <= i < |r| ==> r[i] < n && Prunable(es, names, r[i])
    ensures forall i, k :: 0 <= i < k < |r| ==> r[i] < r[k]
    ensures forall m :: 0 <= m < n && Prunable(es, names, m) ==> m in r
  {
    if n == 0 then []
    else if Prunable(es, names, n - 1) then Candidates(es, names, n - 1) + [n - 1]
    else Candidates(es, names, n - 1)
  }

  function StubOf(e: Event, names: map<string, string>): Event
    requires e.ToolCallCompleted? && e.callId in names
  {
    ToolCallCompleted(e.callId, Stub(names[e.callId], e.result), e.isError)
  }

  /** The candidate events, oldest first. */
  function Picks(es: seq<Event>, names: map<string, string>): (r: seq<Event>)
    ensures |r| == |Candidates(es, names, |es|)|
    ensures forall i :: 0 <= i < |r| ==> r[i] == es[Candidates(es, names, |es|)[i]]
  {
    var found := Candidates(es, names, |es|);
    seq(|found|, i requires 0 <= i < |found| => es[found[i]])
  }

  ghost predicate Named(picks: seq<Event>, names: map<string, string>) {
    forall i :: 0 <= i < |picks| ==> picks[i].ToolCallCompleted? && picks[i].callId in names
  }

  lemma PicksAreNamed(es: seq<Event>, names: map<string, string>)
    ensures Named(Picks(es, names), names)
  {
    forall i | 0 <= i < |Picks(es, names)| ensures Picks(es, names)[i].ToolCallCompleted? && Picks(es, names)[i].callId in names {
      assert Prunable(es, names, Candidates(es, names, |es|)[i]);
    }
  }

  /** The stubs of the newest `k` candidates, newest first. */
  function Newest(picks: seq<Event>, names: map<string, string>, k: nat): (r: seq<Event>)
    requires k <= |picks| && Named(picks, names)
  {
    if k == 0 then [] else Newest(picks, names, k - 1) + [StubOf(picks[|picks| - k], names)]
  }

  /** Tokens saved by a stub. */
  function Saved(e: Event, stub: Event): int
    requires e.ToolCallCompleted? && stub.ToolCallCompleted?
  {
    (|e.result| - |stub.result|) / 4
  }

  function Gain(picks: seq<Event>, names: map<string, string>, k: nat): int
    requires k <= |picks| && Named(picks, names)
  {
    if k == 0 then 0
    else
      var e := picks[|picks| - k];
      Gain(picks, names, k - 1) + Saved(e, StubOf(e, names))
  }

  /** Sums of the lengths of all candidates and of their stubs. */
  function Pool(picks: seq<Event>, names: map<string, string>): (int, int)
    requires Named(picks, names)
  {
    if picks == [] then (0, 0)
    else
      var e, rest := picks[|picks| - 1], Pool(picks[..|picks| - 1], names);
      (rest.0 + |e.result|, rest.1 + |StubOf(e, names).result|)
  }

  predicate WorthPruning(c: Config, pool: (int, int)) {
    pool.0 / 4 >= c.prunePoolMin && pool.0 / 4 - pool.1 / 4 >= c.pruneGainMin
  }

  /** The newest candidates, as few as bring the estimate down to the target. */
  ghost predicate JustEnough(picks: seq<Event>, names: map<string, string>, before: int, target: int, stubs: seq<Event>)
    requires Named(picks, names)
  {
    && 1 <= |stubs| <= |picks| && stubs == Newest(picks, names, |stubs|)
    && (|stubs| < |picks| ==> before - Gain(picks, names, |stubs|) <= target)
    && TooFew(picks, names, before, target, |stubs| - 1)
  }

  ghost predicate TooFew(picks: seq<Event>, names: map<string, string>, before: int, target: int, n: nat)
    requires n <= |picks| && Named(picks, names)
  {
    forall k :: 1 <= k <= n ==> before - Gain(picks, names, k) > target
  }

  /** The last loop of `_prune`. */
  method PickStubs(picks: seq<Event>, names: map<string, string>, before: int, target: int) returns (stubs: seq<Event>)
    requires Named(picks, names) && picks != []
    ensures JustEnough(picks, names, before, target, stubs) && OnlyResults(stubs)
  {
    stubs := [];
    var gained := 0;
    var k := 0;
    while k < |picks|
      invariant k == |stubs| <= |picks| && OnlyResults(stubs)
      invariant stubs == Newest(picks, names, k) && gained == Gain(picks, names, k)
      invariant TooFew(picks, names, before, target, k)
    {
      var e := picks[|picks| - 1 - k];
      var stub := StubOf(e, names);
      stubs := stubs + [stub];
      gained := gained + Saved(e, stub);
      k := k + 1;
      if before - gained <= target { break; }
    }
  }

  /* ---- what pruning replaces, said of the window ---- */

  function Sum(xs: seq<int>): int {
    if xs == [] then 0 else Sum(xs[..|xs| - 1]) + xs[|xs| - 1]
  }

  /** The note put in the place of a result: it names the tool and tells the length. */
  function NoteFor(e: Event, names: map<string, string>): string
    requires e.ToolCallCompleted? && e.callId in names
  {
    "[pruned: " + names[e.callId] + " output, " + Digits(|e.result|) + " chars omitted]"
  }

  function Lengths(es: seq<Event>, names: map<string, string>): seq<int>
    requires Named(es, names)
  {
    seq(|es|, i requires 0 <= i < |es| => |es[i].result|)
  }

  function NoteLengths(es: seq<Event>, names: map<string, string>): seq<int>
    requires Named(es, names)
  {
    seq(|es|, i requires 0 <= i < |es| => |NoteFor(es[i], names)|)
  }

  /** Tokens each replacement saves, the newest result first. */
  function Savings(picks: seq<Event>, names: map<string, string>): (r: seq<int>)
    requires Named(picks, names)
    ensures |r| == |picks|
    ensures forall i :: 0 <= i < |r| ==> r[i] == (|picks[|picks| - 1 - i].result| - |NoteFor(picks[|picks| - 1 - i], names)|) / 4
  {
    seq(|picks|, i requires 0 <= i < |picks| => (|picks[|picks| - 1 - i].result| - |NoteFor(picks[|picks| - 1 - i], names)|) / 4)
  }

  /** The stubs replace the newest of these results, newest first, with their call and error flag. */
  ghost predicate Replace(picks: seq<Event>, names: map<string, string>, stubs: seq<Event>)
    requires Named(picks, names)
  {
    |stubs| <= |picks|
    && forall i :: 0 <= i < |stubs| ==>
         var e := picks[|picks| - 1 - i]; stubs[i] == ToolCallCompleted(e.callId, NoteFor(e, names), e.isError)
  }

  /** Enough is there to prune, and enough is gained. */
  ghost predicate Worth(c: Config, picks: seq<Event>, names: map<string, string>)
    requires Named(picks, names)
  {
    Sum(Lengths(picks, names)) / 4 >= c.prunePoolMin
    && Sum(Lengths(picks, names)) / 4 - Sum(NoteLengths(picks, names)) / 4 >= c.pruneGainMin
  }

  /** The first `n` replacements bring the estimate down to the target, and no fewer do, unless all
      are needed. */
  ghost predicate Fewest(savings: seq<int>, before: int, target: int, n: nat) {
    && 1 <= n <= |savings|
    && (n < |savings| ==> before - Sum(savings[..n]) <= target)
    && forall k :: 1 <= k < n ==> before - Sum(savings[..k]) > target
  }

  /** What pruning puts in place of the window's prunable results: nothing if it is not worth it, else
      as few notes as needed, for the newest results. */
  ghost predicate Prunes(c: Config, window: seq<Event>, before: int, target: int, stubs: seq<Event>) {
    var names := Names(window);
    var picks := Picks(window, names);
    && Named(picks, names) && Replace(picks, names, stubs)
    && if picks != [] && Worth(c, picks, names) then Fewest(Savings(picks, names), before, target, |stubs|) else stubs == []
  }

  /** There is one way to prune. */
  lemma PrunesOneWay(c: Config, window: seq<Event>, before: int, target: int, a: seq<Event>, b: seq<Event>)
    requires Prunes(c, window, before, target, a) && Prunes(c, window, before, target, b)
    ensures a == b
  {
    var names := Names(window);
    var picks := Picks(window, names);
    if picks != [] && Worth(c, picks, names) { FewestOneWay(Savings(picks, names), before, target, |a|, |b|); }
  }

  lemma FewestOneWay(savings: seq<int>, before: int, target: int, n: nat, m: nat)
    requires Fewest(savings, before, target, n) && Fewest(savings, before, target, m)
    ensures n == m
  {
  }

  lemma {:induction false} PoolSums(picks: seq<Event>, names: map<string, string>)
    requires Named(picks, names)
    ensures Pool(picks, names) == (Sum(Lengths(picks, names)), Sum(NoteLengths(picks, names)))
    decreases |picks|
  {
    if picks != [] {
      var front := picks[..|picks| - 1];
      PoolSums(front, names);
      assert Lengths(picks, names)[..|picks| - 1] == Lengths(front, names);
      assert NoteLengths(picks, names)[..|picks| - 1] == NoteLengths(front, names);
    }
  }

  lemma {:induction false} GainSums(picks: seq<Event>, names: map<string, string>, k: nat)
    requires Named(picks, names) && k <= |picks|
    ensures Gain(picks, names, k) == Sum(Savings(picks, names)[..k])
  {
    if k > 0 {
      GainSums(picks, names, k - 1);
      assert Savings(picks, names)[..k][..k - 1] == Savings(picks, names)[..k - 1];
    }
  }

  lemma {:induction false} NewestAt(picks: seq<Event>, names: map<string, string>, k: nat)
    requires k <= |picks| && Named(picks, names)
    ensures |Newest(picks, names, k)| == k
    ensures forall i :: 0 <= i < k ==> Newest(picks, names, k)[i] == StubOf(picks[|picks| - 1 - i], names)
  {
    if k > 0 { NewestAt(picks, names, k - 1); }
  }

  /** The loops' result is that. */
  lemma JustEnoughReplaces(picks: seq<Event>, names: map<string, string>, before: int, target: int, stubs: seq<Event>)
    requires Named(picks, names) && JustEnough(picks, names, before, target, stubs)
    ensures Replace(picks, names, stubs)
  {
    NewestAt(picks, names, |stubs|);
  }

  lemma JustEnoughIsFewest(picks: seq<Event>, names: map<string, string>, before: int, target: int, stubs: seq<Event>)
    requires Named(picks, names) && JustEnough(picks, names, before, target, stubs)
    ensures Fewest(Savings(picks, names), before, target, |stubs|)
  {
    GainSums(picks, names, |stubs|);
    forall k | 1 <= k < |stubs| ensures before - Sum(Savings(picks, names)[..k]) > target { GainSums(picks, names, k); }
  }

  /** `_prune`. */
  method Prune(c: Config, window: seq<Event>, before: int, target: int) returns (stubs: seq<Event>)
    ensures var names := Names(window);
            var picks := Picks(window, names);
            Named(picks, names)
            && if WorthPruning(c, Pool(picks, names)) && picks != [] then JustEnough(picks, names, before, target, stubs)
               else stubs == []
    ensures OnlyResults(stubs) && Prunes(c, window, before, target, stubs)
  {
    var names := Names(window);
    var picks := Picks(window, names);
    PicksAreNamed(window, names);
    stubs := [];
    PoolSums(picks, names);
    if WorthPruning(c, Pool(picks, names)) && picks != [] {
      stubs := PickStubs(picks, names, before, target);
      JustEnoughReplaces(picks, names, before, target, stubs);
      JustEnoughIsFewest(picks, names, before, target, stubs);
    }
  }

  ghost predicate OnlyResults(es: seq<Event>) {
    forall i :: 0 <= i < |es| ==> es[i].ToolCallCompleted?
  }

  /** A pruned result is never pruned again. */
  lemma PrunedOnce(window: seq<Event>, names: map<string, string>, stubs: seq<Event>, n: nat, e: Event)
    requires n < |window| && e in stubs && e.ToolCallCompleted? && names == Names(window) && OnlyResults(stubs)
    requires exists name, content :: e.result == Stub(name, content)
    requires window[n].ToolCallCompleted? && window[n].callId == e.callId
    ensures !Prunable(window + stubs, names, n) && PRUNED <= e.result
  {
    var i :| 0 <= i < |stubs| && stubs[i] == e;
    assert (window + stubs)[|window| + i] == e;
    assert (window + stubs)[n] == window[n];
  }

  /* ---- the rebuilt request ---- */

  lemma AppendResults(h: seq<Event>, more: seq<Event>)
    requires OnlyResults(more)
    ensures Window(h + more) == (Window(h).0, Window(h).1 + more)
  {
    SameFloor(h, more);
    assert (h + more)[Floor(h)..] == h[Floor(h)..] + more;
  }

  lemma SameFloor(h: seq<Event>, more: seq<Event>)
    requires OnlyResults(more)
    ensures Floor(h + more) == Floor(h) && Summary(h + more) == Summary(h)
  {
    LatestWithout(h, more);
    if Latest(h) >= 0 {
      assert (h + more)[Latest(h)] == h[Latest(h)];
      var f := h[Latest(h)].floor;
      if f.Some? { SameStart(h, more, f.value); }
    }
  }

  lemma SameStart(h: seq<Event>, more: seq<Event>, t: string)
    requires OnlyResults(more)
    ensures Starts(h + more, t) <==> Starts(h, t)
    ensures Starts(h, t) ==> StartOf(h + more, t) == StartOf(h, t)
  {
    StartsOfSplit(h, more, t);
    if Starts(h, t) {
      var i := StartOf(h, t);
      assert forall k :: 0 <= k < |h| ==> (h + more)[k] == h[k];
    }
  }

  /** A summary whose floor is a turn of the window makes that turn the start of the new window. */
  lemma SummaryWindow(h: seq<Event>, boundary: nat, durable: seq<Event>, applied: Event)
    requires DistinctTurns(h) && boundary < |Window(h).1| && Window(h).1[boundary].TurnStarted?
    requires OnlyResults(durable) && applied.CompactionApplied? && applied.floor == Some(Window(h).1[boundary].turnId)
    ensures Window(h + (durable + [applied])) == (applied.summary, Window(h).1[boundary..] + durable + [applied])
  {
    var t, at := applied.floor.value, Floor(h) + boundary;
    var h' := h + (durable + [applied]);
    assert h'[|h'| - 1] == applied;
    assert h[at] == Window(h).1[boundary] == h'[at];
    assert Starts(h', t);
    var i := StartOf(h', t);
    assert i <= at;
    assert h'[i] == h[i];
    assert i == at;
    assert h'[at..] == Window(h).1[boundary..] + durable + [applied];
  }

  lemma {:induction false} RepliesAreRequested(summary: string, es: seq<Event>, c: string)
    requires HasReply(Fold(First(summary), es), c)
    ensures Asks(es, c)
    decreases |es|
  {
    if es != [] {
      var front, e := es[..|es| - 1], es[|es| - 1];
      ReplySource(Fold(First(summary), front), e, c);
      if HasReply(Fold(First(summary), front), c) { RepliesAreRequested(summary, front, c); }
    }
  }

  lemma ReplySource(ds: seq<Draft>, e: Event, c: string)
    requires HasReply(OnEvent(ds, e), c)
    ensures HasReply(ds, c) || (e.ToolCallRequested? && e.callId == c)
  {
    match e
    case ToolCallRequested(s, id, name, args) =>
      var n := OnPart(ds, s, Tool(Call(id, name, args)));
      if HasReply(n, c) { PartAddsNoReply(ds, s, Tool(Call(id, name, args)), c); }
    case TextPart(s, text) => PartAddsNoReply(ds, s, Text(text), c);
    case ReasoningPart(s, text, signature) => PartAddsNoReply(ds, s, Thought(Reasoning(text, signature)), c);
    case ToolCallCompleted(id, result, isError) => AnswerKeepsReplies(ds, id, result, isError, c);
    case _ =>
      var i :| 0 <= i < |OnEvent(ds, e)| && IsReply(OnEvent(ds, e)[i], c);
      assert IsReply(ds[i], c);
  }

  lemma PartAddsNoReply(ds: seq<Draft>, s: string, p: Part, c: string)
    requires HasReply(OnPart(ds, s, p), c)
    ensures HasReply(ds, c)
  {
    var i :| 0 <= i < |OnPart(ds, s, p)| && IsReply(OnPart(ds, s, p)[i], c);
    assert IsReply(ds[i], c);
  }

  function Durable(stubs: seq<Event>, calls: set<string>): seq<Event>
    requires forall i :: 0 <= i < |stubs| ==> stubs[i].ToolCallCompleted?
  {
    if stubs == [] then []
    else
      var n := |stubs| - 1;
      if stubs[n].callId in calls then Durable(stubs[..n], calls) + [stubs[n]] else Durable(stubs[..n], calls)
  }

  lemma {:induction false} DurableAreResults(stubs: seq<Event>, calls: set<string>)
    requires OnlyResults(stubs)
    ensures OnlyResults(Durable(stubs, calls))
  {
    if stubs != [] { DurableAreResults(stubs[..|stubs| - 1], calls); }
  }

  lemma AnswerKeepsReplies(ds: seq<Draft>, c: string, result: string, isError: bool, x: string)
    ensures HasReply(Answer(ds, c, result, isError), x) <==> HasReply(ds, x)
    ensures !HasReply(ds, c) ==> Answer(ds, c, result, isError) == ds
  {
    var ds' := Answer(ds, c, result, isError);
    assert forall i :: 0 <= i < |ds| ==> (IsReply(ds'[i], x) <==> IsReply(ds[i], x));
  }

  /** Stubs of calls that have no reply change nothing. */
  lemma {:induction false} DurableSuffices(ds: seq<Draft>, stubs: seq<Event>, calls: set<string>)
    requires OnlyResults(stubs) && forall c :: HasReply(ds, c) ==> c in calls
    ensures Fold(ds, stubs) == Fold(ds, Durable(stubs, calls))
    ensures forall c :: HasReply(Fold(ds, stubs), c) ==> c in calls
    decreases |stubs|
  {
    if stubs != [] {
      var n := |stubs| - 1;
      DurableSuffices(ds, stubs[..n], calls);
      var mid, e := Fold(ds, stubs[..n]), stubs[n];
      forall x ensures HasReply(Fold(ds, stubs), x) <==> HasReply(mid, x) { AnswerKeepsReplies(mid, e.callId, e.result, e.isError, x); }
      AnswerKeepsReplies(mid, e.callId, e.result, e.isError, e.callId);
      var d := Durable(stubs, calls);
      if e.callId in calls { assert d[..|d| - 1] == Durable(stubs[..n], calls); }
    }
  }

  function RequestedIn(es: seq<Event>): (r: set<string>)
    ensures forall c :: c in r <==> Asks(es, c)
  {
    set i | 0 <= i < |es| && es[i].ToolCallRequested? :: es[i].callId
  }

  /** The recorded tail and the projected tail assemble to the same messages. */
  lemma TailMessages(summary: string, tail: seq<Event>, stubs: seq<Event>, applied: Event)
    requires OnlyResults(stubs) && applied.CompactionApplied?
    ensures Assemble(summary, tail + Durable(stubs, RequestedIn(tail)) + [applied]) == Assemble(summary, tail + stubs)
  {
    var calls, ds := RequestedIn(tail), Fold(First(summary), tail);
    forall c | HasReply(ds, c) ensures c in calls { RepliesAreRequested(summary, tail, c); }
    DurableSuffices(ds, stubs, calls);
    var d := Durable(stubs, calls);
    FoldConcat(First(summary), tail, stubs);
    FoldConcat(First(summary), tail, d);
    var es := tail + d + [applied];
    assert es[..|es| - 1] == tail + d;
  }

  /* ---- the compaction ---- */

  /** What the caller gets from a compaction that returned. */
  ghost predicate Fits(h: seq<Event>, events: seq<Event>, projected: seq<Message> -> nat, trigger: int) {
    && projected(Build(h + events)) < trigger
    && (Latest(events) >= 0 ==> events[Latest(events)].tokensAfter == projected(Build(h + events)))
  }

  /** The last turn the window starts. */
  ghost predicate Current(window: seq<Event>, e: Event) {
    var starts := TurnIndices(window);
    starts != [] && e == window[starts[|starts| - 1]]
  }

  ghost predicate KeepsCurrent(h: seq<Event>, events: seq<Event>) {
    forall e :: Current(Window(h).1, e) ==> e in Window(h + events).1
  }

  lemma NothingDone(h: seq<Event>, projected: seq<Message> -> nat, trigger: int)
    requires projected(Build(h)) < trigger
    ensures Fits(h, [], projected, trigger) && KeepsCurrent(h, []) && FloorKnown(h, [])
  {
    assert h + [] == h;
  }

  lemma OnlyPruned(h: seq<Event>, stubs: seq<Event>, projected: seq<Message> -> nat, trigger: int)
    requires OnlyResults(stubs) && projected(Assemble(Window(h).0, Window(h).1 + stubs)) < trigger
    ensures Fits(h, stubs, projected, trigger) && KeepsCurrent(h, stubs) && FloorKnown(h, stubs)
  {
    AppendResults(h, stubs);
  }

  /** A recorded summary: its floor is a turn of the window no later than the current one. */
  ghost predicate Recorded(h: seq<Event>, boundary: nat, applied: Event) {
    var w := Window(h).1;
    && DistinctTurns(h) && boundary < |w| && w[boundary].TurnStarted?
    && applied.CompactionApplied? && applied.floor == Some(w[boundary].turnId)
  }

  /** What the source appends: the summary, after the stubs the new window still needs. */
  function Appended(w: seq<Event>, boundary: nat, stubs: seq<Event>, applied: Event): seq<Event>
    requires boundary <= |w| && forall i :: 0 <= i < |stubs| ==> stubs[i].ToolCallCompleted?
  {
    Durable(stubs, RequestedIn(w[boundary..])) + [applied]
  }

  lemma SummaryFits(h: seq<Event>, boundary: nat, stubs: seq<Event>, applied: Event, projected: seq<Message> -> nat, trigger: int)
    requires Recorded(h, boundary, applied) && OnlyResults(stubs)
    requires applied.tokensAfter == projected(Assemble(applied.summary, Window(h).1[boundary..] + stubs)) < trigger
    ensures Fits(h, Appended(Window(h).1, boundary, stubs, applied), projected, trigger)
  {
    var tail := Window(h).1[boundary..];
    var d := Durable(stubs, RequestedIn(tail));
    DurableAreResults(stubs, RequestedIn(tail));
    SummaryWindow(h, boundary, d, applied);
    TailMessages(applied.summary, tail, stubs, applied);
    LastIsApplied(d, applied);
  }

  lemma LastIsApplied(d: seq<Event>, applied: Event)
    requires applied.CompactionApplied?
    ensures Latest(d + [applied]) == |d| && (d + [applied])[|d|] == applied
  {
  }

  lemma SummaryKeepsCurrent(h: seq<Event>, boundary: nat, stubs: seq<Event>, applied: Event)
    requires Recorded(h, boundary, applied) && OnlyResults(stubs)
    requires TurnIndices(Window(h).1) != [] && boundary <= TurnIndices(Window(h).1)[|TurnIndices(Window(h).1)| - 1]
    ensures KeepsCurrent(h, Appended(Window(h).1, boundary, stubs, applied))
  {
    var w := Window(h).1;
    var d := Durable(stubs, RequestedIn(w[boundary..]));
    DurableAreResults(stubs, RequestedIn(w[boundary..]));
    SummaryWindow(h, boundary, d, applied);
    TailHasCurrent(w, boundary, d, [applied]);
  }

  lemma SummaryFloorKnown(h: seq<Event>, boundary: nat, stubs: seq<Event>, applied: Event)
    requires Recorded(h, boundary, applied) && OnlyResults(stubs)
    ensures FloorKnown(h, Appended(Window(h).1, boundary, stubs, applied))
  {
    LastIsApplied(Durable(stubs, RequestedIn(Window(h).1[boundary..])), applied);
  }

  lemma TailHasCurrent(w: seq<Event>, boundary: nat, stubs: seq<Event>, more: seq<Event>)
    requires TurnIndices(w) != [] && boundary <= TurnIndices(w)[|TurnIndices(w)| - 1]
    ensures forall e :: Current(w, e) ==> e in w[boundary..] + stubs + more
  {
    var last := TurnIndices(w)[|TurnIndices(w)| - 1];
    assert (w[boundary..] + stubs + more)[last - boundary] == w[last];
  }

  /** Turns of the window and of the window with stubs are the same. */
  lemma {:induction false} SameTurns(w: seq<Event>, stubs: seq<Event>)
    requires OnlyResults(stubs)
    ensures TurnIndices(w + stubs) == TurnIndices(w)
    decreases |stubs|
  {
    if stubs == [] { assert w + stubs == w; }
    else {
      assert (w + stubs)[..|w + stubs| - 1] == w + stubs[..|stubs| - 1];
      SameTurns(w, stubs[..|stubs| - 1]);
    }
  }

  function FirstTurn(es: seq<Event>): Option<string> {
    var starts := TurnIndices(es);
    if starts == [] then None else Some(es[starts[0]].turnId)
  }

  lemma FloorIsBoundary(w: seq<Event>, boundary: nat)
    requires boundary < |w| && w[boundary].TurnStarted?
    ensures FirstTurn(w[boundary..]) == Some(w[boundary].turnId)
  {
    assert w[boundary..][0].TurnStarted?;
    assert 0 in TurnIndices(w[boundary..]);
  }

  predicate EarliestTurn(es: seq<Event>, n: nat) {
    IsTurn(es, n) && forall m :: 0 <= m < n ==> !es[m].TurnStarted?
  }

  /** Where the summary ends and the tail begins: the tail is the longest that fits, but where it is
      all the turns there are and the window must shrink, its first turn is summarized too. */
  ghost predicate CutsAt(window: seq<Event>, stubs: seq<Event>, rough: seq<Message> -> nat, budget: int, shrink: bool, boundary: nat) {
    exists tail: nat :: LongestTail(window + stubs, rough, budget, tail) && CutOf(window, tail, shrink, boundary)
  }

  ghost predicate CutOf(window: seq<Event>, tail: nat, shrink: bool, boundary: nat) {
    if shrink && EarliestTurn(window, tail) && !LastTurn(window, tail) then NextTurn(window, tail, boundary) else boundary == tail
  }

  lemma ShrunkIsCut(window: seq<Event>, tail: nat, shrink: bool)
    requires TurnIndices(window) != [] ==> tail in TurnIndices(window)
    requires TurnIndices(window) == [] ==> tail >= |window|
    ensures var starts := TurnIndices(window);
            CutOf(window, tail, shrink, if shrink && |starts| > 1 && tail == starts[0] then starts[1] else tail)
  {
    var starts := TurnIndices(window);
    if starts != [] {
      EarliestIsFirst(window, tail);
      if |starts| > 1 { SecondIsNext(window); }
      else { OnlyTurnIsLast(window); }
    }
  }

  lemma EarliestIsFirst(window: seq<Event>, n: nat)
    requires TurnIndices(window) != []
    ensures EarliestTurn(window, n) <==> n == TurnIndices(window)[0]
  {
    var starts := TurnIndices(window);
    if EarliestTurn(window, n) {
      FromFirst(window, n);
      assert !(starts[0] < n);
    }
    forall m | 0 <= m < starts[0] ensures !window[m].TurnStarted? {
      if window[m].TurnStarted? { FromFirst(window, m); }
    }
  }

  lemma FromFirst(window: seq<Event>, m: nat)
    requires IsTurn(window, m)
    ensures TurnIndices(window) != [] && m >= TurnIndices(window)[0]
  {
    var i := TurnAt(window, m);
  }

  lemma PastFirst(window: seq<Event>, m: nat)
    requires IsTurn(window, m) && TurnIndices(window) != [] && m > TurnIndices(window)[0]
    ensures |TurnIndices(window)| > 1 && m >= TurnIndices(window)[1]
  {
    var i := TurnAt(window, m);
  }

  lemma SecondIsNext(window: seq<Event>)
    requires |TurnIndices(window)| > 1
    ensures NextTurn(window, TurnIndices(window)[0], TurnIndices(window)[1]) && !LastTurn(window, TurnIndices(window)[0])
  {
    var starts := TurnIndices(window);
    forall m | starts[0] < m < starts[1] ensures !window[m].TurnStarted? {
      if window[m].TurnStarted? { PastFirst(window, m); }
    }
    assert window[starts[1]].TurnStarted?;
  }

  lemma OnlyTurnIsLast(window: seq<Event>)
    requires |TurnIndices(window)| == 1
    ensures LastTurn(window, TurnIndices(window)[0])
  {
    var starts := TurnIndices(window);
    forall m | starts[0] < m < |window| ensures !window[m].TurnStarted? {
      if window[m].TurnStarted? { PastFirst(window, m); }
    }
  }

  /** The boundary of `_compact`: the tail, less its first turn when that is the whole window
      and the window must shrink. */
  method Boundary(window: seq<Event>, stubs: seq<Event>, rough: seq<Message> -> nat, budget: int, tailTurns: nat, shrink: bool)
    returns (boundary: nat)
    requires OnlyResults(stubs)
    ensures TurnIndices(window) == [] ==> boundary == |window + stubs|
    ensures TurnIndices(window) != [] ==>
              boundary in TurnIndices(window) && boundary <= TurnIndices(window)[|TurnIndices(window)| - 1]
    ensures CutsAt(window, stubs, rough, budget, shrink, boundary)
  {
    var tail := TailStart(window + stubs, rough, budget, tailTurns);
    SameTurns(window, stubs);
    boundary := Shrunk(TurnIndices(window), tail, shrink);
    ShrunkCuts(window, stubs, rough, budget, shrink, tail);
  }

  lemma ShrunkCuts(window: seq<Event>, stubs: seq<Event>, rough: seq<Message> -> nat, budget: int, shrink: bool, tail: nat)
    requires LongestTail(window + stubs, rough, budget, tail)
    requires if TurnIndices(window) != [] then tail in TurnIndices(window) else tail >= |window|
    ensures var starts := TurnIndices(window);
            CutsAt(window, stubs, rough, budget, shrink, if shrink && |starts| > 1 && tail == starts[0] then starts[1] else tail)
  {
    ShrunkIsCut(window, tail, shrink);
  }

  method Shrunk(starts: seq<nat>, tail: nat, shrink: bool) returns (boundary: nat)
    requires forall i, k :: 0 <= i < k < |starts| ==> starts[i] < starts[k]
    requires starts != [] ==> tail in starts
    ensures starts == [] ==> boundary == tail
    ensures starts != [] ==> boundary in starts && boundary <= starts[|starts| - 1]
    ensures boundary == if shrink && |starts| > 1 && tail == starts[0] then starts[1] else tail
  {
    boundary := tail;
    if shrink && starts != [] && boundary == starts[0] && |starts| > 1 {
      boundary := starts[1];
    }
    if starts != [] { LastIsLargest(starts, boundary); }
  }

  lemma LastIsLargest(starts: seq<nat>, b: nat)
    requires b in starts && forall i, k :: 0 <= i < k < |starts| ==> starts[i] < starts[k]
    ensures b <= starts[|starts| - 1]
  {
    var i :| 0 <= i < |starts| && starts[i] == b;
  }

  /** The second half of `_compact`: summarize what precedes the boundary. */
  method Summarize(history: seq<Event>, window: seq<Event>, stubs: seq<Event>, boundary: nat, before: int, trigger: int,
                   projected: seq<Message> -> nat, brief: Option<string>) returns (r: Outcome)
    requires DistinctTurns(history) && window == Window(history).1 && OnlyResults(stubs)
    requires TurnIndices(window) == [] ==> boundary == |window + stubs|
    requires TurnIndices(window) != [] ==>
               boundary in TurnIndices(window) && boundary <= TurnIndices(window)[|TurnIndices(window)| - 1]
    ensures r.Returned? ==> Fits(history, r.events, projected, trigger)
    ensures r.Returned? ==> KeepsCurrent(history, r.events) && FloorKnown(history, r.events)
    ensures r.Raised? <==> NoSummary(window, stubs, boundary, trigger, projected, brief)
    ensures r.Returned? ==> Summarized(window, stubs, boundary, before, projected, brief, r.events)
  {
    var cut := Min(boundary, |window|);
    var prefix, tail := window[..cut], window[cut..];
    var floor := FirstTurn(tail);
    NoFloor(tail);
    NoFloor(prefix);
    if floor.None? || TurnIndices(prefix) == [] { return Raised; }
    if brief.None? || brief.value == "" { return Raised; }
    var after := projected(Assemble(brief.value, tail + stubs));
    if after >= trigger { return Raised; }
    SomeTurn(window, cut);
    FloorIsBoundary(window, boundary);
    var applied := CompactionApplied(before, after, brief.value, floor);
    SummaryFits(history, boundary, stubs, applied, projected, trigger);
    SummaryKeepsCurrent(history, boundary, stubs, applied);
    SummaryFloorKnown(history, boundary, stubs, applied);
    return Returned(Appended(window, boundary, stubs, applied));
  }

  lemma NoFloor(es: seq<Event>)
    ensures NoTurns(es) <==> TurnIndices(es) == []
  {
    if TurnIndices(es) != [] { assert es[TurnIndices(es)[0]].TurnStarted?; }
  }

  /** The tail has no turn, or nothing with a turn precedes it; or the brief is missing, or does not
      make the request small enough. */
  ghost predicate NoSummary(window: seq<Event>, stubs: seq<Event>, boundary: nat, trigger: int, projected: seq<Message> -> nat, brief: Option<string>) {
    var cut := Min(boundary, |window|);
    || NoTurns(window[cut..]) || NoTurns(window[..cut])
    || brief.None? || brief.value == ""
    || projected(Assemble(brief.value, window[cut..] + stubs)) >= trigger
  }

  /** What is appended: the stubs of the calls the tail requests, and a compaction with the sizes, the
      brief and the turn at the boundary. */
  ghost predicate Summarized(window: seq<Event>, stubs: seq<Event>, boundary: nat, before: int, projected: seq<Message> -> nat,
                             brief: Option<string>, events: seq<Event>) {
    && boundary < |window| && window[boundary].TurnStarted? && brief.Some? && OnlyResults(stubs)
    && var after := projected(Assemble(brief.value, window[boundary..] + stubs));
       events == Durable(stubs, RequestedIn(window[boundary..]))
                 + [CompactionApplied(before, after, brief.value, Some(window[boundary].turnId))]
  }

  /** The part of the window from its last turn on. */
  function CurrentPart(window: seq<Event>): (r: seq<Event>)
    ensures NoTurns(window) ==> r == []
    ensures forall n: nat :: LastTurn(window, n) ==> r == window[n..]
  {
    var starts := TurnIndices(window);
    if starts == [] then [] else window[starts[|starts| - 1]..]
  }

  /** Nothing is asked of the compactor: no overflow forces it, and both estimates are below the budget. */
  ghost predicate Idle(history: seq<Event>, projected: seq<Message> -> nat, reported: nat, forced: bool, trigger: int) {
    !forced && reported < trigger && projected(Build(history)) < trigger
  }

  /** The current turn alone does not fit. */
  ghost predicate TooLarge(window: seq<Event>, stubs: seq<Event>, projected: seq<Message> -> nat, trigger: int) {
    projected(Assemble("", CurrentPart(window) + stubs)) >= trigger
  }

  /** The stubs alone bring the request down to the target. */
  ghost predicate StubsSuffice(summary: string, window: seq<Event>, stubs: seq<Event>, projected: seq<Message> -> nat, target: int) {
    stubs != [] && projected(Assemble(summary, window + stubs)) <= target
  }

  function TargetOf(c: Config, trigger: int): int {
    Truncate(trigger as real * c.summarizeAt)
  }

  /** There is no way to return: the current turn does not fit, or a summary is needed and cannot be
      had. */
  ghost predicate MustRaise(summary: string, window: seq<Event>, stubs: seq<Event>, boundary: nat, trigger: int, target: int,
                            projected: seq<Message> -> nat, brief: Option<string>) {
    || TooLarge(window, stubs, projected, trigger)
    || (!StubsSuffice(summary, window, stubs, projected, target) && NoSummary(window, stubs, boundary, trigger, projected, brief))
  }

  /** What is returned: the stubs alone if they suffice, else with a summary. */
  ghost predicate Returns(summary: string, window: seq<Event>, stubs: seq<Event>, boundary: nat, before: int, target: int,
                          projected: seq<Message> -> nat, brief: Option<string>, events: seq<Event>) {
    if StubsSuffice(summary, window, stubs, projected, target) then events == stubs
    else Summarized(window, stubs, boundary, before, projected, brief, events)
  }

  /** `_compact` once it has something to do. */
  method Shrink(c: Config, history: seq<Event>, summary: string, window: seq<Event>, trigger: int, projected: seq<Message> -> nat,
                rough: seq<Message> -> nat, before: int, shrink: bool, brief: Option<string>)
    returns (r: Outcome, ghost stubs: seq<Event>, ghost boundary: nat)
    requires ValidConfig(c) && DistinctTurns(history) && (summary, window) == Window(history)
    ensures Prunes(c, window, before, TargetOf(c, trigger), stubs)
    ensures CutsAt(window, stubs, rough, TailBudget(c, trigger, projected), shrink, boundary)
    ensures r.Returned? ==> Fits(history, r.events, projected, trigger)
    ensures r.Returned? ==> KeepsCurrent(history, r.events) && FloorKnown(history, r.events) && r.events != []
    ensures r.Raised? <==> MustRaise(summary, window, stubs, boundary, trigger, TargetOf(c, trigger), projected, brief)
    ensures r.Returned? ==> Returns(summary, window, stubs, boundary, before, TargetOf(c, trigger), projected, brief, r.events)
  {
    var target := TargetOf(c, trigger);
    var notes := Prune(c, window, before, target);
    var cut := Boundary(window, notes, rough, TailBudget(c, trigger, projected), c.tailTurns, shrink);
    stubs, boundary := notes, cut;
    if trigger > 0 { TargetBelowTrigger(c, trigger); }
    r := Decide(history, summary, window, notes, cut, before, trigger, target, projected, brief);
  }

  method CurrentTurn(window: seq<Event>) returns (part: seq<Event>)
    ensures part == CurrentPart(window)
  {
    var starts := TurnIndices(window);
    var currentStart := if starts == [] then |window| else starts[|starts| - 1];
    part := window[currentStart..];
  }

  /** The outcome, once the stubs and the boundary are there. */
  method Decide(history: seq<Event>, summary: string, window: seq<Event>, stubs: seq<Event>, boundary: nat, before: int, trigger: int,
                target: int, projected: seq<Message> -> nat, brief: Option<string>) returns (r: Outcome)
    requires DistinctTurns(history) && (summary, window) == Window(history) && OnlyResults(stubs) && (trigger > 0 ==> target < trigger)
    requires TurnIndices(window) == [] ==> boundary == |window + stubs|
    requires TurnIndices(window) != [] ==>
               boundary in TurnIndices(window) && boundary <= TurnIndices(window)[|TurnIndices(window)| - 1]
    ensures r.Returned? ==> Fits(history, r.events, projected, trigger)
    ensures r.Returned? ==> KeepsCurrent(history, r.events) && FloorKnown(history, r.events) && r.events != []
    ensures r.Raised? <==> MustRaise(summary, window, stubs, boundary, trigger, target, projected, brief)
    ensures r.Returned? ==> Returns(summary, window, stubs, boundary, before, target, projected, brief, r.events)
  {
    var current := CurrentTurn(window);
    if projected(Assemble("", current + stubs)) >= trigger { return Raised; }
    if stubs != [] && projected(Assemble(summary, window + stubs)) <= target {
      OnlyPruned(history, stubs, projected, trigger);
      return Returned(stubs);
    }
    r := Summarize(history, window, stubs, boundary, before, trigger, projected, brief);
  }

  /** `PruneThenSummarize._compact`.  `projected` estimates a request with the given messages,
      `rough` the messages alone, `reported` is the usage-based estimate and `brief` what the
      provider answers.  It returns nothing exactly if it is idle; else it prunes and cuts the window,
      and raises exactly if it must. */
  method Compact(c: Config, limits: Limits, history: seq<Event>, projected: seq<Message> -> nat, rough: seq<Message> -> nat,
                 reported: nat, forced: bool, brief: Option<string>) returns (r: Outcome, ghost stubs: seq<Event>, ghost boundary: nat)
    requires ValidConfig(c) && DistinctTurns(history)
    ensures r.Returned? ==> Fits(history, r.events, projected, Usable(c, limits))
    ensures r.Returned? ==> KeepsCurrent(history, r.events) && FloorKnown(history, r.events)
    ensures r == Returned([]) <==> Idle(history, projected, reported, forced, Usable(c, limits))
    ensures r != Returned([]) ==>
              var trigger, (summary, window), now := Usable(c, limits), Window(history), projected(Build(history));
              && Prunes(c, window, Max(reported, now), TargetOf(c, trigger), stubs)
              && CutsAt(window, stubs, rough, TailBudget(c, trigger, projected), forced || reported > now, boundary)
              && (r.Raised? <==> MustRaise(summary, window, stubs, boundary, trigger, TargetOf(c, trigger), projected, brief))
              && (r.Returned? ==> Returns(summary, window, stubs, boundary, Max(reported, now), TargetOf(c, trigger), projected, brief, r.events))
  {
    var trigger := Usable(c, limits);
    var summary, window := CompactionWindow(history);
    var now := projected(Assemble(summary, window));
    var before := Max(reported, now);
    if !forced && before < trigger {
      NothingDone(history, projected, trigger);
      return Returned([]), [], 0;
    }
    r, stubs, boundary := Shrink(c, history, summary, window, trigger, projected, rough, before, forced || reported > now, brief);
  }

  lemma SomeTurn(w: seq<Event>, cut: nat)
    requires cut <= |w| && FirstTurn(w[cut..]).Some?
    ensures TurnIndices(w) != []
  {
    assert w[cut + TurnIndices(w[cut..])[0]].TurnStarted?;
  }

  /** How much of the target the tail may take. */
  function TailBudget(c: Config, trigger: int, projected: seq<Message> -> nat): int {
    Max(0, Min(c.recentTokens, TargetOf(c, trigger) - projected(Assemble("", []))))
  }
}
