/** Recovery of a tree by a new owner: what it appends, that it leaves nothing open, loses
    no pending input, and does nothing the second time.  The class holds the runtime's own
    loops, proved against the functions. */
module Recovery {
  import opened Basics
  import opened Journal
  import opened Commands

  /** The journals after recovery: every actor gains its recovery ends. */
  function Recovered(js: Journals, root: ActorId): (r: Journals)
  {
    map a | a in js :: RecoveredLog(js, root, a)
  }

  function RecoveredLog(js: Journals, root: ActorId, a: ActorId): Log
    requires a in js
  {
    js[a] + Ends(RecoveryEnds(js, root, a))
  }

  function Without(q: seq<Entry>, ts: seq<TurnId>): (r: seq<Entry>)
  {
    if q == [] then []
    else
      var last := q[|q| - 1];
      var rest := Without(q[..|q| - 1], ts);
      if last.Queued? && last.id in ts then rest else rest + [last]
  }

  lemma {:induction false} WithoutAppend(q: seq<Entry>, e: Entry, ts: seq<TurnId>)
    ensures Without(q + [e], ts) == if e.Queued? && e.id in ts then Without(q, ts) else Without(q, ts) + [e]
  {
    assert (q + [e])[..|q|] == q;
  }

  lemma {:induction false} PendingInAfterEnds(j: Log, part: Log, ts: seq<TurnId>)
    ensures PendingIn(j + Ends(ts), part) == Without(PendingIn(j, part), ts)
  {
    if part != [] {
      var init, last := part[..|part| - 1], part[|part| - 1];
      PendingInAfterEnds(j, init, ts);
      var n := j + Ends(ts);
      forall t ensures Ended(t) in n <==> Ended(t) in j || t in ts { EndedAfter(j, ts, t); }
      if IsPending(j, last) {
        WithoutAppend(PendingIn(j, init), last, ts);
      }
    }
  }

  lemma {:induction false} PendingInPlain(j: Log, part: Log, ts: seq<TurnId>)
    ensures PendingIn(j, part + Ends(ts)) == PendingIn(j, part)
  {
    if ts == [] {
      assert part + Ends(ts) == part;
    } else {
      var init := ts[..|ts| - 1];
      assert (part + Ends(ts))[..|part + Ends(ts)| - 1] == part + Ends(init);
      PendingInPlain(j, part, init);
    }
  }

  /** Ending turns removes exactly their inputs from the queue and keeps the rest in order. */
  lemma PendingAfterEnds(j: Log, ts: seq<TurnId>)
    ensures Pending(j + Ends(ts)) == Without(Pending(j), ts)
  {
    PendingInAfterEnds(j, j, ts);
    PendingInPlain(j + Ends(ts), j, ts);
  }

  lemma {:induction false} CancelledForPlain(j: Log, ts: seq<TurnId>, a: ActorId)
    ensures CancelledFor(j + Ends(ts), a) == CancelledFor(j, a)
  {
    if ts == [] {
      assert j + Ends(ts) == j;
    } else {
      var init := ts[..|ts| - 1];
      assert (j + Ends(ts))[..|j + Ends(ts)| - 1] == j + Ends(init);
      CancelledForPlain(j, init, a);
    }
  }

  lemma PendingIds(j: Log, t: TurnId)
    ensures t in Ids(Pending(j)) <==> exists e :: e in j && IsPending(j, e) && e.id == t
  {
    if t in Ids(Pending(j)) {
      var i :| 0 <= i < |Pending(j)| && Ids(Pending(j))[i] == t;
      assert Pending(j)[i] in Pending(j);
    }
    if e :| e in j && IsPending(j, e) && e.id == t {
      var i :| 0 <= i < |Pending(j)| && Pending(j)[i] == e;
      assert Ids(Pending(j))[i] == t;
    }
  }

  /** Ending turns makes no turn live. */
  lemma LiveAfterEnds(j: Log, ts: seq<TurnId>, t: TurnId)
    requires OneOpen(j)
    ensures IsLive(j + Ends(ts), t) ==> IsLive(j, t) && t !in ts
  {
    var n := j + Ends(ts);
    if IsLive(n, t) {
      LiveNotEnded(n, t);
      EndedAfter(j, ts, t);
      PendingIds(j, t);
      PendingIds(n, t);
      if Incomplete(n) == Some(t) {
        assert Started(t) in j && Ended(t) !in j;
        assert !AllEnded(j);
      }
    }
  }

  /** One actor after recovery: nothing is open; the turns newly ended are exactly the live
      ones the root lists as cancelled and the open one; every other pending input is still
      pending, in the same order. */
  lemma RecoveredActor(js: Journals, root: ActorId, a: ActorId)
    requires a in js && AllWellFormed(js)
    ensures WellFormed(Recovered(js, root)[a])
    ensures Incomplete(Recovered(js, root)[a]).None?
    ensures forall t :: Ended(t) in Recovered(js, root)[a] <==>
              Ended(t) in js[a] || Incomplete(js[a]) == Some(t)
              || (IsLive(js[a], t) && t in CancelledFor(LogOf(js, root), a))
    ensures Pending(Recovered(js, root)[a]) == Without(Pending(js[a]), CancelledFor(LogOf(js, root), a))
  {
    var j, ts := js[a], RecoveryEnds(js, root, a);
    var n := Recovered(js, root)[a];
    RecoveryEndsProperties(js, root, a);
    forall t | t in ts ensures Ended(t) !in j { LiveNotEnded(j, t); }
    AppendEnds(j, ts);
    if Incomplete(n).Some? {
      var t := Incomplete(n).value;
      LiveAfterEnds(j, ts, t);
    }
    PendingAfterEnds(j, ts);
    SameWithout(j, Pending(j), ts, CancelledFor(LogOf(js, root), a));
  }

  /** On pending inputs, removing the recovery ends and removing the cancelled turns agree. */
  lemma {:induction false} SameWithout(j: Log, q: seq<Entry>, ts: seq<TurnId>, cs: seq<TurnId>)
    requires forall e :: e in q ==> e in j && IsPending(j, e)
    requires forall t :: t in ts <==> (t in cs && IsLive(j, t)) || Incomplete(j) == Some(t)
    ensures Without(q, ts) == Without(q, cs)
  {
    if q != [] {
      var init, last := q[..|q| - 1], q[|q| - 1];
      assert forall e :: e in init ==> e in q;
      SameWithout(j, init, ts, cs);
      assert last in q;
      PendingIds(j, last.id);
    }
  }

  lemma NothingLeftToRecover(js: Journals, root: ActorId, a: ActorId)
    requires a in js && AllWellFormed(js)
    ensures RecoveryEnds(Recovered(js, root), root, a) == []
  {
    var ns := Recovered(js, root);
    RecoveredActor(js, root, a);
    if root in js { CancelledForPlain(js[root], RecoveryEnds(js, root, root), a); }
    var cs := CancelledFor(LogOf(js, root), a);
    assert CancelledFor(LogOf(ns, root), a) == cs;
    var left := LiveOf(ns[a], cs);
    if left != [] {
      assert left[0] in left;
      LiveAfterEnds(js[a], RecoveryEnds(js, root, a), left[0]);
      LiveNotEnded(ns[a], left[0]);
      assert false;
    }
  }

  lemma RecoveredTwice(js: Journals, root: ActorId, a: ActorId)
    requires a in js && AllWellFormed(js)
    ensures Incomplete(Recovered(js, root)[a]).None?
    ensures RecoveredLog(Recovered(js, root), root, a) == Recovered(js, root)[a]
  {
    RecoveredActor(js, root, a);
    NothingLeftToRecover(js, root, a);
    assert Ends(RecoveryEnds(Recovered(js, root), root, a)) == [];
  }

  /** Recovery leaves every actor with no incomplete turn and, run again, appends nothing. */
  lemma {:induction false} RecoveryIsIdempotent(js: Journals, root: ActorId)
    requires AllWellFormed(js)
    ensures forall a :: a in js ==> Incomplete(Recovered(js, root)[a]).None?
    ensures Recovered(Recovered(js, root), root) == Recovered(js, root)
  {
    var ns := Recovered(js, root);
    forall a | a in js ensures Incomplete(ns[a]).None? && RecoveredLog(ns, root, a) == ns[a] {
      RecoveredTwice(js, root, a);
    }
    RecoveredSame(ns, root);
  }

  lemma RecoveredSame(js: Journals, root: ActorId)
    requires forall a :: a in js ==> RecoveredLog(js, root, a) == js[a]
    ensures Recovered(js, root) == js
  {
  }

  /** The cancelled turns of every actor; actors without any may be missing. */
  ghost predicate Lists(cancelled: map<ActorId, seq<TurnId>>, j: Log) {
    && (forall a :: a in cancelled ==> cancelled[a] == CancelledFor(j, a))
    && (forall a :: a !in cancelled ==> CancelledFor(j, a) == [])
  }

  /** The journals once some actors are recovered. */
  function Partly(js: Journals, root: ActorId, done: set<ActorId>): Journals {
    map a | a in js :: if a in done then RecoveredLog(js, root, a) else js[a]
  }

  lemma PartlyNext(js: Journals, root: ActorId, done: set<ActorId>, a: ActorId)
    requires a in js
    ensures Partly(js, root, done)[a := RecoveredLog(js, root, a)] == Partly(js, root, done + {a})
  {
  }

  lemma PartlyAll(js: Journals, root: ActorId, done: set<ActorId>)
    requires js.Keys <= done
    ensures Partly(js, root, done) == Recovered(js, root)
  {
  }

  /** The coordinator's transactional view of one tree, with the runtime's own loops. */
  class CoordinatedTree {
    const root: ActorId
    var journals: Journals

    constructor (root: ActorId, journals: Journals)
      ensures this.root == root && this.journals == journals
    {
      this.root := root;
      this.journals := journals;
    }

    /** `_reduce_operational`: the cancelled turns of every actor, each listed once. */
    method ReduceCancellations(j: Log) returns (cancellations: map<ActorId, seq<TurnId>>)
      ensures Lists(cancellations, j)
    {
      cancellations := map[];
      for i := 0 to |j|
        invariant Lists(cancellations, j[..i])
      {
        cancellations := AddRecord(cancellations, j[..i], j[i]);
        assert j[..i + 1] == j[..i] + [j[i]];
      }
      assert j[..|j|] == j;
    }

    /** The body of that loop: add the targets of one entry. */
    method AddRecord(was: map<ActorId, seq<TurnId>>, j: Log, e: Entry) returns (now: map<ActorId, seq<TurnId>>)
      requires Lists(was, j)
      ensures Lists(now, j + [e])
    {
      now := was;
      assert (j + [e])[..|j|] == j;
      if e.CancelRequested? {
        var left := e.targets.Keys;
        while left != {}
          invariant left <= e.targets.Keys
          invariant forall a :: a in now && a !in left ==> now[a] == CancelledFor(j + [e], a)
          invariant forall a :: a !in now && a !in left ==> CancelledFor(j + [e], a) == []
          invariant forall a :: a in left ==> (a in now <==> a in was)
          invariant forall a :: a in left && a in was ==> now[a] == was[a]
          decreases left
        {
          var a :| a in left;
          var have := if a in now then now[a] else [];
          var more := AddTurns(have, e.targets[a]);
          now := now[a := more];
          left := left - {a};
        }
      }
    }

    method AddTurns(have: seq<TurnId>, turns: seq<TurnId>) returns (r: seq<TurnId>)
      ensures r == AddNew(have, turns)
    {
      r := have;
      for i := 0 to |turns|
        invariant r == AddNew(have, turns[..i])
      {
        assert turns[..i + 1][..i] == turns[..i];
        if turns[i] !in r { r := r + [turns[i]]; }
      }
      assert turns[..|turns|] == turns;
    }

    /** `_recover_locked`, one transaction: read every actor, then append the ends. */
    method Recover(headers: seq<ActorId>)
      requires Distinct(headers) && forall a :: a in headers <==> a in journals
      modifies this
      ensures journals == Recovered(old(journals), root)
    {
      var states := journals;
      var cancelled := ReduceCancellations(LogOf(states, root));
      ghost var done: set<ActorId> := {};
      for i := 0 to |headers|
        invariant journals == Partly(states, root, done)
        invariant forall n :: 0 <= n < |headers| ==> (headers[n] in done <==> n < i)
      {
        RecoverNext(states, cancelled, headers[i], done);
        done := done + {headers[i]};
      }
      PartlyAll(states, root, done);
    }

    /** The loop body: one more actor is recovered. */
    method RecoverNext(states: Journals, cancelled: map<ActorId, seq<TurnId>>, a: ActorId, ghost done: set<ActorId>)
      requires a in states && a !in done && journals == Partly(states, root, done)
      requires Lists(cancelled, LogOf(states, root))
      modifies this
      ensures journals == Partly(states, root, done + {a})
    {
      PartlyNext(states, root, done, a);
      RecoverActor(states, cancelled, a);
    }

    /** The ends of one actor. */
    method RecoverActor(states: Journals, cancelled: map<ActorId, seq<TurnId>>, a: ActorId)
      requires a in states && a in journals && journals[a] == states[a]
      requires Lists(cancelled, LogOf(states, root))
      modifies this
      ensures journals == old(journals)[a := RecoveredLog(states, root, a)]
    {
      var listed := if a in cancelled then cancelled[a] else [];
      var ends := RecoverEnds(states, listed, a);
      if ends != [] { journals := journals[a := journals[a] + Ends(ends)]; }
      else { assert journals[a] == journals[a] + Ends(ends); }
    }

    method RecoverEnds(states: Journals, listed: seq<TurnId>, a: ActorId) returns (ends: seq<TurnId>)
      requires a in states && listed == CancelledFor(LogOf(states, root), a)
      ensures ends == RecoveryEnds(states, root, a)
    {
      ends := LiveTurns(states[a], listed);
      var open := Incomplete(states[a]);
      if open.Some? && open.value !in ends { ends := ends + [open.value]; }
    }

    method LiveTurns(j: Log, turns: seq<TurnId>) returns (r: seq<TurnId>)
      ensures r == LiveOf(j, turns)
    {
      r := [];
      for i := 0 to |turns|
        invariant r == LiveOf(j, turns[..i])
      {
        assert turns[..i + 1][..i] == turns[..i];
        if IsLive(j, turns[i]) { r := r + [turns[i]]; }
      }
      assert turns[..|turns|] == turns;
    }

    /** `_operational_targets`: the live turns of each listed actor that has any. */
    method OperationalTargets(actors: seq<ActorId>) returns (targets: map<ActorId, seq<TurnId>>)
      ensures targets == TargetMap(journals, (set a | a in actors), Anything)
    {
      targets := map[];
      for i := 0 to |actors|
        invariant targets == TargetMap(journals, (set a | a in actors[..i]), Anything)
      {
        assert actors[..i + 1] == actors[..i] + [actors[i]];
        var turns := TargetsOf(LogOf(journals, actors[i]), Anything);
        if turns != [] { targets := targets[actors[i] := turns]; }
      }
      assert actors[..|actors|] == actors;
    }
  }
}
