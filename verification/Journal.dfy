/** Actor journals and what the runtime reads off them: the pending inputs, the
    incomplete turn, the recorded cancellations, and the terminal events that
    recovery and cancellation append. */
module Journal {
  import opened Basics

  type ActorId = string
  type TurnId = string

  datatype Origin = User | Spawn | Message | TurnEnded | External

  /** The journal events that decide who may write a turn.  `Output` stands for every
      event the turn engine appends between the start and the end of a turn; it is
      tagged with the turn whose engine wrote it. */
  datatype Entry =
    | Queued(id: TurnId, input: string, submittedBy: Option<string>, origin: Origin)
    | Started(turn: TurnId)
    | Output(turn: TurnId, text: string)
    | Ended(turn: TurnId)
    | CancelRequested(command: TurnId, targets: map<ActorId, seq<TurnId>>,
                      requestedBy: Option<string>, descendants: bool)
    | AskAnswered(ask: string, command: TurnId, response: string, answeredBy: Option<string>)
    | Finished

  type Log = seq<Entry>
  type Journals = map<ActorId, Log>

  function LogOf(js: Journals, a: ActorId): Log {
    if a in js then js[a] else []
  }

  /* ---- safety of one journal ---- */

  predicate Speaks(e: Entry, t: TurnId) {
    e == Started(t) || e == Ended(t) || (e.Output? && e.turn == t)
  }

  /** Each turn starts at most once, ends at most once, and its engine never writes
      after its end. */
  ghost predicate TurnSafe(j: Log) {
    forall i, k :: 0 <= i < k < |j| ==>
      && (j[i].Ended? ==> !Speaks(j[k], j[i].turn))
      && (j[i].Started? ==> j[k] != j[i])
  }

  /** Every started turn has ended. */
  ghost predicate AllEnded(j: Log) {
    forall t :: Started(t) in j ==> Ended(t) in j
  }

  ghost predicate AllEndedBut(j: Log, t: TurnId) {
    forall u :: Started(u) in j && u != t ==> Ended(u) in j
  }

  /** At most one turn is open. */
  ghost predicate OneOpen(j: Log) {
    forall t, u :: Started(t) in j && Started(u) in j && Ended(t) !in j && Ended(u) !in j ==> t == u
  }

  ghost predicate QueuedOnce(j: Log) {
    forall i, k :: 0 <= i < k < |j| && j[i].Queued? && j[k].Queued? ==> j[i].id != j[k].id
  }

  /** Recorded cancellations list each turn once per actor. */
  ghost predicate TargetsDistinct(j: Log) {
    forall i, a :: 0 <= i < |j| && j[i].CancelRequested? && a in j[i].targets ==> Distinct(j[i].targets[a])
  }

  ghost predicate WellFormed(j: Log) {
    TurnSafe(j) && OneOpen(j) && QueuedOnce(j) && TargetsDistinct(j)
  }

  ghost predicate AllWellFormed(js: Journals) {
    forall a :: a in js ==> WellFormed(js[a])
  }

  /* ---- reduction ---- */

  predicate IsPending(j: Log, e: Entry) {
    e.Queued? && Started(e.id) !in j && Ended(e.id) !in j
  }

  /** The queued inputs of `part` that `j` neither starts nor ends, in order. */
  function PendingIn(j: Log, part: Log): (r: seq<Entry>)
    ensures forall e :: e in r <==> e in part && IsPending(j, e)
  {
    if part == [] then []
    else
      var rest := PendingIn(j, part[..|part| - 1]);
      var last := part[|part| - 1];
      assert part == part[..|part| - 1] + [last];
      if IsPending(j, last) then rest + [last] else rest
  }

  function Pending(j: Log): (r: seq<Entry>)
    ensures forall e :: e in r <==> e in j && IsPending(j, e)
  {
    PendingIn(j, j)
  }

  function Ids(q: seq<Entry>): (r: seq<TurnId>)
    requires forall e :: e in q ==> e.Queued?
    ensures |r| == |q|
    ensures forall i :: 0 <= i < |q| ==> r[i] == q[i].id
  {
    seq(|q|, i requires 0 <= i < |q| => q[i].id)
  }

  function OpenIn(j: Log, part: Log): (r: Option<TurnId>)
    ensures r.Some? ==> Started(r.value) in part && Ended(r.value) !in j
    ensures r.None? ==> forall t :: Started(t) in part ==> Ended(t) in j
  {
    if part == [] then None
    else
      var last := part[|part| - 1];
      assert part == part[..|part| - 1] + [last];
      if last.Started? && Ended(last.turn) !in j then Some(last.turn)
      else OpenIn(j, part[..|part| - 1])
  }

  /** The started turn with no end. */
  function Incomplete(j: Log): (r: Option<TurnId>)
    ensures r.Some? ==> Started(r.value) in j && Ended(r.value) !in j
    ensures r.None? <==> AllEnded(j)
  {
    OpenIn(j, j)
  }

  predicate IsLive(j: Log, t: TurnId) {
    t in Ids(Pending(j)) || Incomplete(j) == Some(t)
  }

  lemma LiveNotEnded(j: Log, t: TurnId)
    requires IsLive(j, t)
    ensures Ended(t) !in j
  {
    if t in Ids(Pending(j)) {
      var i :| 0 <= i < |Pending(j)| && Ids(Pending(j))[i] == t;
      assert IsPending(j, Pending(j)[i]);
    }
  }

  lemma PendingInDistinct(j: Log, part: Log)
    requires QueuedOnce(part)
    ensures Distinct(Ids(PendingIn(j, part)))
  {
    if part != [] {
      var init, last := part[..|part| - 1], part[|part| - 1];
      assert forall i :: 0 <= i < |init| ==> part[i] == init[i];
      PendingInDistinct(j, init);
      var rest := PendingIn(j, init);
      if IsPending(j, last) {
        forall i | 0 <= i < |rest| ensures rest[i].Queued? && rest[i].id != last.id {
          assert rest[i] in rest;
        }
        assert PendingIn(j, part) == rest + [last];
      }
    }
  }

  /** Ids of a well-formed journal's pending inputs are distinct. */
  lemma PendingDistinct(j: Log)
    requires QueuedOnce(j)
    ensures Distinct(Ids(Pending(j)))
  {
    PendingInDistinct(j, j);
  }

  /* ---- ends appended in bulk ---- */

  function Ends(ts: seq<TurnId>): (r: Log)
    ensures |r| == |ts|
    ensures forall i :: 0 <= i < |ts| ==> r[i] == Ended(ts[i])
  {
    seq(|ts|, i requires 0 <= i < |ts| => Ended(ts[i]))
  }

  /** The members of `ts` that are live in `j`, in order. */
  function LiveOf(j: Log, ts: seq<TurnId>): (r: seq<TurnId>)
    ensures forall t :: t in r <==> t in ts && IsLive(j, t)
  {
    if ts == [] then []
    else
      var rest := LiveOf(j, ts[..|ts| - 1]);
      var last := ts[|ts| - 1];
      assert ts == ts[..|ts| - 1] + [last];
      if IsLive(j, last) then rest + [last] else rest
  }

  lemma LiveOfDistinct(j: Log, ts: seq<TurnId>)
    requires Distinct(ts)
    ensures Distinct(LiveOf(j, ts))
  {
    if ts != [] {
      var init := ts[..|ts| - 1];
      LiveOfDistinct(j, init);
      assert ts[|ts| - 1] !in init;
    }
  }

  /** The turns a cancellation of a whole actor ends: its pending inputs and its open turn. */
  function TargetsOf(j: Log, wanted: Entry -> bool): (r: seq<TurnId>)
  {
    if Finished in j then []
    else
      var p := Chosen(Pending(j), wanted);
      match Incomplete(j)
      case None => Ids(p)
      case Some(t) => if t in Ids(p) then Ids(p) else Ids(p) + [t]
  }

  function Chosen(q: seq<Entry>, wanted: Entry -> bool): (r: seq<Entry>)
    ensures forall e :: e in r <==> e in q && wanted(e)
  {
    if q == [] then []
    else
      var last := q[|q| - 1];
      assert q == q[..|q| - 1] + [last];
      var rest := Chosen(q[..|q| - 1], wanted);
      if wanted(last) then rest + [last] else rest
  }

  lemma ChosenDistinct(q: seq<Entry>, wanted: Entry -> bool)
    requires forall e :: e in q ==> e.Queued?
    requires Distinct(Ids(q))
    ensures Distinct(Ids(Chosen(q, wanted)))
  {
    if q != [] {
      var init, last := q[..|q| - 1], q[|q| - 1];
      forall i, k | 0 <= i < k < |init| ensures Ids(init)[i] != Ids(init)[k] {
        assert Ids(q)[i] != Ids(q)[k];
      }
      ChosenDistinct(init, wanted);
      var rest := Chosen(init, wanted);
      forall i | 0 <= i < |rest| ensures rest[i].id != last.id {
        assert rest[i] in rest;
        var k :| 0 <= k < |init| && init[k] == rest[i];
        assert Ids(q)[k] != Ids(q)[|q| - 1];
      }
      assert Chosen(q, wanted) == if wanted(last) then rest + [last] else rest;
    }
  }

  lemma TargetsProperties(j: Log, wanted: Entry -> bool)
    requires QueuedOnce(j)
    ensures Distinct(TargetsOf(j, wanted))
    ensures forall t :: t in TargetsOf(j, wanted) ==> IsLive(j, t)
  {
    PendingDistinct(j);
    ChosenDistinct(Pending(j), wanted);
    var p := Chosen(Pending(j), wanted);
    forall t | t in TargetsOf(j, wanted) ensures IsLive(j, t) {
      if t in Ids(p) {
        var i :| 0 <= i < |p| && Ids(p)[i] == t;
        assert p[i] in p;
        var k :| 0 <= k < |Pending(j)| && Pending(j)[k] == p[i];
        assert Ids(Pending(j))[k] == t;
      }
    }
  }

  /* ---- cancellations recorded in a root journal ---- */

  function AddNew(have: seq<TurnId>, more: seq<TurnId>): (r: seq<TurnId>)
    ensures have <= r
    ensures Distinct(have) ==> Distinct(r)
    ensures forall t :: t in r <==> t in have || t in more
  {
    if more == [] then have
    else
      var r := AddNew(have, more[..|more| - 1]);
      var last := more[|more| - 1];
      assert more == more[..|more| - 1] + [last];
      if last in r then r else r + [last]
  }

  /** Every turn of `a` that some cancellation in `j` lists, each once. */
  function CancelledFor(j: Log, a: ActorId): (r: seq<TurnId>)
    ensures Distinct(r)
    ensures forall t :: t in r <==> exists i :: 0 <= i < |j| && j[i].CancelRequested? && a in j[i].targets && t in j[i].targets[a]
  {
    if j == [] then []
    else
      var init, last := j[..|j| - 1], j[|j| - 1];
      var r := CancelledFor(init, a);
      assert forall i :: 0 <= i < |init| ==> j[i] == init[i];
      if last.CancelRequested? && a in last.targets then AddNew(r, last.targets[a]) else r
  }

  /** What recovery appends to actor `a`: the live turns the root journal lists as
      cancelled, then the open turn unless it is among them. */
  function RecoveryEnds(js: Journals, root: ActorId, a: ActorId): (r: seq<TurnId>)
  {
    var j := LogOf(js, a);
    var cancelled := LiveOf(j, CancelledFor(LogOf(js, root), a));
    match Incomplete(j)
    case None => cancelled
    case Some(t) => if t in cancelled then cancelled else cancelled + [t]
  }

  lemma RecoveryEndsProperties(js: Journals, root: ActorId, a: ActorId)
    ensures Distinct(RecoveryEnds(js, root, a))
    ensures forall t :: t in RecoveryEnds(js, root, a) <==>
              (t in CancelledFor(LogOf(js, root), a) && IsLive(LogOf(js, a), t)) || Incomplete(LogOf(js, a)) == Some(t)
  {
    LiveOfDistinct(LogOf(js, a), CancelledFor(LogOf(js, root), a));
  }

  /* ---- appending keeps a journal well formed ---- */

  lemma EndedAfter(j: Log, ts: seq<TurnId>, t: TurnId)
    ensures Ended(t) in j + Ends(ts) <==> Ended(t) in j || t in ts
  {
    if t in ts { var i :| 0 <= i < |ts| && ts[i] == t; assert (j + Ends(ts))[|j| + i] == Ended(t); }
  }

  lemma AppendEnds(j: Log, ts: seq<TurnId>)
    requires WellFormed(j) && Distinct(ts)
    requires forall t :: t in ts ==> Ended(t) !in j
    ensures WellFormed(j + Ends(ts))
    ensures forall t :: Ended(t) in j + Ends(ts) <==> Ended(t) in j || t in ts
    ensures forall t :: Started(t) in j + Ends(ts) <==> Started(t) in j
  {
    var n := j + Ends(ts);
    forall t ensures Ended(t) in n <==> Ended(t) in j || t in ts { EndedAfter(j, ts, t); }
    forall i, k | 0 <= i < k < |n|
      ensures n[i].Ended? ==> !Speaks(n[k], n[i].turn)
      ensures n[i].Started? ==> n[k] != n[i]
    {
      if k >= |j| {
        assert n[k] == Ended(ts[k - |j|]);
        if i >= |j| { assert n[i] == Ended(ts[i - |j|]); }
        else if n[i].Ended? { assert n[i] in j; }
      }
    }
    forall i, a | 0 <= i < |n| && n[i].CancelRequested? && a in n[i].targets ensures Distinct(n[i].targets[a]) {
      assert i < |j|;
    }
    assert QueuedOnce(n);
  }

  lemma AppendQueued(j: Log, e: Entry)
    requires WellFormed(j) && e.Queued?
    requires forall i :: 0 <= i < |j| && j[i].Queued? ==> j[i].id != e.id
    ensures WellFormed(j + [e])
  {
    var n := j + [e];
    assert forall x :: x in n <==> x in j || x == e;
  }

  lemma AppendCancel(j: Log, e: Entry)
    requires WellFormed(j) && e.CancelRequested?
    requires forall a :: a in e.targets ==> Distinct(e.targets[a])
    ensures WellFormed(j + [e])
  {
    var n := j + [e];
    assert forall x :: x in n <==> x in j || x == e;
  }

  lemma AppendStarted(j: Log, t: TurnId)
    requires WellFormed(j) && AllEnded(j)
    requires Started(t) !in j && Ended(t) !in j
    ensures WellFormed(j + [Started(t)])
    ensures AllEndedBut(j + [Started(t)], t)
    ensures Ended(t) !in j + [Started(t)]
  {
    var n := j + [Started(t)];
    assert forall x :: x in n <==> x in j || x == Started(t);
    forall i | 0 <= i < |j| ensures j[i] in j { }
  }

  lemma AppendOutput(j: Log, t: TurnId, es: Log)
    requires WellFormed(j) && Ended(t) !in j
    requires forall e :: e in es ==> e.Output? && e.turn == t
    ensures WellFormed(j + es)
    ensures forall u :: Ended(u) in j + es <==> Ended(u) in j
    ensures forall u :: Started(u) in j + es <==> Started(u) in j
  {
    var n := j + es;
    assert forall i :: |j| <= i < |n| ==> n[i] in es;
    forall i | 0 <= i < |j| ensures j[i] in j { }
  }
}
