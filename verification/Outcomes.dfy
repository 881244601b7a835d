/** What becomes of each command: when it is refused and why, and what exactly an accepted one
    changes. */
module Outcomes {
  import opened Basics
  import opened Journal
  import opened Commands
  import opened Recovery

  /** One actor's journal gains some entries; nothing else changes. */
  ghost predicate Gains(was: Journals, now: Journals, a: ActorId, es: Log) {
    now.Keys == was.Keys + {a} && forall b :: b in now ==> now[b] == LogOf(was, b) + if b == a then es else []
  }

  /** The submitter does not hold the writer token. */
  predicate NotTheWriter(t: Tree, token: Option<Connection>) {
    token.None? || t.writer.None? || t.writer.value != token.value
  }

  /** The fate of an input for actor `a`: a new id is queued last, once; a known one is a duplicate
      of the very same input, or reused. */
  ghost predicate Queues(t: Tree, n: Tree, out: Outcome, a: ActorId, e: Entry)
    requires e.Queued?
  {
    && n == t.(journals := n.journals)
    && (out == Reused <==> InTree(t.journals, e.id) && e !in LogOf(t.journals, a))
    && (out == Accepted(true) <==> InTree(t.journals, e.id) && e in LogOf(t.journals, a))
    && (out == ActorFinished <==> !InTree(t.journals, e.id) && Finished in LogOf(t.journals, a))
    && (out == Accepted(false) <==> !InTree(t.journals, e.id) && Finished !in LogOf(t.journals, a))
    && (if out == Accepted(false) then Gains(t.journals, n.journals, a, [e]) else n == t)
  }

  lemma SendIsExact(t: Tree, token: Option<Connection>, c: Command)
    requires c.Send?
    ensures var (n, out) := Submit(t, token, c);
            if NotTheWriter(t, token) then n == t && out == WriterReplaced
            else Queues(t, n, out, t.root, Queued(c.id, c.input, c.submittedBy, User))
  {
  }

  /** Deliveries come from outside, and need no writer. */
  lemma DeliverIsExact(t: Tree, token: Option<Connection>, c: Command)
    requires c.Deliver?
    ensures var (n, out) := Submit(t, token, c); Queues(t, n, out, c.target, Queued(c.id, c.input, None, External))
  {
  }

  /** An input queued last waits behind all others. */
  lemma QueuedLast(j: Log, e: Entry)
    requires e.Queued? && Started(e.id) !in j && Ended(e.id) !in j
    ensures Pending(j + [e]) == Pending(j) + [e]
  {
    StillPending(j, e, j);
    assert (j + [e])[..|j|] == j;
  }

  lemma {:induction false} StillPending(j: Log, e: Entry, part: Log)
    requires e.Queued?
    ensures PendingIn(j + [e], part) == PendingIn(j, part)
  {
    if part != [] { StillPending(j, e, part[..|part| - 1]); }
  }

  /* ---- cancels ---- */

  /** The turn has started and not ended. */
  predicate Open(j: Log, u: TurnId) {
    Started(u) in j && Ended(u) !in j
  }

  /** An input that waits, of a user or whoever sent it. */
  ghost predicate Waits(j: Log, u: TurnId, anyone: bool) {
    exists i :: 0 <= i < |j| && IsPending(j, j[i]) && j[i].id == u && (anyone || j[i].origin == User)
  }

  /** What a cancel is for: with descendants, whatever is open or waits in an unfinished actor of the
      tree; else what is open in the root, and what waits there from users. */
  ghost predicate Hits(js: Journals, root: ActorId, descendants: bool, a: ActorId, u: TurnId) {
    && (if descendants then a in js else a == root)
    && Finished !in LogOf(js, a) && (Open(LogOf(js, a), u) || Waits(LogOf(js, a), u, descendants))
  }

  lemma OpenIsIncomplete(j: Log, u: TurnId)
    requires OneOpen(j)
    ensures Open(j, u) <==> Incomplete(j) == Some(u)
  {
    if Open(j, u) { assert !AllEnded(j); }
  }

  lemma ChosenWait(j: Log, u: TurnId, anyone: bool, wanted: Entry -> bool)
    requires forall e: Entry :: e.Queued? ==> (wanted(e) <==> anyone || e.origin == User)
    ensures u in Ids(Chosen(Pending(j), wanted)) <==> Waits(j, u, anyone)
  {
    var q := Chosen(Pending(j), wanted);
    if u in Ids(q) {
      var k :| 0 <= k < |q| && Ids(q)[k] == u;
      assert q[k] in q && q[k] in Pending(j);
      var i :| 0 <= i < |j| && j[i] == q[k];
      assert IsPending(j, j[i]);
    }
    if Waits(j, u, anyone) {
      var i :| 0 <= i < |j| && IsPending(j, j[i]) && j[i].id == u && (anyone || j[i].origin == User);
      assert j[i] in q;
      var k :| 0 <= k < |q| && q[k] == j[i];
      assert Ids(q)[k] == u;
    }
  }

  /** What a cancellation of a whole actor ends. */
  lemma TargetsAre(j: Log, u: TurnId, anyone: bool, wanted: Entry -> bool)
    requires OneOpen(j) && forall e: Entry :: e.Queued? ==> (wanted(e) <==> anyone || e.origin == User)
    ensures u in TargetsOf(j, wanted) <==> Finished !in j && (Open(j, u) || Waits(j, u, anyone))
  {
    OpenIsIncomplete(j, u);
    ChosenWait(j, u, anyone, wanted);
  }

  lemma TargetsAreHit(js: Journals, root: ActorId, descendants: bool, a: ActorId, u: TurnId)
    requires AllWellFormed(js) && (if descendants then a in js else a == root)
    ensures u in TargetsOf(LogOf(js, a), if descendants then Anything else UserInput) <==> Hits(js, root, descendants, a, u)
  {
    assert WellFormed(LogOf(js, a));
    TargetsAre(LogOf(js, a), u, descendants, if descendants then Anything else UserInput);
  }

  /** The targets list exactly what the cancel is for. */
  ghost predicate ListsHits(targets: map<ActorId, seq<TurnId>>, js: Journals, root: ActorId, descendants: bool) {
    forall a :: ListsOf(targets, js, root, descendants, a)
  }

  ghost predicate ListsOf(targets: map<ActorId, seq<TurnId>>, js: Journals, root: ActorId, descendants: bool, a: ActorId) {
    && (a in targets ==> Distinct(targets[a]) && targets[a] != [])
    && forall u :: a in targets && u in targets[a] <==> Hits(js, root, descendants, a, u)
  }

  lemma FreshTargets(js: Journals, root: ActorId, descendants: bool)
    requires AllWellFormed(js)
    ensures ListsHits(TargetMap(js, if descendants then js.Keys else {root}, if descendants then Anything else UserInput), js, root, descendants)
  {
    var actors, wanted := if descendants then js.Keys else {root}, if descendants then Anything else UserInput;
    var targets := TargetMap(js, actors, wanted);
    forall a ensures ListsOf(targets, js, root, descendants, a) {
      if a in actors {
        LiveDistinct(js, a, wanted);
        forall u ensures u in TargetsOf(LogOf(js, a), wanted) <==> Hits(js, root, descendants, a, u) { TargetsAreHit(js, root, descendants, a, u); }
      }
    }
  }

  /** The root has the cancellation on record, for the same requester and scope. */
  predicate SameRequest(j: Log, c: Command)
    requires c.Stop?
  {
    Recorded(j, c.id).Some? && Recorded(j, c.id).value.requestedBy == c.requestedBy && Recorded(j, c.id).value.descendants == c.descendants
  }

  /** The turns that end are exactly the listed ones that are live. */
  ghost predicate EndsListed(j: Log, ended: seq<TurnId>, targets: map<ActorId, seq<TurnId>>, a: ActorId) {
    Distinct(ended) && forall u :: u in ended <==> a in targets && u in targets[a] && IsLive(j, u)
  }

  /** A cancel is accepted if its id is new to the tree, or on record for the same request.  The root
      gets the record the first time; the targets are those of the first time, and exactly those
      still live are ended. */
  lemma CancelIsExact(t: Tree, token: Option<Connection>, c: Command, a: ActorId)
      returns (targets: map<ActorId, seq<TurnId>>, ended: seq<TurnId>)
    requires c.Stop? && AllWellFormed(t.journals)
    ensures var (n, out) := Submit(t, token, c);
            var j := LogOf(t.journals, t.root);
            && (out == WriterReplaced <==> NotTheWriter(t, token))
            && (out == Accepted(true) <==> !NotTheWriter(t, token) && SameRequest(j, c))
            && (out == Accepted(false) <==> !NotTheWriter(t, token) && Recorded(j, c.id).None? && !InTree(t.journals, c.id))
            && (out.Accepted? || out == Reused || out == WriterReplaced)
            && n == t.(journals := n.journals) && (!out.Accepted? ==> n == t)
            && (out == Accepted(true) ==> targets == Recorded(j, c.id).value.targets)
            && (out == Accepted(false) ==> ListsHits(targets, t.journals, t.root, c.descendants))
            && (out.Accepted? ==>
                  EndsListed(LogOf(t.journals, a), ended, targets, a)
                  && LogOf(n.journals, a) == LogOf(t.journals, a)
                     + (if a == t.root && !out.duplicate then [CancelRequested(c.id, targets, c.requestedBy, c.descendants)] else [])
                     + Ends(ended))
  {
    var found := CancelTargets(t.journals, t.root, c.id, c.requestedBy, c.descendants);
    targets, ended := map[], [];
    if found.Some? {
      targets := found.value;
      CancelTargetsDistinct(t.journals, t.root, c.id, c.requestedBy, c.descendants);
      if a in targets {
        ended := LiveOf(LogOf(t.journals, a), targets[a]);
        LiveOfDistinct(LogOf(t.journals, a), targets[a]);
      }
      FreshTargets(t.journals, t.root, c.descendants);
      AppendedInTwo(t, c, targets, a, ended);
    }
  }

  lemma AppendedInTwo(t: Tree, c: Command, targets: map<ActorId, seq<TurnId>>, a: ActorId, ended: seq<TurnId>)
    requires c.Stop? && ended == if a in targets then LiveOf(LogOf(t.journals, a), targets[a]) else []
    ensures var record := CancelRequested(c.id, targets, c.requestedBy, c.descendants);
            LogOf(Cancelled(t.journals, t.root, c.id, c.requestedBy, c.descendants, targets), a)
            == LogOf(t.journals, a) + Note(t.journals, t.root, record, a) + Ends(ended)
  {
    var record := CancelRequested(c.id, targets, c.requestedBy, c.descendants);
    var j, note, ends := LogOf(t.journals, a), Note(t.journals, t.root, record, a), TargetEnds(t.journals, targets, a);
    assert ends == Ends(ended);
    assert j + note + ends == j + (note + ends);
  }

  /** A journal that gains a record, if any, and the ends of whatever is open or waits (of users, or
      of anyone) has nothing open, and only the inputs of others wait. */
  lemma EndedAll(j: Log, note: Log, ended: seq<TurnId>, anyone: bool)
    requires forall i :: 0 <= i < |note| ==> note[i].CancelRequested?
    requires forall u :: Open(j, u) || Waits(j, u, anyone) ==> u in ended
    ensures var n := j + note + Ends(ended);
            Incomplete(n).None? && forall e :: e in n && IsPending(n, e) ==> e in j && IsPending(j, e) && !anyone && e.origin != User
  {
    var n := j + note + Ends(ended);
    forall u | u in ended ensures Ended(u) in n { EndedLast(n, ended, u); }
    forall u | Started(u) in n ensures Ended(u) in n { if Ended(u) !in j { assert Open(j, u); } }
    forall i | 0 <= i < |j| && IsPending(j, j[i]) && (anyone || j[i].origin == User) ensures j[i].id in ended {
      assert Waits(j, j[i].id, anyone);
    }
  }

  lemma EndedLast(n: Log, ended: seq<TurnId>, u: TurnId)
    requires |ended| <= |n| && n[|n| - |ended|..] == Ends(ended) && u in ended
    ensures Ended(u) in n
  {
    var i :| 0 <= i < |ended| && ended[i] == u;
    assert n[|n| - |ended|..][i] == Ended(u);
    assert n[|n| - |ended| + i] == Ended(u);
  }

  /** Other inputs still wait. */
  lemma OthersStay(j: Log, note: Log, ended: seq<TurnId>, e: Entry)
    requires forall i :: 0 <= i < |note| ==> note[i].CancelRequested?
    requires e in j && IsPending(j, e) && e.id !in ended
    ensures e in j + note + Ends(ended) && IsPending(j + note + Ends(ended), e)
  {
  }

  /** What is hit is ended. */
  lemma HitsEnd(js: Journals, root: ActorId, descendants: bool, a: ActorId, targets: map<ActorId, seq<TurnId>>, ended: seq<TurnId>)
    requires AllWellFormed(js) && ListsOf(targets, js, root, descendants, a) && EndsListed(LogOf(js, a), ended, targets, a)
    ensures forall u :: u in ended <==> Hits(js, root, descendants, a, u)
  {
    forall u | Hits(js, root, descendants, a, u) ensures u in ended { HitIsLive(js, root, descendants, a, u); }
  }

  lemma HitIsLive(js: Journals, root: ActorId, descendants: bool, a: ActorId, u: TurnId)
    requires AllWellFormed(js) && Hits(js, root, descendants, a, u)
    ensures IsLive(LogOf(js, a), u)
  {
    TargetsAreHit(js, root, descendants, a, u);
    assert WellFormed(LogOf(js, a));
    TargetsProperties(LogOf(js, a), if descendants then Anything else UserInput);
  }

  /** After a first cancel with descendants no unfinished actor of the tree has anything open or
      waiting. */
  lemma CancelSilences(t: Tree, token: Option<Connection>, c: Command, a: ActorId)
    requires c.Stop? && AllWellFormed(t.journals) && c.descendants && Submit(t, token, c).1 == Accepted(false)
    requires a in t.journals && Finished !in t.journals[a]
    ensures var j := LogOf(Submit(t, token, c).0.journals, a); Pending(j) == [] && Incomplete(j).None?
  {
    var targets, ended := CancelIsExact(t, token, c, a);
    HitsEnd(t.journals, t.root, true, a, targets, ended);
    var note := if a == t.root then [CancelRequested(c.id, targets, c.requestedBy, c.descendants)] else [];
    forall u | Open(t.journals[a], u) || Waits(t.journals[a], u, true) ensures u in ended { assert Hits(t.journals, t.root, true, a, u); }
    EndedAll(t.journals[a], note, ended, true);
    NothingWaits(t.journals[a] + note + Ends(ended));
  }

  lemma FirstIn<T>(s: seq<T>)
    ensures s == [] || s[0] in s
  {
  }

  lemma NothingWaits(n: Log)
    requires forall e :: e in n ==> !IsPending(n, e)
    ensures Pending(n) == []
  {
    FirstIn(Pending(n));
  }

  /** A first cancel of the root alone touches no other actor. */
  lemma RootCancelSpares(t: Tree, token: Option<Connection>, c: Command, a: ActorId)
    requires c.Stop? && AllWellFormed(t.journals) && !c.descendants && Submit(t, token, c).1 == Accepted(false) && a != t.root
    ensures LogOf(Submit(t, token, c).0.journals, a) == LogOf(t.journals, a)
  {
    var targets, ended := CancelIsExact(t, token, c, a);
    HitsEnd(t.journals, t.root, false, a, targets, ended);
    FirstIn(ended);
    assert ended == [] && Ends(ended) == [];
  }

  /** It leaves nothing open in the root and no user's input waiting there, and keeps the inputs of
      others. */
  lemma RootCancelKeeps(t: Tree, token: Option<Connection>, c: Command, e: Entry)
    requires c.Stop? && AllWellFormed(t.journals) && !c.descendants && Submit(t, token, c).1 == Accepted(false)
    requires Finished !in LogOf(t.journals, t.root)
    ensures var j, n := LogOf(t.journals, t.root), LogOf(Submit(t, token, c).0.journals, t.root);
            Incomplete(n).None? && (e in n && IsPending(n, e) <==> e in j && IsPending(j, e) && e.origin != User)
  {
    var j := LogOf(t.journals, t.root);
    var targets, ended := CancelIsExact(t, token, c, t.root);
    HitsEnd(t.journals, t.root, false, t.root, targets, ended);
    var note := [CancelRequested(c.id, targets, c.requestedBy, c.descendants)];
    forall u | Open(j, u) || Waits(j, u, false) ensures u in ended { assert Hits(t.journals, t.root, false, t.root, u); }
    EndedAll(j, note, ended, false);
    if e in j && IsPending(j, e) && e.origin != User {
      OthersWait(t.journals, t.root, e);
      OthersStay(j, note, ended, e);
    }
  }

  /** Another's input is not what a cancel of the root alone is for. */
  lemma OthersWait(js: Journals, root: ActorId, e: Entry)
    requires AllWellFormed(js) && e in LogOf(js, root) && IsPending(LogOf(js, root), e) && e.origin != User
    ensures !Hits(js, root, false, root, e.id)
  {
    var j := LogOf(js, root);
    assert WellFormed(j);
    var i :| 0 <= i < |j| && j[i] == e;
    assert forall k :: 0 <= k < |j| && j[k].Queued? && j[k].id == e.id ==> k == i;
  }

  /* ---- answers ---- */

  /** An answer settles a live question of the right kind, by its own actor's journal; a permission
      needs an approval. */
  lemma AnswerIsExact(t: Tree, token: Option<Connection>, c: Command)
    requires c.Respond?
    ensures var (n, out) := Submit(t, token, c);
            var e := AskAnswered(c.ask, c.id, c.response, c.submittedBy);
            var (known, live) := (InTree(t.journals, c.id), c.ask in t.asks);
            var fits := live && t.asks[c.ask].kind == c.kind && (t.asks[c.ask].permission ==> c.approval);
            && (out == WriterReplaced <==> NotTheWriter(t, token))
            && (out == Accepted(true) <==> !NotTheWriter(t, token) && known && exists a :: a in t.journals && e in t.journals[a])
            && (out == Reused <==> !NotTheWriter(t, token) && known && forall a :: a in t.journals ==> e !in t.journals[a])
            && (out == Expired <==> !NotTheWriter(t, token) && !known && !live)
            && (out == Mismatched <==> !NotTheWriter(t, token) && !known && live && !fits)
            && (out == Accepted(false) <==> !NotTheWriter(t, token) && !known && fits)
            && (if out == Accepted(false)
                then n == t.(journals := n.journals, asks := n.asks) && n.asks == t.asks - {c.ask}
                     && Gains(t.journals, n.journals, t.asks[c.ask].actor, [e])
                else n == t)
  {
  }

  /* ---- the writer ---- */

  /** A claim holds until another connection claims or this one lets go. */
  lemma {:induction false} ClaimHolds(t: Tree, n: Connection, xs: seq<Action>)
    requires forall i :: 0 <= i < |xs| ==> xs[i] != ReleaseWriter(n) && (xs[i].ClaimWriter? ==> xs[i].connection == n)
    ensures AfterAll(After(t, ClaimWriter(n)), xs).writer == Some(n)
  {
    if xs != [] {
      var init := xs[..|xs| - 1];
      assert forall i :: 0 <= i < |init| ==> init[i] == xs[i];
      ClaimHolds(t, n, init);
    }
  }

  /** The runtime's own inputs are queued unless their actor has them. */
  lemma InternalIsExact(t: Tree, a: ActorId, e: Entry)
    requires e.Queued?
    ensures var n := After(t, Internal(a, e));
            n == t.(journals := n.journals)
            && if HasCommand(LogOf(t.journals, a), e.id) then n == t else Gains(t.journals, n.journals, a, [e])
  {
  }
}
