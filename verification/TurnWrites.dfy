/** What each body of the turn protocol writes, and what a drain makes of the journal it reads. */
module TurnWrites {
  import opened Basics
  import opened Journal
  import opened Coordinator
  import opened Commands
  import opened Outcomes
  import opened TurnProtocol
  import opened TurnSafety
  import opened TurnOrder
  import Recovery

  /** What a body that has read `js` leaves in the journal of `a`. */
  function Left(work: Work, js: Journals, root: ActorId, a: ActorId): Log {
    LogOf(ApplyTo(work, js, root, js), a)
  }

  /** A cancel inside the protocol is the cancel that the root's commands are about. */
  lemma CancelWrites(js: Journals, root: ActorId, asks: map<string, Ask>, n: Connection, c: Command, a: ActorId)
    requires c.Stop?
    ensures var t := Tree(root, js, Some(n), asks);
            Left(Cancel(c.id, c.requestedBy, c.descendants), js, root, a) == LogOf(Submit(t, Some(n), c).0.journals, a)
  {
    ApplyLog(Cancel(c.id, c.requestedBy, c.descendants), js, root, a);
  }

  lemma AllTargetsEnd(j: Log)
    requires WellFormed(j) && Finished !in j
    ensures var n := j + Ends(TargetsOf(j, Anything)); Pending(n) == [] && Incomplete(n).None?
  {
    forall u | Open(j, u) || Waits(j, u, true) ensures u in TargetsOf(j, Anything) { TargetsAre(j, u, true, Anything); }
    AllEnd(j, TargetsOf(j, Anything));
  }

  lemma AllEnd(j: Log, ts: seq<TurnId>)
    requires forall u :: Open(j, u) || Waits(j, u, true) ==> u in ts
    ensures Pending(j + Ends(ts)) == [] && Incomplete(j + Ends(ts)).None?
  {
    EndedAll(j, [], ts, true);
    assert j + [] == j;
    NothingWaits(j + Ends(ts));
  }

  /** A cancel of some actors leaves nothing open or waiting in those that are not finished, and
      writes to no other. */
  lemma ActorsCancelWrites(actors: set<ActorId>, js: Journals, root: ActorId, a: ActorId)
    requires AllWellFormed(js)
    ensures var j, n := LogOf(js, a), Left(CancelActors(actors), js, root, a);
            if a in actors && Finished !in j then j <= n && Pending(n) == [] && Incomplete(n).None? else n == j
  {
    ApplyLog(CancelActors(actors), js, root, a);
    assert WellFormed(LogOf(js, a));
    if Finished !in LogOf(js, a) { AllTargetsEnd(LogOf(js, a)); } else { assert Ends([]) == []; }
  }

  /** Recovery inside the protocol is the recovery of every actor. */
  lemma RecoveryWrites(js: Journals, root: ActorId, a: ActorId)
    requires a in js
    ensures Left(Recover, js, root, a) == Recovery.Recovered(js, root)[a]
  {
    ApplyLog(Recover, js, root, a);
  }

  /** The journal gains the end of its open turn, if there is one. */
  ghost predicate EndsOpen(j: Log, n: Log) {
    (forall u :: Open(j, u) ==> n == j + [Ended(u)]) && ((forall u :: !Open(j, u)) ==> n == j)
  }

  lemma OpenEnds(j: Log)
    requires WellFormed(j)
    ensures EndsOpen(j, j + OpenEnd(j))
  {
    forall u ensures Open(j, u) <==> Incomplete(j) == Some(u) { OpenIsIncomplete(j, u); }
    if Incomplete(j).Some? { assert Open(j, Incomplete(j).value); }
  }

  /** Closing ends the open turn of every actor, and writes nothing else. */
  lemma ShutWrites(js: Journals, root: ActorId, a: ActorId)
    requires AllWellFormed(js)
    ensures EndsOpen(LogOf(js, a), Left(Shut, js, root, a))
  {
    ApplyLog(Shut, js, root, a);
    assert WellFormed(LogOf(js, a));
    OpenEnds(LogOf(js, a));
  }

  /** An interrupt ends its turn if it is open, and writes nothing else. */
  lemma InterruptWrites(b: ActorId, k: TaskId, t: TurnId, js: Journals, root: ActorId, a: ActorId)
    requires AllWellFormed(js)
    ensures Left(Interrupt(b, k, t), js, root, a) == LogOf(js, a) + if a == b && Open(LogOf(js, a), t) then [Ended(t)] else []
  {
    ApplyLog(Interrupt(b, k, t), js, root, a);
    assert WellFormed(LogOf(js, a));
    OpenIsIncomplete(LogOf(js, a), t);
  }

  /** An engine's entries go to its own actor; a claim writes nothing; an input is queued last,
      unless the actor has it. */
  lemma OtherWrites(work: Work, js: Journals, root: ActorId, a: ActorId)
    ensures work.EngineAppend? ==> Left(work, js, root, a) == LogOf(js, a) + if a == work.actor then work.entries else []
    ensures work.Claim? ==> Left(work, js, root, a) == LogOf(js, a)
    ensures work.Enqueue? && work.entry.Queued? ==>
              var had := exists e :: e in LogOf(js, work.actor) && e.Queued? && e.id == work.entry.id;
              Left(work, js, root, a) == LogOf(js, a) + if a == work.actor && !had then [work.entry] else []
  {
    ApplyLog(work, js, root, a);
    if work.Enqueue? && work.entry.Queued? { SameInput(LogOf(js, work.actor), work.entry.id); }
  }

  lemma SameInput(j: Log, id: TurnId)
    ensures HasInput(j, id) <==> exists e :: e in j && e.Queued? && e.id == id
  {
    if HasInput(j, id) {
      var i :| 0 <= i < |j| && j[i].Queued? && j[i].id == id;
      assert j[i] in j;
    }
  }

  /* ---- what a drain reads ---- */

  /** The first input that waits. */
  ghost predicate WaitsFirst(j: Log, u: TurnId) {
    exists k :: 0 <= k < |j| && IsPending(j, j[k]) && j[k].id == u && forall i :: 0 <= i < k ==> !IsPending(j, j[i])
  }

  lemma FirstIsPending(j: Log)
    requires Pending(j) != []
    ensures WaitsFirst(j, Ids(Pending(j))[0])
  {
    var k := FirstWaits(j, j);
    assert Pending(j)[0] in Pending(j);
    assert IsPending(j, j[k]);
  }

  /** A drain that reads its journal ends if its actor is finished.  Else it interrupts the open turn;
      if none is open it prepares the first input that waits, and if none waits it ends.  A drain that
      ends gives up its slot; nothing else changes. */
  lemma ObservedIsExact(m: Process, k: TaskId, j: Log)
    requires k in m.tasks && WellFormed(j)
    ensures var n := Observed(m, k, j);
            && n == m.(active := n.active, tasks := n.tasks) && n.tasks == m.tasks[k := m.tasks[k].(phase := n.tasks[k].phase)]
            && (Finished in j ==> n.tasks[k].phase.Gone?)
            && (Finished !in j ==>
                  (forall u :: Open(j, u) ==> n.tasks[k].phase == Interrupting(u))
                  && (AllEnded(j) && Pending(j) != [] ==> n.tasks[k].phase.Preparing? && WaitsFirst(j, n.tasks[k].phase.turn))
                  && (AllEnded(j) && Pending(j) == [] ==> n.tasks[k].phase.Gone?))
            && n.active == if n.tasks[k].phase.Gone? && m.tasks[k].actor in m.active && m.active[m.tasks[k].actor] == k
                           then m.active - {m.tasks[k].actor} else m.active
  {
    forall u | Open(j, u) ensures Incomplete(j) == Some(u) { OpenIsIncomplete(j, u); }
    if Pending(j) != [] { FirstIsPending(j); }
  }

  /** A recovery that is followed through clears the mark that asks for it; one whose follow-up
      fails leaves it. */
  lemma RecoveryReturns(m: Process, js: Journals, root: ActorId, settled: bool)
    ensures var n := Effect(m, Recover, js, root, settled); n == m.(unrecovered := if settled then false else m.unrecovered)
  {
  }

  /* ---- what a move does to its process ---- */

  /** Nothing of the process changes but one drain, and its slot if it gives it up. */
  ghost predicate OnlyDrainMoves(m: Process, n: Process, k: TaskId, phase: Phase)
    requires k in m.tasks
  {
    var a := m.tasks[k].actor;
    && n == m.(generations := n.generations, active := n.active, tasks := m.tasks[k := m.tasks[k].(phase := phase)])
    && n.active == (if phase.Gone? && a in m.active && m.active[a] == k then m.active - {a} else m.active)
    && (!phase.Engine? ==> n.generations == m.generations)
  }

  /** A claim of a turn that still waits starts its engine under the actor's next generation; any other
      sends the drain back to its loop. */
  lemma ClaimIsExact(m: Process, k: TaskId, t: TurnId, seen: Log)
    requires k in m.tasks
    ensures var n, a := Claim1(m, k, t, seen), m.tasks[k].actor;
            if Waits(seen, t, true)
            then OnlyDrainMoves(m, n, k, Engine(t, Generation(m, a) + 1, Claimed)) && Generation(n, a) == Generation(m, a) + 1
                 && forall b :: b != a ==> Generation(n, b) == Generation(m, b)
            else OnlyDrainMoves(m, n, k, Looping)
  {
    WaitsAre(seen, t);
  }

  lemma WaitsAre(j: Log, t: TurnId)
    ensures t in Ids(Pending(j)) <==> Waits(j, t, true)
  {
    Recovery.PendingIds(j, t);
    if e :| e in j && IsPending(j, e) && e.id == t {
      var i :| 0 <= i < |j| && j[i] == e;
      assert IsPending(j, j[i]);
    }
    if Waits(j, t, true) {
      var i :| 0 <= i < |j| && IsPending(j, j[i]) && j[i].id == t;
      assert j[i] in j;
    }
  }

  /** An aborted drain turns to its current turn, or ends; a failing one ends. */
  lemma UnwoundIsExact(m: Process, k: TaskId)
    requires k in m.tasks
    ensures OnlyDrainMoves(m, Unwound(m, k), k, if Current(m.tasks[k]).Some? then Unwinding(Current(m.tasks[k]).value) else Gone)
    ensures OnlyDrainMoves(m, Exit(m, k), k, Gone)
  {
  }

  /** Once its entries are appended an engine is running, or over if they end its turn. */
  lemma EngineReturns(m: Process, a: ActorId, k: TaskId, es: Log, js: Journals, root: ActorId, settled: bool)
    requires k in m.tasks && m.tasks[k].phase.Engine? && EntriesFit(m.tasks[k].phase, es)
    ensures var n, t := Effect(m, EngineAppend(a, k, es), js, root, settled), m.tasks[k].phase.turn;
            OnlyDrainMoves(m, n, k, Engine(t, m.tasks[k].phase.generation, if Ended(t) in es then Over else Running))
            && n.generations == m.generations
  {
  }

  /** After an interrupt a drain goes on, unless it was aborted meanwhile; one that was unwinding
      ends. */
  lemma InterruptReturns(m: Process, a: ActorId, k: TaskId, t: TurnId, js: Journals, root: ActorId, settled: bool)
    requires k in m.tasks && (m.tasks[k].phase == Interrupting(t) || m.tasks[k].phase == Unwinding(t))
    ensures var n := Effect(m, Interrupt(a, k, t), js, root, settled);
            if m.tasks[k].phase.Unwinding? then OnlyDrainMoves(m, n, k, Gone)
            else if m.tasks[k].cancelled then n == m else OnlyDrainMoves(m, n, k, Looping)
  {
  }

  /** When an acknowledgement is lost, a drain that waited for a start, an end or an interrupt ends,
      or stays to unwind if it was aborted; nobody else notices. */
  lemma LossIsExact(m: Process, work: Work)
    requires work.EngineAppend? || work.Interrupt? ==> work.task in m.tasks
    ensures var waited := work.Interrupt? || (work.EngineAppend? && work.entries != [] && !work.entries[|work.entries| - 1].Output?);
            var n := LostEffect(m, work);
            if waited && (m.tasks[work.task].cancelled ==> m.tasks[work.task].phase.Unwinding?) then OnlyDrainMoves(m, n, work.task, Gone)
            else n == m
  {
  }

  /** Acquiring, extending and giving up an ownership are the coordinator's own steps, and what the
      process remembers of it is the row's generation. */
  lemma OwningIsAcquiring(w: World, p: InstanceId, ttl: nat)
    requires Can(w, Own(p, ttl)) && !w.tables.deleted
    ensures var db, n := Db(w.clock, w.tables, None), Do(w, Own(p, ttl));
            Enabled(db, Acquire(p, ttl)) && n.tables == Next(db, Acquire(p, ttl)).tables
            && n.procs[p].own == Some(GenerationOf(n.tables)) && n.procs[p].unrecovered && n.journals == w.journals
  {
  }

  lemma ExtendingIsRenewing(w: World, p: InstanceId, ttl: nat)
    requires Can(w, Extend(p, ttl))
    ensures var db, g := Db(w.clock, w.tables, None), w.procs[p].own.value;
            Enabled(db, Renew(p, g, ttl)) && Do(w, Extend(p, ttl)) == w.(tables := Next(db, Renew(p, g, ttl)).tables)
  {
  }

  lemma LettingGoIsReleasing(w: World, p: InstanceId)
    requires Can(w, LetGo(p))
    ensures var db, g := Db(w.clock, w.tables, None), w.procs[p].own.value;
            Enabled(db, Release(p, g, false))
            && Do(w, LetGo(p)) == w.(tables := Next(db, Release(p, g, false)).tables, procs := w.procs[p := w.procs[p].(own := None)])
  {
  }
}
