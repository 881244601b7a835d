/** Runs of the turn protocol: the safety theorem for careful runs, and proofs that the four
    care conditions are exactly what the protocol lacks. */
module TurnRuns {
  import opened Basics
  import opened Journal
  import opened Coordinator
  import opened Commands
  import opened TurnProtocol
  import opened TurnSafety

  /** The moves lead from one world to another. */
  ghost predicate Leads(w: World, moves: seq<Move>, n: World)
    decreases |moves|
  {
    if moves == [] then n == w else Can(w, moves[0]) && Leads(Do(w, moves[0]), moves[1..], n)
  }

  ghost predicate CarefulPath(w: World, moves: seq<Move>, n: World)
    decreases |moves|
  {
    if moves == [] then n == w
    else Can(w, moves[0]) && Careful(w, moves[0]) && CarefulPath(Do(w, moves[0]), moves[1..], n)
  }

  lemma {:induction false} CarefulPathKeepsInvariant(w: World, moves: seq<Move>, n: World)
    requires WorldOk(w) && CarefulPath(w, moves, n)
    ensures WorldOk(n)
    decreases |moves|
  {
    if moves != [] {
      MoveKeepsInvariant(w, moves[0]);
      CarefulPathKeepsInvariant(Do(w, moves[0]), moves[1..], n);
    }
  }

  lemma StartOk(w: World)
    requires Start(w)
    ensures WorldOk(w)
  {
  }

  /** In every careful run of any number of processes that acquire, recover, run turns, cancel,
      lose leases and crash, every journal of every reachable state starts each turn at most
      once, ends it at most once, carries no engine output of a turn after its end, and has at
      most one open turn. */
  lemma {:induction false} TurnsAreSafe(w: World, moves: seq<Move>, n: World, a: ActorId)
    requires Start(w) && CarefulPath(w, moves, n)
    ensures TurnSafe(LogOf(n.journals, a)) && OneOpen(LogOf(n.journals, a))
  {
    StartOk(w);
    CarefulPathKeepsInvariant(w, moves, n);
  }

  /* ---- one whole body, move by move ---- */

  function TailMoves(p: InstanceId): seq<Move> {
    [BeginTxn(p), CheckTxn(p), CommitTxn(p), Return(p, false)]
  }

  function BodyMoves(p: InstanceId, work: Work): seq<Move> {
    [Take(p, work)] + TailMoves(p)
  }

  /** The world after an undisturbed body of `p`. */
  function AfterBody(w: World, p: InstanceId, work: Work): World
    requires p in w.procs
  {
    Put1(w.(journals := ApplyTo(work, w.journals, w.root, w.journals)),
         p, Effect(w.procs[p].(hold := None), work, w.journals, w.root, false))
  }

  ghost predicate Ready(w: World, p: InstanceId) {
    ReadOk(w, p) && w.procs[p].hold.None?
  }

  lemma First(w: World, move: Move, moves: seq<Move>, n: World)
    requires Can(w, move) && Careful(w, move) && CarefulPath(Do(w, move), moves, n)
    ensures CarefulPath(w, [move] + moves, n)
  {
    assert ([move] + moves)[1..] == moves;
  }

  ghost predicate JustTook(w: World, p: InstanceId, work: Work) {
    && ReadOk(w, p) && !work.Claim?
    && w.procs[p].hold == Some(Hold(work, w.procs[p].own.value, w.journals, Locked))
    && (work.Interrupt? ==> Incomplete(LogOf(w.journals, work.actor)) == Some(work.turn))
  }

  function MidBody(w: World, p: InstanceId, work: Work, stage: HoldStage): World
    requires p in w.procs && w.procs[p].own.Some?
  {
    Put1(w.(lock := Some(p)), p, w.procs[p].(hold := Some(Hold(work, w.procs[p].own.value, w.journals, stage))))
  }

  /** The world once the body has committed. */
  function WrittenBody(w: World, p: InstanceId, work: Work): World
    requires p in w.procs && w.procs[p].own.Some?
  {
    Put1(w.(journals := ApplyTo(work, w.journals, w.root, w.journals)), p,
         w.procs[p].(hold := Some(Hold(work, w.procs[p].own.value, w.journals, Written))))
  }

  lemma MidBegin(w: World, p: InstanceId, work: Work)
    requires JustTook(w, p, work)
    ensures Can(w, BeginTxn(p)) && Do(w, BeginTxn(p)) == MidBody(w, p, work, Begun)
  {
  }

  lemma MidCheck(w: World, p: InstanceId, work: Work)
    requires JustTook(w, p, work)
    ensures var x := MidBody(w, p, work, Begun);
            Can(x, CheckTxn(p)) && Do(x, CheckTxn(p)) == MidBody(w, p, work, Checked)
  {
  }

  lemma MidCommit(w: World, p: InstanceId, work: Work)
    requires JustTook(w, p, work)
    ensures var x := MidBody(w, p, work, Checked);
            Can(x, CommitTxn(p)) && Do(x, CommitTxn(p)) == WrittenBody(w, p, work)
  {
  }

  lemma MidReturn(w: World, p: InstanceId, work: Work)
    requires JustTook(w, p, work)
    ensures var x := WrittenBody(w, p, work);
            Can(x, Return(p, false)) && Do(x, Return(p, false)) == AfterBody(w, p, work)
  {
    var x := WrittenBody(w, p, work);
    assert x.procs[p].(hold := None) == w.procs[p].(hold := None);
  }

  lemma CommitTail(w: World, p: InstanceId, work: Work)
    requires JustTook(w, p, work)
    ensures CarefulPath(w, TailMoves(p), AfterBody(w, p, work))
  {
    MidBegin(w, p, work);
    MidCheck(w, p, work);
    MidCommit(w, p, work);
    MidReturn(w, p, work);
    FourMoves(w, MidBody(w, p, work, Begun), MidBody(w, p, work, Checked), WrittenBody(w, p, work), AfterBody(w, p, work), p);
  }

  lemma FourMoves(w: World, w1: World, w2: World, w3: World, n: World, p: InstanceId)
    requires Can(w, BeginTxn(p)) && Do(w, BeginTxn(p)) == w1 && Can(w1, CheckTxn(p)) && Do(w1, CheckTxn(p)) == w2
    requires Can(w2, CommitTxn(p)) && Do(w2, CommitTxn(p)) == w3 && Can(w3, Return(p, false)) && Do(w3, Return(p, false)) == n
    ensures CarefulPath(w, TailMoves(p), n)
  {
    First(w3, Return(p, false), [], n);
    First(w2, CommitTxn(p), [Return(p, false)], n);
    First(w1, CheckTxn(p), [CommitTxn(p), Return(p, false)], n);
    First(w, BeginTxn(p), [CheckTxn(p), CommitTxn(p), Return(p, false)], n);
  }

  lemma BodyRuns(w: World, p: InstanceId, work: Work)
    requires Ready(w, p) && Takes(w, p, work) && !work.Claim? && !work.Recover?
    requires work.EngineAppend? ==> w.procs[p].tasks[work.task].phase.stage != Over
    requires work.Interrupt? ==> Incomplete(LogOf(w.journals, work.actor)) == Some(work.turn)
    ensures CarefulPath(w, BodyMoves(p, work), AfterBody(w, p, work))
  {
    var w1 := Do(w, Take(p, work));
    CommitTail(w1, p, work);
    SameBody(w, p, work);
    First(w, Take(p, work), TailMoves(p), AfterBody(w, p, work));
  }

  /** A cancel is taken, and may come as far as its commit. */
  lemma CancelTaken(w: World, p: InstanceId, work: Work)
    requires Ready(w, p) && Cancels(work)
    ensures Can(w, Take(p, work)) && Careful(w, Take(p, work)) && JustTook(Do(w, Take(p, work)), p, work)
  {
  }

  lemma SameWritten(w: World, p: InstanceId, work: Work)
    requires Ready(w, p) && Can(w, Take(p, work))
    ensures var n := Do(w, Take(p, work)); p in n.procs && n.procs[p].own.Some? && WrittenBody(n, p, work) == WrittenBody(w, p, work)
  {
  }

  lemma SameBody(w: World, p: InstanceId, work: Work)
    requires p in w.procs && Can(w, Take(p, work))
    ensures AfterBody(Do(w, Take(p, work)), p, work) == AfterBody(w, p, work)
  {
    var w1 := Do(w, Take(p, work));
    assert w1.procs[p].(hold := None) == w.procs[p].(hold := None);
  }

  lemma {:induction false} Joined(w: World, xs: seq<Move>, m: World, ys: seq<Move>, n: World)
    requires CarefulPath(w, xs, m) && CarefulPath(m, ys, n)
    ensures CarefulPath(w, xs + ys, n)
    decreases |xs|
  {
    JoinedMoves(xs, ys);
    if xs != [] { Joined(Do(w, xs[0]), xs[1..], m, ys, n); }
  }

  lemma JoinedMoves<T>(xs: seq<T>, ys: seq<T>)
    ensures xs == [] ==> xs + ys == ys
    ensures xs != [] ==> (xs + ys)[0] == xs[0] && (xs + ys)[1..] == xs[1..] + ys
  {
  }

  /* ---- a turn with two writers ---- */

  /** Some careful future breaks a journal. */
  ghost predicate Breaks(w: World) {
    exists moves, n :: CarefulPath(w, moves, n) && !AllWellFormed(n.journals)
  }

  lemma NeverBreaks(w: World)
    requires WorldOk(w)
    ensures !Breaks(w)
  {
    if Breaks(w) {
      var moves, n :| CarefulPath(w, moves, n) && !AllWellFormed(n.journals);
      CarefulPathKeepsInvariant(w, moves, n);
    }
  }

  lemma BreaksLater(w: World, xs: seq<Move>, m: World)
    requires CarefulPath(w, xs, m) && Breaks(m)
    ensures Breaks(w)
  {
    var ys, n :| CarefulPath(m, ys, n) && !AllWellFormed(n.journals);
    Joined(w, xs, m, ys, n);
  }

  lemma BreaksNext(w: World, move: Move)
    requires Can(w, move) && Careful(w, move) && Breaks(Do(w, move))
    ensures Breaks(w)
  {
    var ys, n :| CarefulPath(Do(w, move), ys, n) && !AllWellFormed(n.journals);
    First(w, move, ys, n);
  }

  /** An ended turn whose engine is still live: the next append breaks the journal. */
  lemma LiveEngineBreaks(w: World, p: InstanceId, k: TaskId)
    requires Ready(w, p) && LiveTask(w.procs[p], k) && w.procs[p].tasks[k].phase.stage != Over
    requires Ended(w.procs[p].tasks[k].phase.turn) in LogOf(w.journals, w.procs[p].tasks[k].actor)
    ensures Breaks(w)
  {
    var m := w.procs[p];
    var a, t := m.tasks[k].actor, m.tasks[k].phase.turn;
    var e := if m.tasks[k].phase.stage == Claimed then Started(t) else Output(t, "");
    var work := EngineAppend(a, k, [e]);
    BodyRuns(w, p, work);
    var n := AfterBody(w, p, work);
    ApplyLog(work, w.journals, w.root, a);
    var j := LogOf(w.journals, a);
    var i :| 0 <= i < |j| && j[i] == Ended(t);
    assert (j + [e])[i] == Ended(t) && (j + [e])[|j|] == e && Speaks(e, t);
    assert !TurnSafe(n.journals[a]);
    assert CarefulPath(w, BodyMoves(p, work), n) && !AllWellFormed(n.journals);
  }

  /** An aborted drain that still names the turn of a live one ends it under its writer. */
  lemma TwoHoldersBreak(w: World, p: InstanceId, k: TaskId, l: TaskId)
    requires Ready(w, p) && LiveTask(w.procs[p], k) && l in w.procs[p].tasks && l != k
    requires var m := w.procs[p]; m.tasks[k].phase.stage == Running && m.tasks[l].actor == m.tasks[k].actor
                                  && m.tasks[l].phase == Unwinding(m.tasks[k].phase.turn)
                                  && Incomplete(LogOf(w.journals, m.tasks[k].actor)) == Some(m.tasks[k].phase.turn)
    ensures Breaks(w)
  {
    var m := w.procs[p];
    var a, t := m.tasks[k].actor, m.tasks[k].phase.turn;
    var work := Interrupt(a, l, t);
    BodyRuns(w, p, work);
    var w1 := AfterBody(w, p, work);
    ApplyLog(work, w.journals, w.root, a);
    assert LogOf(w1.journals, a)[|LogOf(w.journals, a)|] == Ended(t);
    assert w1.procs[p].tasks[k] == m.tasks[k] && LiveTask(w1.procs[p], k);
    LiveEngineBreaks(w1, p, k);
    BreaksLater(w, BodyMoves(p, work), w1);
  }

  function StartWork(w: World, p: InstanceId, k: TaskId): Work
    requires p in w.procs && k in w.procs[p].tasks && w.procs[p].tasks[k].phase.Engine?
  {
    EngineAppend(w.procs[p].tasks[k].actor, k, [Started(w.procs[p].tasks[k].phase.turn)])
  }

  /** The claiming drain starts its turn. */
  lemma StartRuns(w: World, p: InstanceId, k: TaskId)
    requires Fresh(w, p, k)
    ensures CarefulPath(w, BodyMoves(p, StartWork(w, p, k)), AfterBody(w, p, StartWork(w, p, k)))
  {
    BodyRuns(w, p, StartWork(w, p, k));
  }

  lemma StartEffect(w: World, p: InstanceId, k: TaskId)
    requires Fresh(w, p, k)
    ensures var m, n := w.procs[p], AfterBody(w, p, StartWork(w, p, k));
      && Ready(n, p) && n.root == w.root && n.procs[p].generations == m.generations
      && n.procs[p].tasks == m.tasks[k := m.tasks[k].(phase := m.tasks[k].phase.(stage := Running))]
  {
  }

  lemma StartOpens(w: World, p: InstanceId, k: TaskId)
    requires Fresh(w, p, k)
    ensures Incomplete(LogOf(AfterBody(w, p, StartWork(w, p, k)).journals, w.procs[p].tasks[k].actor)) == Some(w.procs[p].tasks[k].phase.turn)
  {
    var a, t := w.procs[p].tasks[k].actor, w.procs[p].tasks[k].phase.turn;
    ApplyLog(StartWork(w, p, k), w.journals, w.root, a);
    var j := LogOf(w.journals, a) + [Started(t)];
    assert j[|j| - 1] == Started(t) && Ended(t) !in j;
  }

  /** A claim is safe for every careful future if and only if no aborted drain of the actor
      still has the claimed turn as its current one (while the lease lasts). */
  lemma ClaimGuardIsExact(w: World, p: InstanceId)
    requires WorldOk(w) && Can(w, Settle(p)) && w.procs[p].hold.value.work.Claim? && ReadOk(w, p)
    ensures Careful(w, Settle(p)) <==> !Breaks(Do(w, Settle(p)))
  {
    if Careful(w, Settle(p)) {
      MoveKeepsInvariant(w, Settle(p));
      NeverBreaks(Do(w, Settle(p)));
    } else {
      RecklessClaim(w, p);
    }
  }

  lemma RecklessClaim(w: World, p: InstanceId)
    requires WorldOk(w) && Can(w, Settle(p)) && w.procs[p].hold.value.work.Claim? && ReadOk(w, p)
    requires !Careful(w, Settle(p))
    ensures Breaks(Do(w, Settle(p)))
  {
    var m, work := w.procs[p], w.procs[p].hold.value.work;
    var l :| l in m.tasks && m.tasks[l].cancelled && m.tasks[l].actor == work.actor && Current(m.tasks[l]) == Some(work.turn);
    SettledBeside(w, p, l);
    BesideAborted(Put1(w, p, SettledAs(m)), p, work.task, l);
  }

  /** The process's memory after the claim it holds. */
  function SettledAs(m: Process): Process
    requires m.hold.Some? && m.hold.value.work.Claim? && m.hold.value.work.task in m.tasks
  {
    var h := m.hold.value;
    Claim1(m.(hold := None), h.work.task, h.work.turn, LogOf(h.seen, h.work.actor))
  }

  ghost predicate Fresh(w: World, p: InstanceId, k: TaskId) {
    && Ready(w, p) && LiveTask(w.procs[p], k) && w.procs[p].tasks[k].phase.stage == Claimed
    && var m := w.procs[p];
       var j, t := LogOf(w.journals, m.tasks[k].actor), m.tasks[k].phase.turn;
       AllEnded(j) && Started(t) !in j && Ended(t) !in j
  }

  lemma SettledBeside(w: World, p: InstanceId, l: TaskId)
    requires WorldOk(w) && Can(w, Settle(p)) && w.procs[p].hold.value.work.Claim? && ReadOk(w, p)
    requires var m := w.procs[p];
             var work := m.hold.value.work;
             work.turn in Ids(Pending(LogOf(m.hold.value.seen, work.actor)))
             && l in m.tasks && m.tasks[l].cancelled
    ensures var m, n := w.procs[p], SettledAs(w.procs[p]);
            var work := m.hold.value.work;
            Fresh(Put1(w, p, n), p, work.task) && n.tasks[work.task].phase.turn == work.turn && work.task != l
            && n.tasks[work.task].actor == work.actor && l in n.tasks && n.tasks[l] == m.tasks[l]
  {
    var m, h := w.procs[p], w.procs[p].hold.value;
    assert Sound(w, p);
    PendingIsFresh(LogOf(h.seen, h.work.actor), h.work.turn);
    assert DrainOk(m, h.work.task, LogOf(w.journals, h.work.actor));
    ClaimsBeside(m.(hold := None), h.work.task, h.work.turn, LogOf(h.seen, h.work.actor), l);
  }

  lemma ClaimsBeside(m: Process, k: TaskId, t: TurnId, seen: Log, l: TaskId)
    requires k in m.tasks && t in Ids(Pending(seen)) && !m.tasks[k].cancelled && l in m.tasks && m.tasks[l].cancelled
    ensures var n := Claim1(m, k, t, seen);
            && LiveTask(n, k) && n.tasks[k].phase.stage == Claimed && n.tasks[k].phase.turn == t && n.tasks[k].actor == m.tasks[k].actor
            && n.own == m.own && n.hold == m.hold && k != l && l in n.tasks && n.tasks[l] == m.tasks[l]
  {
  }

  /** An aborted drain beside the claimed turn unwinds, and then ends it. */
  lemma BesideAborted(w: World, p: InstanceId, k: TaskId, l: TaskId)
    requires Fresh(w, p, k) && l in w.procs[p].tasks && l != k
    requires var m := w.procs[p];
             m.tasks[l].actor == m.tasks[k].actor && m.tasks[l].cancelled && Current(m.tasks[l]) == Some(m.tasks[k].phase.turn)
    ensures Breaks(w)
  {
    if w.procs[p].tasks[l].phase.Unwinding? { ClaimedBeside(w, p, k, l); } else { UnwindsBeside(w, p, k, l); }
  }

  lemma UnwindsBeside(w: World, p: InstanceId, k: TaskId, l: TaskId)
    requires Fresh(w, p, k) && l in w.procs[p].tasks && l != k
    requires var m := w.procs[p];
             m.tasks[l].actor == m.tasks[k].actor && m.tasks[l].cancelled && Current(m.tasks[l]) == Some(m.tasks[k].phase.turn)
             && !m.tasks[l].phase.Unwinding?
    ensures Breaks(w)
  {
    var n := Do(w, Unwind(p, l));
    assert n.procs[p].tasks[l].phase == Unwinding(w.procs[p].tasks[k].phase.turn);
    assert n.procs[p].tasks[k] == w.procs[p].tasks[k];
    ClaimedBeside(n, p, k, l);
    BreaksNext(w, Unwind(p, l));
  }

  lemma ClaimedBeside(w: World, p: InstanceId, k: TaskId, l: TaskId)
    requires Fresh(w, p, k) && l in w.procs[p].tasks && l != k
    requires var m := w.procs[p];
             m.tasks[l].actor == m.tasks[k].actor && m.tasks[l].phase == Unwinding(m.tasks[k].phase.turn)
    ensures Breaks(w)
  {
    StartRuns(w, p, k);
    StartEffect(w, p, k);
    StartOpens(w, p, k);
    var w1 := AfterBody(w, p, StartWork(w, p, k));
    TwoHoldersBreak(w1, p, k, l);
    BreaksLater(w, BodyMoves(p, StartWork(w, p, k)), w1);
  }

  /** A cancel whose acknowledgement is lost is safe for every careful future if and only if it
      ended no turn that this process is still running (while the lease lasts). */
  lemma LostGuardIsExact(w: World, p: InstanceId)
    requires WorldOk(w) && Can(w, Lost(p)) && Cancels(w.procs[p].hold.value.work)
    requires Fence(w.tables, p, w.procs[p].hold.value.generation, w.clock)
    ensures Careful(w, Lost(p)) <==> !Breaks(Do(w, Lost(p)))
  {
    if Careful(w, Lost(p)) {
      MoveKeepsInvariant(w, Lost(p));
      NeverBreaks(Do(w, Lost(p)));
    } else {
      RecklessCancel(w, p);
    }
  }

  lemma RecklessCancel(w: World, p: InstanceId)
    requires WorldOk(w) && Can(w, Lost(p)) && Cancels(w.procs[p].hold.value.work) && !Careful(w, Lost(p))
    requires Fence(w.tables, p, w.procs[p].hold.value.generation, w.clock)
    ensures Breaks(Do(w, Lost(p)))
  {
    var m, h := w.procs[p], w.procs[p].hold.value;
    var k :| LiveTask(m, k) && Doomed(m, k, h.work, h.seen, w.root);
    DoomedNow(w, p, k);
    LostLive(w, p, k);
    LiveEngineBreaks(Do(w, Lost(p)), p, k);
  }

  lemma LostLive(w: World, p: InstanceId, k: TaskId)
    requires Can(w, Lost(p)) && Cancels(w.procs[p].hold.value.work) && ReadOk(w, p) && LiveTask(w.procs[p], k)
    ensures var n := Do(w, Lost(p));
            Ready(n, p) && n.journals == w.journals && n.procs[p] == w.procs[p].(hold := None) && LiveTask(n.procs[p], k)
  {
  }

  /** The turn of a doomed drain is ended, and its engine would still append. */
  lemma DoomedNow(w: World, p: InstanceId, k: TaskId)
    requires WorldOk(w) && Can(w, Lost(p)) && Cancels(w.procs[p].hold.value.work)
    requires Fence(w.tables, p, w.procs[p].hold.value.generation, w.clock)
    requires LiveTask(w.procs[p], k) && Doomed(w.procs[p], k, w.procs[p].hold.value.work, w.procs[p].hold.value.seen, w.root)
    ensures var m := w.procs[p];
            m.own.Some? && ReadOk(w, p) && m.tasks[k].phase.stage != Over
            && Ended(m.tasks[k].phase.turn) in LogOf(w.journals, m.tasks[k].actor)
  {
    var m, h := w.procs[p], w.procs[p].hold.value;
    assert Sound(w, p);
    RowIsFree(w, p);
    assert AwaitingOk(m, h.work, h.seen, w.root, k, LogOf(w.journals, m.tasks[k].actor));
    ApplyLog(h.work, h.seen, w.root, m.tasks[k].actor);
  }

  /** Nobody else has a transaction open while the grantee's body is committed. */
  lemma RowIsFree(w: World, p: InstanceId)
    requires WorldOk(w) && At(w, p, Written) && w.procs[p].hold.value.generation == Gen(w)
    ensures w.lock.None?
  {
    assert Sound(w, p);
    match w.lock
    case None =>
    case Some(q) => Locker(w, q);
  }

  lemma Locker(w: World, q: InstanceId)
    requires WorldOk(w) && w.lock == Some(q)
    ensures w.grantee == Some(q) && (At(w, q, Begun) || At(w, q, Checked))
  {
    assert Sound(w, q);
  }

  /** A repeated recovery is safe for every careful future if and only if it ends no turn that
      this process is still running (while the lease lasts). */
  lemma RecoveryGuardIsExact(w: World, p: InstanceId)
    requires WorldOk(w) && Can(w, Take(p, Recover)) && ReadOk(w, p)
    ensures Careful(w, Take(p, Recover)) <==> !Breaks(Do(w, Take(p, Recover)))
  {
    if Careful(w, Take(p, Recover)) {
      MoveKeepsInvariant(w, Take(p, Recover));
      NeverBreaks(Do(w, Take(p, Recover)));
    } else {
      RecklessRecovery(w, p);
    }
  }

  lemma RecklessRecovery(w: World, p: InstanceId)
    requires WorldOk(w) && Can(w, Take(p, Recover)) && ReadOk(w, p) && !Careful(w, Take(p, Recover))
    ensures Breaks(Do(w, Take(p, Recover)))
  {
    var m := w.procs[p];
    var k :| LiveTask(m, k) && m.tasks[k].phase.turn in RecoveryEnds(w.journals, w.root, m.tasks[k].actor);
    RecoveredIsOpen(w, p, k);
    RecoveredUnder(w, p, k);
    RecoveryTail(w, p);
    BreaksLater(Do(w, Take(p, Recover)), TailMoves(p), AfterBody(w, p, Recover));
  }

  /** A turn that recovery ends had not ended. */
  lemma RecoveredIsOpen(w: World, p: InstanceId, k: TaskId)
    requires WorldOk(w) && Ready(w, p) && LiveTask(w.procs[p], k)
    requires w.procs[p].tasks[k].phase.turn in RecoveryEnds(w.journals, w.root, w.procs[p].tasks[k].actor)
    ensures w.procs[p].tasks[k].phase.stage != Over
  {
    var m := w.procs[p];
    var a := m.tasks[k].actor;
    assert ProcOk(p, m, Gen(w), w.grantee, w.journals, w.lock, w.root);
    assert DrainOk(m, k, LogOf(w.journals, a));
    RecoveryEndsProperties(w.journals, w.root, a);
    LiveNotEnded(LogOf(w.journals, a), m.tasks[k].phase.turn);
  }

  lemma RecoveryTail(w: World, p: InstanceId)
    requires Can(w, Take(p, Recover)) && ReadOk(w, p)
    ensures CarefulPath(Do(w, Take(p, Recover)), TailMoves(p), AfterBody(w, p, Recover))
  {
    CommitTail(Do(w, Take(p, Recover)), p, Recover);
    SameBody(w, p, Recover);
  }

  lemma RecoveredUnder(w: World, p: InstanceId, k: TaskId)
    requires ReadOk(w, p) && LiveTask(w.procs[p], k) && w.procs[p].tasks[k].phase.stage != Over
    requires w.procs[p].tasks[k].phase.turn in RecoveryEnds(w.journals, w.root, w.procs[p].tasks[k].actor)
    ensures Breaks(AfterBody(w, p, Recover))
  {
    var m := w.procs[p];
    RecoveryEndsIt(w, m.tasks[k].actor, m.tasks[k].phase.turn);
    var w2 := AfterBody(w, p, Recover);
    assert w2.procs[p] == m.(hold := None) && Ready(w2, p) && LiveTask(w2.procs[p], k);
    LiveEngineBreaks(w2, p, k);
  }

  lemma RecoveryEndsIt(w: World, a: ActorId, t: TurnId)
    requires t in RecoveryEnds(w.journals, w.root, a)
    ensures Ended(t) in LogOf(ApplyTo(Recover, w.journals, w.root, w.journals), a)
  {
    if a !in w.journals { NothingInEmpty(w.journals, w.root, a); }
    ApplyLog(Recover, w.journals, w.root, a);
    EndsMember(RecoveryEnds(w.journals, w.root, a), t);
  }

  lemma NothingInEmpty(js: Journals, root: ActorId, a: ActorId)
    requires a !in js
    ensures RecoveryEnds(js, root, a) == []
  {
    var r := RecoveryEnds(js, root, a);
    assert Pending([]) == [] && Ids([]) == [];
    assert forall t :: !IsLive([], t);
    LiveOfNothing(CancelledFor(LogOf(js, root), a));
  }

  lemma {:induction false} LiveOfNothing(ts: seq<TurnId>)
    ensures LiveOf([], ts) == []
  {
    if ts != [] {
      assert Pending([]) == [] && Ids([]) == [];
      LiveOfNothing(ts[..|ts| - 1]);
    }
  }

  /** An engine's append is safe for every careful future if and only if its turn is not over
      (while the lease lasts). */
  lemma LateGuardIsExact(w: World, p: InstanceId, work: Work)
    requires WorldOk(w) && Can(w, Take(p, work)) && work.EngineAppend? && ReadOk(w, p)
    ensures Careful(w, Take(p, work)) <==> !Breaks(Do(w, Take(p, work)))
  {
    if Careful(w, Take(p, work)) {
      MoveKeepsInvariant(w, Take(p, work));
      NeverBreaks(Do(w, Take(p, work)));
    } else {
      RecklessEnd(w, p, work);
    }
  }

  lemma RecklessEnd(w: World, p: InstanceId, work: Work)
    requires WorldOk(w) && Can(w, Take(p, work)) && work.EngineAppend? && ReadOk(w, p) && !Careful(w, Take(p, work))
    ensures Breaks(Do(w, Take(p, work)))
  {
    var m := w.procs[p];
    assert ProcOk(p, m, Gen(w), w.grantee, w.journals, w.lock, w.root);
    assert DrainOk(m, work.task, LogOf(w.journals, work.actor));
    CommitTail(Do(w, Take(p, work)), p, work);
    SameBody(w, p, work);
    EndedTwice(w, p, work);
    assert CarefulPath(Do(w, Take(p, work)), TailMoves(p), AfterBody(w, p, work));
  }

  lemma EndedTwice(w: World, p: InstanceId, work: Work)
    requires p in w.procs && work.EngineAppend? && |work.entries| == 1 && work.entries[0].Ended?
    requires work.entries[0] in LogOf(w.journals, work.actor)
    ensures !AllWellFormed(AfterBody(w, p, work).journals)
  {
    var e, j := work.entries[0], LogOf(w.journals, work.actor);
    ApplyLog(work, w.journals, w.root, work.actor);
    var i :| 0 <= i < |j| && j[i] == e;
    assert work.entries == [e] && (j + [e])[i] == e && (j + [e])[|j|] == e && Speaks(e, e.turn);
    assert !TurnSafe(AfterBody(w, p, work).journals[work.actor]);
  }
}
