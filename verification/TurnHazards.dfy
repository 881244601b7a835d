/** The care conditions of the turn protocol can fail in runs from the start: concrete runs that
    break a journal. */
module TurnHazards {
  import opened Basics
  import opened Journal
  import opened Coordinator
  import opened Commands
  import opened TurnProtocol
  import opened TurnSafety
  import opened TurnRuns

  const ACTOR: ActorId := "root"
  const TURN: TurnId := "turn"
  const INPUT := Queued(TURN, "hello", None, User)
  const LEASE := Tables(Some(Row(Some(1), 1, Some(100))), false, map[])

  ghost function Fresh(): World {
    World(0, Tables(None, false, map[]), None, ACTOR, map[ACTOR := []], None, map[])
  }

  ghost predicate Reached(w: World) {
    exists moves :: CarefulPath(Fresh(), moves, w)
  }

  lemma Reach(w: World, move: Move)
    requires Reached(w) && Can(w, move) && Careful(w, move)
    ensures Reached(Do(w, move))
  {
    var xs :| CarefulPath(Fresh(), xs, w);
    First(w, move, [], Do(w, move));
    Joined(Fresh(), xs, w, [move] + [], Do(w, move));
  }

  lemma ReachBody(w: World, p: InstanceId, work: Work)
    requires Reached(w) && Ready(w, p) && Takes(w, p, work) && !work.Claim? && !work.Recover? && !work.Interrupt?
    requires work.EngineAppend? ==> w.procs[p].tasks[work.task].phase.stage != Over
    ensures Reached(AfterBody(w, p, work))
  {
    var xs :| CarefulPath(Fresh(), xs, w);
    BodyRuns(w, p, work);
    Joined(Fresh(), xs, w, BodyMoves(p, work), AfterBody(w, p, work));
  }

  lemma ReachTail(w: World, p: InstanceId, work: Work)
    requires Reached(w) && JustTook(w, p, work)
    ensures Reached(AfterBody(w, p, work))
  {
    var xs :| CarefulPath(Fresh(), xs, w);
    CommitTail(w, p, work);
    Joined(Fresh(), xs, w, TailMoves(p), AfterBody(w, p, work));
  }

  lemma ReachWritten(w: World, p: InstanceId, work: Work)
    requires Reached(w) && JustTook(w, p, work)
    ensures Reached(WrittenBody(w, p, work))
  {
    MidBegin(w, p, work);
    Reach(w, BeginTxn(p));
    MidCheck(w, p, work);
    Reach(MidBody(w, p, work, Begun), CheckTxn(p));
    MidCommit(w, p, work);
    Reach(MidBody(w, p, work, Checked), CommitTxn(p));
  }

  /** Process 1 alone, holding the lease of generation 1. */
  function Owned(j: Log, m: Process): World {
    World(0, LEASE, Some(1), ACTOR, map[ACTOR := j], None, map[1 := m])
  }

  function Memory(generations: map<ActorId, nat>, active: map<ActorId, TaskId>, tasks: map<TaskId, Task>): Process {
    Process(Some(1), true, generations, active, tasks, None, false)
  }

  /* ---- the few journals of the runs ---- */

  lemma OnePending()
    ensures Pending([INPUT]) == [INPUT] && Ids([INPUT]) == [TURN] && Incomplete([INPUT]).None?
    ensures TURN in Ids(Pending([INPUT]))
  {
    var j := [INPUT];
    assert j[..|j| - 1] == [];
    assert PendingIn(j, []) == [];
    assert IsPending(j, INPUT);
    assert PendingIn(j, j) == [] + [INPUT];
    assert AllEnded(j);
    assert Ids([INPUT])[0] == TURN;
  }

  lemma NothingCancelled(j: Log)
    requires j == [] || j == [INPUT]
    ensures CancelledFor(j, ACTOR) == []
  {
    if j != [] { assert j[..0] == []; assert CancelledFor([], ACTOR) == []; }
  }

  lemma RecoverNothing(j: Log)
    requires j == [] || j == [INPUT]
    ensures ApplyTo(Recover, map[ACTOR := j], ACTOR, map[ACTOR := j]) == map[ACTOR := j]
  {
    NothingCancelled(j);
    assert LiveOf(j, []) == [];
    assert AllEnded(j);
    assert RecoveryEnds(map[ACTOR := j], ACTOR, ACTOR) == [];
    assert j + [] == j;
  }

  lemma AcceptInput()
    ensures ApplyTo(Enqueue(ACTOR, INPUT), map[ACTOR := []], ACTOR, map[ACTOR := []]) == map[ACTOR := [INPUT]]
  {
    var work, js := Enqueue(ACTOR, INPUT), map[ACTOR := []];
    assert Appends(work, js, ACTOR, ACTOR) == [INPUT];
    assert [] + [INPUT] == [INPUT];
    assert Touched(work, js, ACTOR) + js.Keys == {ACTOR};
  }

  /* ---- shared opening ---- */

  /** A process that has just taken the lease recovers, and finds nothing to end. */
  lemma OwnAndRecover(j: Log, m: Process)
    requires j == [] || j == [INPUT]
    requires m.own == Some(1) && m.hold.None? && m.unrecovered && Reached(Owned(j, Recovering(j, m)))
    ensures Reached(Owned(j, m))
  {
    Recovered(j, m);
    ReachTail(Owned(j, Recovering(j, m)), 1, Recover);
  }

  function Recovering(j: Log, m: Process): Process {
    m.(hold := Some(Hold(Recover, 1, map[ACTOR := j], Locked)))
  }

  lemma Recovered(j: Log, m: Process)
    requires j == [] || j == [INPUT]
    requires m.own == Some(1) && m.hold.None? && m.unrecovered
    ensures var w := Owned(j, Recovering(j, m)); JustTook(w, 1, Recover) && AfterBody(w, 1, Recover) == Owned(j, m)
  {
    RecoverNothing(j);
    assert Recovering(j, m).(hold := None) == m;
    assert map[1 := Recovering(j, m)][1 := m] == map[1 := m];
  }

  lemma Opening()
    ensures Reached(Owned([], Memory(map[], map[], map[])))
  {
    var w0 := Fresh();
    assert CarefulPath(w0, [], w0);
    Reach(w0, Join(1));
    var w1 := Do(w0, Join(1));
    assert w1.procs == map[1 := Process(None, false, map[], map[], map[], None, false)];
    Reach(w1, Own(1, 100));
    var w2 := Do(w1, Own(1, 100));
    var m := Memory(map[], map[], map[]);
    assert w2.procs[1] == Recovering([], m);
    assert w2.procs == map[1 := w2.procs[1]];
    OwnAndRecover([], m);
  }

  lemma WithInput()
    ensures Reached(Owned([INPUT], Memory(map[], map[], map[])))
  {
    Opening();
    var m := Memory(map[], map[], map[]);
    var w := Owned([], m);
    ReachBody(w, 1, Enqueue(ACTOR, INPUT));
    AcceptInput();
    assert m.(hold := None) == m && map[1 := m][1 := m] == map[1 := m];
    assert AfterBody(w, 1, Enqueue(ACTOR, INPUT)) == Owned([INPUT], m);
  }

  lemma DrainActivated(m: Process, m1: Process, k: TaskId)
    requires m.own == Some(1) && m.hold.None? && !m.closing && ACTOR !in m.active && k !in m.tasks
    requires m1 == m.(active := m.active[ACTOR := k], tasks := m.tasks[k := Task(ACTOR, Looping, false)])
    requires Reached(Owned([INPUT], m))
    ensures Reached(Owned([INPUT], m1))
  {
    var w := Owned([INPUT], m);
    Reach(w, Activate(1, ACTOR, k));
    assert map[1 := m][1 := m1] == map[1 := m1];
    assert Do(w, Activate(1, ACTOR, k)) == Owned([INPUT], m1);
  }

  /** A drain is activated and reads the pending input. */
  lemma DrainReads(m: Process, k: TaskId)
    requires m.own == Some(1) && m.hold.None? && !m.closing && ACTOR !in m.active && k !in m.tasks
    requires Reached(Owned([INPUT], m))
    ensures Reached(Owned([INPUT], m.(active := m.active[ACTOR := k], tasks := m.tasks[k := Task(ACTOR, Preparing(TURN), false)])))
  {
    var m1 := m.(active := m.active[ACTOR := k], tasks := m.tasks[k := Task(ACTOR, Looping, false)]);
    DrainActivated(m, m1, k);
    var m2 := m.(active := m.active[ACTOR := k], tasks := m.tasks[k := Task(ACTOR, Preparing(TURN), false)]);
    assert SetPhase(m1, k, Preparing(TURN)) == m2;
    DrainObserves(m1, m2, k);
  }

  lemma DrainObserves(m: Process, n: Process, k: TaskId)
    requires m.own == Some(1) && k in m.tasks && m.tasks[k] == Task(ACTOR, Looping, false) && n == SetPhase(m, k, Preparing(TURN))
    requires Reached(Owned([INPUT], m))
    ensures Reached(Owned([INPUT], n))
  {
    OnePending();
    assert map[1 := m][1 := n] == map[1 := n];
    assert Can(Owned([INPUT], m), Observe(1, k)) && Do(Owned([INPUT], m), Observe(1, k)) == Owned([INPUT], n);
    Reach(Owned([INPUT], m), Observe(1, k));
  }

  /* ---- hazard 1: an aborted drain and its successor name the same turn ---- */

  const ABORTED := Task(ACTOR, Preparing(TURN), true)
  const PREPARING := Task(ACTOR, Preparing(TURN), false)

  lemma AbortMemory()
    ensures InvalidateRoot(Memory(map[], map[ACTOR := 1], map[1 := PREPARING]))
            == Process(None, true, map[ACTOR := 1], map[], map[1 := ABORTED], None, false)
  {
    var m := Memory(map[], map[ACTOR := 1], map[1 := PREPARING]);
    assert ACTOR in m.active.Keys;
    assert StopsTask(m, m.active.Keys, 1);
    var n := StopAll(m, m.active.Keys);
    assert n.generations == map[ACTOR := 1];
    assert n.active == map[];
    assert n.tasks == map[1 := ABORTED];
  }

  lemma LoseAndRegain()
    requires Reached(Owned([INPUT], Memory(map[], map[ACTOR := 1], map[1 := PREPARING])))
    ensures Reached(Owned([INPUT], Memory(map[ACTOR := 1], map[], map[1 := ABORTED])))
  {
    var m := Memory(map[], map[ACTOR := 1], map[1 := PREPARING]);
    var w := Owned([INPUT], m);
    Reach(w, Invalidate(1));
    AbortMemory();
    var n := Process(None, true, map[ACTOR := 1], map[], map[1 := ABORTED], None, false);
    var w1 := World(0, LEASE, Some(1), ACTOR, map[ACTOR := [INPUT]], None, map[1 := n]);
    assert map[1 := m][1 := n] == map[1 := n];
    assert Do(w, Invalidate(1)) == w1;
    Reach(w1, Own(1, 100));
    var back := Memory(map[ACTOR := 1], map[], map[1 := ABORTED]);
    var held := Recovering([INPUT], back);
    assert map[1 := n][1 := held] == map[1 := held];
    assert Do(w1, Own(1, 100)) == Owned([INPUT], held);
    OwnAndRecover([INPUT], back);
  }

  const BOTH := Memory(map[ACTOR := 1], map[ACTOR := 2], map[1 := ABORTED, 2 := PREPARING])

  lemma BothNameIt()
    ensures Reached(Owned([INPUT], BOTH))
  {
    WithInput();
    var m0 := Memory(map[], map[], map[]);
    DrainReads(m0, 1);
    assert m0.(active := m0.active[ACTOR := 1], tasks := m0.tasks[1 := PREPARING]) == Memory(map[], map[ACTOR := 1], map[1 := PREPARING]);
    LoseAndRegain();
    var m1 := Memory(map[ACTOR := 1], map[], map[1 := ABORTED]);
    DrainReads(m1, 2);
    assert m1.(active := m1.active[ACTOR := 2], tasks := m1.tasks[2 := PREPARING]) == BOTH;
  }

  const CLAIMING := BOTH.(hold := Some(Hold(Claim(ACTOR, 2, TURN), 1, map[ACTOR := [INPUT]], Locked)))

  lemma TakeReckless(w: World)
    requires w == Owned([INPUT], BOTH)
    ensures Can(w, Take(1, Claim(ACTOR, 2, TURN))) && Careful(w, Take(1, Claim(ACTOR, 2, TURN)))
    ensures Do(w, Take(1, Claim(ACTOR, 2, TURN))) == Owned([INPUT], CLAIMING)
  {
    assert map[1 := BOTH][1 := CLAIMING] == map[1 := CLAIMING];
  }

  /** The claim in that state is reckless. */
  lemma RecklessState(w: World)
    requires w == Owned([INPUT], CLAIMING)
    ensures Can(w, Settle(1)) && !Careful(w, Settle(1)) && ReadOk(w, 1) && w.procs[1].hold.value.work.Claim?
  {
    OnePending();
    assert Current(w.procs[1].tasks[1]) == Some(TURN);
  }

  /** The protocol as written reaches a broken journal: a drain aborted before its claim ends
      the turn that its successor has claimed and started, while the successor still writes. */
  lemma AbortedDrainBreaksTurn() returns (moves: seq<Move>, n: World)
    ensures Start(Fresh()) && Leads(Fresh(), moves, n) && !AllWellFormed(n.journals)
  {
    BothNameIt();
    var w := Owned([INPUT], BOTH);
    TakeReckless(w);
    Reach(w, Take(1, Claim(ACTOR, 2, TURN)));
    var w1 := Owned([INPUT], CLAIMING);
    RecklessState(w1);
    ReachedOk(w1);
    RecklessClaim(w1, 1);
    moves, n := Spoiled(w1, Settle(1));
  }

  lemma ReachedOk(w: World)
    requires Reached(w)
    ensures WorldOk(w)
  {
    var xs :| CarefulPath(Fresh(), xs, w);
    StartOk(Fresh());
    CarefulPathKeepsInvariant(Fresh(), xs, w);
  }

  /** A reached world, one reckless move, and a bad continuation make a bad run. */
  lemma Spoiled(w: World, move: Move) returns (moves: seq<Move>, n: World)
    requires Reached(w) && Can(w, move) && Breaks(Do(w, move))
    ensures Leads(Fresh(), moves, n) && !AllWellFormed(n.journals)
  {
    var xs :| CarefulPath(Fresh(), xs, w);
    var ys;
    ys, n :| CarefulPath(Do(w, move), ys, n) && !AllWellFormed(n.journals);
    CarefulLeads(Fresh(), xs, w);
    CarefulLeads(Do(w, move), ys, n);
    assert ([move] + ys)[1..] == ys;
    LeadsOn(Fresh(), xs, w, [move] + ys, n);
    moves := xs + ([move] + ys);
  }

  lemma {:induction false} CarefulLeads(w: World, moves: seq<Move>, n: World)
    requires CarefulPath(w, moves, n)
    ensures Leads(w, moves, n)
    decreases |moves|
  {
    if moves != [] { CarefulLeads(Do(w, moves[0]), moves[1..], n); }
  }

  lemma {:induction false} LeadsOn(w: World, xs: seq<Move>, m: World, ys: seq<Move>, n: World)
    requires Leads(w, xs, m) && Leads(m, ys, n)
    ensures Leads(w, xs + ys, n)
    decreases |xs|
  {
    JoinedMoves(xs, ys);
    if xs != [] { LeadsOn(Do(w, xs[0]), xs[1..], m, ys, n); }
  }

  /* ---- hazard 2: recovery runs again while a turn is running ---- */

  const CLAIMED := Task(ACTOR, Engine(TURN, 1, Claimed), false)
  const RUNNING := Task(ACTOR, Engine(TURN, 1, Running), false)

  lemma TakeClaim(m: Process)
    requires m == Memory(map[], map[ACTOR := 1], map[1 := PREPARING])
    ensures var w := Owned([INPUT], m);
            Can(w, Take(1, Claim(ACTOR, 1, TURN))) && Do(w, Take(1, Claim(ACTOR, 1, TURN))) == Owned([INPUT], Claiming(m))
  {
    var w := Owned([INPUT], m);
    assert map[1 := m][1 := Claiming(m)] == map[1 := Claiming(m)];
  }

  function Claiming(m: Process): Process {
    m.(hold := Some(Hold(Claim(ACTOR, 1, TURN), 1, map[ACTOR := [INPUT]], Locked)))
  }

  lemma SettleIt(m: Process, n: Process)
    requires m == Memory(map[], map[ACTOR := 1], map[1 := PREPARING])
    requires n == Memory(map[ACTOR := 1], map[ACTOR := 1], map[1 := CLAIMED])
    ensures var w1 := Owned([INPUT], Claiming(m));
            Can(w1, Settle(1)) && Careful(w1, Settle(1)) && Do(w1, Settle(1)) == Owned([INPUT], n)
  {
    OnePending();
    var held := Claiming(m);
    assert held.(hold := None) == m;
    ClaimIt(m, n);
    assert map[1 := held][1 := n] == map[1 := n];
  }

  lemma ClaimIt(m: Process, n: Process)
    requires m == Memory(map[], map[ACTOR := 1], map[1 := PREPARING]) && TURN in Ids(Pending([INPUT]))
    requires n == Memory(map[ACTOR := 1], map[ACTOR := 1], map[1 := CLAIMED])
    ensures Claim1(m, 1, TURN, [INPUT]) == n
  {
  }

  lemma StartIt(m: Process)
    requires m == Memory(map[ACTOR := 1], map[ACTOR := 1], map[1 := CLAIMED])
    requires Reached(Owned([INPUT], m))
    ensures Reached(Owned([INPUT, Started(TURN)], Memory(map[ACTOR := 1], map[ACTOR := 1], map[1 := RUNNING])))
  {
    var work := EngineAppend(ACTOR, 1, [Started(TURN)]);
    var w := Owned([INPUT], m);
    ReachBody(w, 1, work);
    var js := map[ACTOR := [INPUT]];
    assert [INPUT] + [Started(TURN)] == [INPUT, Started(TURN)];
    assert Touched(work, js, ACTOR) + js.Keys == {ACTOR};
    assert ApplyTo(work, js, ACTOR, js) == map[ACTOR := [INPUT, Started(TURN)]];
    var n := Memory(map[ACTOR := 1], map[ACTOR := 1], map[1 := RUNNING]);
    assert m.(hold := None) == m && Effect(m, work, js, ACTOR, false) == n;
    assert map[1 := m][1 := n] == map[1 := n];
    assert AfterBody(w, 1, work) == Owned([INPUT, Started(TURN)], n);
  }

  lemma OpenTurn()
    ensures TURN in RecoveryEnds(map[ACTOR := [INPUT, Started(TURN)]], ACTOR, ACTOR)
  {
    var j := [INPUT, Started(TURN)];
    assert Ended(TURN) !in j && j[1] == Started(TURN);
    assert Incomplete(j) == Some(TURN);
  }

  lemma RunningTurn()
    ensures Reached(Owned([INPUT, Started(TURN)], Memory(map[ACTOR := 1], map[ACTOR := 1], map[1 := RUNNING])))
  {
    WithInput();
    var m0 := Memory(map[], map[], map[]);
    DrainReads(m0, 1);
    var m1 := Memory(map[], map[ACTOR := 1], map[1 := PREPARING]);
    assert m0.(active := m0.active[ACTOR := 1], tasks := m0.tasks[1 := PREPARING]) == m1;
    TakeClaim(m1);
    Reach(Owned([INPUT], m1), Take(1, Claim(ACTOR, 1, TURN)));
    var m2 := Memory(map[ACTOR := 1], map[ACTOR := 1], map[1 := CLAIMED]);
    SettleIt(m1, m2);
    Reach(Owned([INPUT], Claiming(m1)), Settle(1));
    StartIt(m2);
  }

  lemma RecklessRepeat(w: World)
    requires w == Owned([INPUT, Started(TURN)], Memory(map[ACTOR := 1], map[ACTOR := 1], map[1 := RUNNING]))
    ensures Can(w, Take(1, Recover)) && !Careful(w, Take(1, Recover)) && ReadOk(w, 1)
  {
    OpenTurn();
    assert LiveTask(w.procs[1], 1);
  }

  /** The protocol as written reaches a broken journal a second way: recovery whose follow-up
      failed is repeated by a later request and ends a turn this process is running. */
  lemma RepeatedRecoveryBreaksTurn() returns (moves: seq<Move>, n: World)
    ensures Start(Fresh()) && Leads(Fresh(), moves, n) && !AllWellFormed(n.journals)
  {
    RunningTurn();
    var w := Owned([INPUT, Started(TURN)], Memory(map[ACTOR := 1], map[ACTOR := 1], map[1 := RUNNING]));
    RecklessRepeat(w);
    ReachedOk(w);
    RecklessRecovery(w, 1);
    moves, n := Spoiled(w, Take(1, Recover));
  }

  /* ---- hazard 3: a cancel that stands although its commit seemed to fail ---- */

  const CANCEL := Cancel("stop", None, true)
  const BUSY := Memory(map[ACTOR := 1], map[ACTOR := 1], map[1 := RUNNING])

  const OPEN := [INPUT, Started(TURN)]

  lemma OpenIsIncomplete()
    ensures Incomplete(OPEN) == Some(TURN)
  {
    assert Ended(TURN) !in OPEN && OPEN[1] == Started(TURN);
  }

  /** A cancel whose id the tree has not seen targets every live turn. */
  lemma NewCancel(j: Log)
    requires forall e :: e in j ==> e == INPUT || e == Started(TURN)
    ensures var js := map[ACTOR := j];
            CancelTargets(js, ACTOR, "stop", None, true) == Some(TargetMap(js, {ACTOR}, Anything))
  {
    var js := map[ACTOR := j];
    assert js.Keys == {ACTOR};
    assert TURN[0] != "stop"[0];
    forall i | 0 <= i < |j| ensures !IsCommand(j[i], "stop") { assert j[i] in j; }
    assert Recorded(j, "stop").None? && !InTree(js, "stop");
  }

  lemma OpenTargeted(j: Log, t: TurnId)
    requires Incomplete(j) == Some(t) && Finished !in j
    ensures t in TargetsOf(j, Anything)
  {
  }

  lemma TargetEnded(js: Journals, targets: map<ActorId, seq<TurnId>>, a: ActorId, t: TurnId)
    requires a in targets && t in targets[a] && IsLive(LogOf(js, a), t)
    ensures Ended(t) in TargetEnds(js, targets, a)
  {
    EndsMember(LiveOf(LogOf(js, a), targets[a]), t);
  }

  lemma Targeted(js: Journals, a: ActorId, t: TurnId)
    requires a in js && t in TargetsOf(js[a], Anything)
    ensures var targets := TargetMap(js, {a}, Anything); a in targets && t in targets[a]
  {
  }

  /** A cancel ends each of its targets that is live. */
  lemma CancelEnds(js: Journals, a: ActorId, command: TurnId, targets: map<ActorId, seq<TurnId>>, t: TurnId)
    requires CancelTargets(js, a, command, None, true) == Some(targets) && Ended(t) in TargetEnds(js, targets, a)
    ensures Ended(t) in Appends(Cancel(command, None, true), js, a, a)
  {
  }

  lemma OpenIsTargeted()
    ensures Ended(TURN) in Appends(CANCEL, map[ACTOR := OPEN], ACTOR, ACTOR)
  {
    var js := map[ACTOR := OPEN];
    OpenIsIncomplete();
    NewCancel(OPEN);
    OpenTargeted(OPEN, TURN);
    var targets := TargetMap(js, {ACTOR}, Anything);
    Targeted(js, ACTOR, TURN);
    TargetEnded(js, targets, ACTOR, TURN);
    CancelEnds(js, ACTOR, "stop", targets, TURN);
  }

  /** The cancel has committed. */
  lemma CancelWritten()
    ensures Reached(WrittenBody(Owned(OPEN, BUSY), 1, CANCEL))
  {
    RunningTurn();
    var w := Owned(OPEN, BUSY);
    CancelTaken(w, 1, CANCEL);
    SameWritten(w, 1, CANCEL);
    Reach(w, Take(1, CANCEL));
    ReachWritten(Do(w, Take(1, CANCEL)), 1, CANCEL);
  }

  lemma RecklessStop(w: World)
    requires w == WrittenBody(Owned(OPEN, BUSY), 1, CANCEL)
    ensures Can(w, Lost(1)) && !Careful(w, Lost(1)) && Fence(w.tables, 1, w.procs[1].hold.value.generation, w.clock)
  {
    OpenIsTargeted();
    assert LiveTask(w.procs[1], 1) && Doomed(w.procs[1], 1, CANCEL, w.procs[1].hold.value.seen, w.root);
  }

  /** The protocol as written reaches a broken journal a third way: a cancel commits, its
      acknowledgement is lost, and the drain whose turn it ended is not stopped. */
  lemma LostCancelBreaksTurn() returns (moves: seq<Move>, n: World)
    ensures Start(Fresh()) && Leads(Fresh(), moves, n) && !AllWellFormed(n.journals)
  {
    CancelWritten();
    var w := WrittenBody(Owned(OPEN, BUSY), 1, CANCEL);
    RecklessStop(w);
    ReachedOk(w);
    RecklessCancel(w, 1);
    moves, n := Spoiled(w, Lost(1));
  }

  /* ---- hazard 4: a hook raises after the turn has ended ---- */

  const OVER := Task(ACTOR, Engine(TURN, 1, Over), false)
  const WHOLE := [INPUT, Started(TURN), Ended(TURN)]

  lemma EndIt()
    ensures Reached(Owned(WHOLE, Memory(map[ACTOR := 1], map[ACTOR := 1], map[1 := OVER])))
  {
    RunningTurn();
    var m, n := BUSY, Memory(map[ACTOR := 1], map[ACTOR := 1], map[1 := OVER]);
    var work := EngineAppend(ACTOR, 1, [Ended(TURN)]);
    var js := map[ACTOR := OPEN];
    ReachBody(Owned(OPEN, m), 1, work);
    assert OPEN + [Ended(TURN)] == WHOLE;
    assert Touched(work, js, ACTOR) + js.Keys == {ACTOR};
    assert ApplyTo(work, js, ACTOR, js) == map[ACTOR := WHOLE];
    assert m.(hold := None) == m && Effect(m, work, js, ACTOR, false) == n;
    assert map[1 := m][1 := n] == map[1 := n];
    assert AfterBody(Owned(OPEN, m), 1, work) == Owned(WHOLE, n);
  }

  lemma LateEnd(w: World, work: Work)
    requires w == Owned(WHOLE, Memory(map[ACTOR := 1], map[ACTOR := 1], map[1 := OVER])) && work == EngineAppend(ACTOR, 1, [Ended(TURN)])
    ensures Can(w, Take(1, work)) && !Careful(w, Take(1, work)) && ReadOk(w, 1)
  {
  }

  /** The protocol as written reaches a broken journal a fourth way: a hook told of the end of a
      turn raises a provider error, and the engine ends the turn again. */
  lemma LateHookBreaksTurn() returns (moves: seq<Move>, n: World)
    ensures Start(Fresh()) && Leads(Fresh(), moves, n) && !AllWellFormed(n.journals)
  {
    EndIt();
    var w := Owned(WHOLE, Memory(map[ACTOR := 1], map[ACTOR := 1], map[1 := OVER]));
    var work := EngineAppend(ACTOR, 1, [Ended(TURN)]);
    LateEnd(w, work);
    ReachedOk(w);
    RecklessEnd(w, 1, work);
    moves, n := Spoiled(w, Take(1, work));
  }
}
