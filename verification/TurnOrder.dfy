/** Inputs are run in the order in which they were queued. */
module TurnOrder {
  import opened Basics
  import opened Journal
  import opened Coordinator
  import opened Commands
  import opened TurnProtocol
  import opened TurnSafety
  import opened TurnRuns
  import opened TurnCancels

  /** The turn's input is queued, and every input queued before it has been started or ended. */
  ghost predicate FirstUp(j: Log, t: TurnId) {
    exists k :: 0 <= k < |j| && IsFirst(j, t, k)
  }

  ghost predicate IsFirst(j: Log, t: TurnId, k: nat)
    requires k < |j|
  {
    j[k].Queued? && j[k].id == t && forall i :: 0 <= i < k && j[i].Queued? ==> Started(j[i].id) in j || Ended(j[i].id) in j
  }

  /** Whenever a turn was started, it was first up. */
  ghost predicate InTurn(j: Log) {
    forall p :: 0 <= p < |j| && j[p].Started? ==> FirstUp(j[..p], j[p].turn)
  }

  lemma StaysFirst(j: Log, more: Log, t: TurnId)
    requires FirstUp(j, t)
    ensures FirstUp(j + more, t)
  {
    var k :| 0 <= k < |j| && IsFirst(j, t, k);
    assert IsFirst(j + more, t, k);
  }

  lemma AppendInTurn(j: Log, more: Log)
    requires InTurn(j)
    requires forall e :: e in more && e.Started? ==> more == [e] && FirstUp(j, e.turn)
    ensures InTurn(j + more)
  {
    var n := j + more;
    forall p | 0 <= p < |n| && n[p].Started? ensures FirstUp(n[..p], n[p].turn) {
      if p < |j| { assert n[..p] == j[..p]; }
      else { assert n[p] in more && n[..p] == j; }
    }
  }

  /** The input a drain picks is the first that waits. */
  lemma {:induction false} FirstWaits(j: Log, part: Log) returns (k: nat)
    requires PendingIn(j, part) != []
    ensures k < |part| && part[k] == PendingIn(j, part)[0] && forall i :: 0 <= i < k ==> !IsPending(j, part[i])
  {
    var init := part[..|part| - 1];
    if PendingIn(j, init) != [] {
      k := FirstWaits(j, init);
    } else {
      k := |init|;
      forall i | 0 <= i < k ensures !IsPending(j, part[i]) { assert init[i] in init && part[i] == init[i]; }
    }
  }

  lemma PickedIsFirst(j: Log)
    requires Pending(j) != []
    ensures FirstUp(j, Ids(Pending(j))[0])
  {
    var k := FirstWaits(j, j);
    assert Pending(j)[0] in Pending(j);
    assert IsFirst(j, j[k].id, k);
  }

  /** The turn a drain is about to claim or to start. */
  function Upcoming(t: Task): Option<TurnId> {
    match t.phase
    case Preparing(u) => Some(u)
    case Engine(u, _, stage) => if stage == Claimed then Some(u) else None
    case _ => None
  }

  ghost predicate TaskInTurn(t: Task, js: Journals) {
    Upcoming(t).Some? ==> FirstUp(LogOf(js, t.actor), Upcoming(t).value)
  }

  ghost predicate TasksInTurn(m: Process, js: Journals) {
    forall k :: k in m.tasks ==> TaskInTurn(m.tasks[k], js)
  }

  ghost predicate Lined(w: World) {
    && (forall a :: InTurn(LogOf(w.journals, a)))
    && (forall p :: p in w.procs ==> TasksInTurn(w.procs[p], w.journals))
  }

  /** No drain has come to a new turn. */
  ghost predicate NothingNew(m: Process, n: Process) {
    forall k :: k in n.tasks && Upcoming(n.tasks[k]).Some? ==>
      k in m.tasks && n.tasks[k].actor == m.tasks[k].actor && Upcoming(n.tasks[k]) == Upcoming(m.tasks[k])
  }

  lemma NothingNewKeeps(m: Process, n: Process, js: Journals)
    requires TasksInTurn(m, js) && NothingNew(m, n)
    ensures TasksInTurn(n, js)
  {
    forall k | k in n.tasks ensures TaskInTurn(n.tasks[k], js) {
      if Upcoming(n.tasks[k]).Some? { assert TaskInTurn(m.tasks[k], js); }
    }
  }

  /** The process a move is about. */
  function Mover(move: Move): Option<InstanceId> {
    match move
    case Tick(_) => None
    case Join(p) => Some(p)
    case Own(p, _) => Some(p)
    case Extend(p, _) => Some(p)
    case LetGo(p) => Some(p)
    case Invalidate(p) => Some(p)
    case Close(p) => Some(p)
    case Crash(p) => Some(p)
    case Activate(p, _, _) => Some(p)
    case Observe(p, _) => Some(p)
    case Unwind(p, _) => Some(p)
    case Fail(p, _) => Some(p)
    case Continue(p, _) => Some(p)
    case Take(p, _) => Some(p)
    case BeginTxn(p) => Some(p)
    case CheckTxn(p) => Some(p)
    case CommitTxn(p) => Some(p)
    case Return(p, _) => Some(p)
    case Lost(p) => Some(p)
    case Settle(p) => Some(p)
    case Drop(p) => Some(p)
  }

  lemma OthersAsTheyWere(w: World, move: Move, q: InstanceId)
    requires Can(w, move) && Mover(move) != Some(q) && q in Do(w, move).procs
    ensures q in w.procs && Do(w, move).procs[q] == w.procs[q]
  {
  }

  lemma StopsNothingNew(m: Process, stop: set<ActorId>)
    requires stop <= m.active.Keys
    ensures NothingNew(m, StopAll(m, stop))
  {
  }

  lemma PhaseNothingNew(m: Process, k: TaskId, phase: Phase)
    requires k in m.tasks
    requires Upcoming(m.tasks[k].(phase := phase)).Some? ==> Upcoming(m.tasks[k].(phase := phase)) == Upcoming(m.tasks[k])
    ensures NothingNew(m, SetPhase(m, k, phase))
  {
  }

  lemma CancelNothingNew(m: Process, targets: map<ActorId, seq<TurnId>>)
    ensures NothingNew(m, CancelLocal(m, targets))
  {
    StopsNothingNew(m, set a | a in m.active && Stopped(m, targets, a));
  }

  lemma ReturnsNothingNew(m: Process, w: Work, js: Journals, root: ActorId, settled: bool)
    ensures NothingNew(m, Effect(m, w, js, root, settled))
  {
    match w
    case EngineAppend(_, k, es) =>
      if k in m.tasks && m.tasks[k].phase.Engine? && es != [] { PhaseNothingNew(m, k, m.tasks[k].phase.(stage := NextStage(es))); }
    case Interrupt(_, k, _) => if k in m.tasks { InterruptNothingNew(m, k); }
    case Cancel(_, _, _) => CancelNothingNew(m, StopTargets(w, js, root));
    case CancelActors(_) => CancelNothingNew(m, StopTargets(w, js, root));
    case _ =>
  }

  lemma InterruptNothingNew(m: Process, k: TaskId)
    requires k in m.tasks
    ensures NothingNew(m, AfterInterrupt(m, k))
  {
    PhaseNothingNew(m, k, Looping);
    PhaseNothingNew(m, k, Gone);
  }

  lemma FailureNothingNew(m: Process, w: Work)
    ensures NothingNew(m, LostEffect(m, w))
  {
    match w
    case EngineAppend(_, k, _) => if k in m.tasks { PhaseNothingNew(m, k, Gone); }
    case Interrupt(_, k, _) => if k in m.tasks { PhaseNothingNew(m, k, Gone); }
    case _ =>
  }

  /** A drain claims the turn it picked. */
  lemma ClaimNothingNew(m: Process, k: TaskId, t: TurnId, seen: Log)
    requires k in m.tasks && m.tasks[k].phase == Preparing(t)
    ensures NothingNew(m, Claim1(m, k, t, seen))
  {
    PhaseNothingNew(m, k, Looping);
    PhaseNothingNew(m, k, Engine(t, Generation(m, m.tasks[k].actor) + 1, Claimed));
  }

  lemma ClaimantPrepares(w: World, p: InstanceId)
    requires WorldOk(w) && At(w, p, Locked) && w.procs[p].hold.value.work.Claim?
    ensures var work := w.procs[p].hold.value.work; work.task in w.procs[p].tasks && w.procs[p].tasks[work.task].phase == Preparing(work.turn)
  {
    assert Sound(w, p);
  }

  lemma SettlersPickNothing(w: World, p: InstanceId)
    requires WorldOk(w) && Can(w, Settle(p))
    ensures NothingNew(w.procs[p], Do(w, Settle(p)).procs[p])
  {
    var m, h := w.procs[p].(hold := None), w.procs[p].hold.value;
    match h.work
    case Claim(a, k, t) =>
      ClaimantPrepares(w, p);
      ClaimNothingNew(m, k, t, LogOf(h.seen, a));
    case Interrupt(_, k, _) => InterruptNothingNew(m, k);
  }

  /** A drain's own moves, but reading its journal. */
  lemma DrainsPickNothing(w: World, move: Move, p: InstanceId)
    requires Can(w, move) && (move.Activate? || move.Unwind? || move.Fail? || move.Continue?) && Mover(move) == Some(p)
    ensures p in w.procs && p in Do(w, move).procs && NothingNew(w.procs[p], Do(w, move).procs[p])
  {
    if move.Unwind? {
      if Current(w.procs[p].tasks[move.task]).Some? { PhaseNothingNew(w.procs[p], move.task, Unwinding(Current(w.procs[p].tasks[move.task]).value)); }
      else { PhaseNothingNew(w.procs[p], move.task, Gone); }
    } else if move.Fail? { PhaseNothingNew(w.procs[p], move.task, Gone); }
    else if move.Continue? { PhaseNothingNew(w.procs[p], move.task, Looping); }
  }

  lemma EffectsPickNothing(w: World, move: Move, p: InstanceId)
    requires Can(w, move) && (move.Invalidate? || move.Close? || move.Return? || move.Lost?) && Mover(move) == Some(p)
    ensures p in w.procs && p in Do(w, move).procs && NothingNew(w.procs[p], Do(w, move).procs[p])
  {
    if move.Invalidate? || move.Close? { StopsNothingNew(w.procs[p], w.procs[p].active.Keys); }
    else {
      var h := w.procs[p].hold.value;
      ReturnsNothingNew(w.procs[p].(hold := None), h.work, h.seen, w.root, move.Return? && move.settled);
      FailureNothingNew(w.procs[p].(hold := None), h.work);
    }
  }

  /** Only a drain that reads its journal comes to a new turn. */
  lemma OnlyObserversPick(w: World, move: Move, p: InstanceId)
    requires WorldOk(w) && Can(w, move) && Mover(move) == Some(p) && p in Do(w, move).procs
    requires !move.Observe? && !move.Join?
    ensures p in w.procs && NothingNew(w.procs[p], Do(w, move).procs[p])
  {
    if move.Invalidate? || move.Close? || move.Return? || move.Lost? { EffectsPickNothing(w, move, p); }
    else if move.Settle? { SettlersPickNothing(w, p); }
    else if move.Activate? || move.Unwind? || move.Fail? || move.Continue? { DrainsPickNothing(w, move, p); }
    else { BodiesPickNothing(w, move, p); }
  }

  lemma BodiesPickNothing(w: World, move: Move, p: InstanceId)
    requires Can(w, move) && Mover(move) == Some(p) && p in Do(w, move).procs
    requires move.Own? || move.Extend? || move.LetGo? || move.Crash? || move.Take? || move.BeginTxn? || move.CheckTxn?
             || move.CommitTxn? || move.Drop?
    ensures p in w.procs && Do(w, move).procs[p].tasks == w.procs[p].tasks
  {
  }

  lemma ObserverPicks(w: World, p: InstanceId, k: TaskId)
    requires Lined(w) && Can(w, Observe(p, k))
    ensures TasksInTurn(Do(w, Observe(p, k)).procs[p], w.journals)
  {
    var m := w.procs[p];
    var n, j := Do(w, Observe(p, k)).procs[p], LogOf(w.journals, m.tasks[k].actor);
    forall l | l in n.tasks ensures TaskInTurn(n.tasks[l], w.journals) {
      if l != k { assert n.tasks[l] == m.tasks[l] && TaskInTurn(m.tasks[l], w.journals); }
      else if Upcoming(n.tasks[k]).Some? { PickedIsFirst(j); }
    }
  }

  lemma MoverInTurn(w: World, move: Move, p: InstanceId)
    requires WorldOk(w) && Lined(w) && Can(w, move) && Mover(move) == Some(p) && p in Do(w, move).procs
    ensures TasksInTurn(Do(w, move).procs[p], w.journals)
  {
    if move.Observe? { ObserverPicks(w, p, move.task); }
    else if !move.Join? {
      OnlyObserversPick(w, move, p);
      NothingNewKeeps(w.procs[p], Do(w, move).procs[p], w.journals);
    }
  }

  lemma ProcessesInTurn(w: World, move: Move)
    requires WorldOk(w) && Lined(w) && Can(w, move)
    ensures forall p :: p in Do(w, move).procs ==> TasksInTurn(Do(w, move).procs[p], w.journals)
  {
    forall p | p in Do(w, move).procs ensures TasksInTurn(Do(w, move).procs[p], w.journals) {
      if Mover(move) == Some(p) { MoverInTurn(w, move, p); } else { OthersAsTheyWere(w, move, p); }
    }
  }

  /** Only engines append starts, each alone. */
  lemma StartsComeAlone(work: Work, js: Journals, root: ActorId, a: ActorId, e: Entry)
    requires e in Appends(work, js, root, a) && e.Started?
    ensures work.EngineAppend? && work.actor == a && e in work.entries
  {
    match work
    case Recover => EndsOnly(RecoveryEnds(js, root, a), e);
    case CancelActors(_) => EndsOnly(TargetsOf(LogOf(js, a), Anything), e);
    case Cancel(c, r, d) => CancelStartsNothing(js, root, c, r, d, a, e);
    case _ =>
  }

  lemma CancelStartsNothing(js: Journals, root: ActorId, c: TurnId, r: Option<string>, d: bool, a: ActorId, e: Entry)
    ensures e in CancelAppends(js, root, c, r, d, a) ==> !e.Started?
  {
    var targets := CancelTargets(js, root, c, r, d);
    if targets.Some? && a in targets.value { EndsOnly(LiveOf(LogOf(js, a), targets.value[a]), e); }
  }

  lemma EndsOnly(ts: seq<TurnId>, e: Entry)
    ensures e in Ends(ts) ==> e.Ended?
  {
  }

  /** What a commit appends starts only a turn that is first up. */
  lemma CommitsInTurn(w: World, p: InstanceId, a: ActorId, e: Entry)
    requires WorldOk(w) && Lined(w) && Can(w, CommitTxn(p))
    requires e in Appends(w.procs[p].hold.value.work, w.journals, w.root, a) && e.Started?
    ensures Appends(w.procs[p].hold.value.work, w.journals, w.root, a) == [e] && FirstUp(LogOf(w.journals, a), e.turn)
  {
    var m, work := w.procs[p], w.procs[p].hold.value.work;
    StartsComeAlone(work, w.journals, w.root, a, e);
    CommitterFits(w, p);
    assert TaskInTurn(m.tasks[work.task], w.journals);
  }

  lemma CommitterFits(w: World, p: InstanceId)
    requires WorldOk(w) && At(w, p, Checked) && w.procs[p].hold.value.work.EngineAppend?
    ensures var m, work := w.procs[p], w.procs[p].hold.value.work;
            work.task in m.tasks && m.tasks[work.task].actor == work.actor && m.tasks[work.task].phase.Engine?
            && EntriesFit(m.tasks[work.task].phase, work.entries)
  {
    assert Sound(w, p);
  }

  lemma CommitKeepsOrder(w: World, p: InstanceId, a: ActorId)
    requires WorldOk(w) && Lined(w) && Can(w, CommitTxn(p))
    ensures InTurn(LogOf(Do(w, CommitTxn(p)).journals, a))
  {
    var work := w.procs[p].hold.value.work;
    CommitterRead(w, p);
    ApplyLog(work, w.journals, w.root, a);
    var more := Appends(work, w.journals, w.root, a);
    forall e | e in more && e.Started? ensures more == [e] && FirstUp(LogOf(w.journals, a), e.turn) { CommitsInTurn(w, p, a, e); }
    AppendInTurn(LogOf(w.journals, a), more);
  }

  lemma TasksStayInTurn(m: Process, js: Journals, js': Journals)
    requires TasksInTurn(m, js) && forall a :: LogOf(js, a) <= LogOf(js', a)
    ensures TasksInTurn(m, js')
  {
    forall k | k in m.tasks ensures TaskInTurn(m.tasks[k], js') {
      assert TaskInTurn(m.tasks[k], js);
      var j, n := LogOf(js, m.tasks[k].actor), LogOf(js', m.tasks[k].actor);
      if Upcoming(m.tasks[k]).Some? {
        assert j + n[|j|..] == n;
        StaysFirst(j, n[|j|..], Upcoming(m.tasks[k]).value);
      }
    }
  }

  lemma JournalsGrow(w: World, move: Move, a: ActorId)
    requires WorldOk(w) && Can(w, move)
    ensures LogOf(w.journals, a) <= LogOf(Do(w, move).journals, a)
  {
    if move.CommitTxn? {
      CommitterRead(w, move.p);
      ApplyLog(w.procs[move.p].hold.value.work, w.journals, w.root, a);
    } else { OnlyCommitsWrite(w, move); }
  }

  lemma MoveKeepsOrder(w: World, move: Move)
    requires WorldOk(w) && Lined(w) && Can(w, move)
    ensures Lined(Do(w, move))
  {
    var n := Do(w, move);
    ProcessesInTurn(w, move);
    forall a ensures LogOf(w.journals, a) <= LogOf(n.journals, a) { JournalsGrow(w, move, a); }
    forall p | p in n.procs ensures TasksInTurn(n.procs[p], n.journals) { TasksStayInTurn(n.procs[p], w.journals, n.journals); }
    forall a ensures InTurn(LogOf(n.journals, a)) { JournalInTurn(w, move, a); }
  }

  lemma JournalInTurn(w: World, move: Move, a: ActorId)
    requires WorldOk(w) && Lined(w) && Can(w, move)
    ensures InTurn(LogOf(Do(w, move).journals, a))
  {
    if move.CommitTxn? { CommitKeepsOrder(w, move.p, a); } else { OnlyCommitsWrite(w, move); }
  }

  lemma {:induction false} PathKeepsOrder(w: World, moves: seq<Move>, n: World)
    requires WorldOk(w) && Lined(w) && CarefulPath(w, moves, n)
    ensures Lined(n)
    decreases |moves|
  {
    if moves != [] {
      MoveKeepsInvariant(w, moves[0]);
      MoveKeepsOrder(w, moves[0]);
      PathKeepsOrder(Do(w, moves[0]), moves[1..], n);
    }
  }

  /** In every careful run of any processes, at every start of a turn its input was queued, and
      every input queued before it in the same actor had been started or ended. */
  lemma InputsRunInOrder(start: World, moves: seq<Move>, w: World, a: ActorId)
    requires Start(start) && CarefulPath(start, moves, w)
    ensures InTurn(LogOf(w.journals, a))
  {
    StartOk(start);
    forall b ensures InTurn(LogOf(start.journals, b)) { }
    PathKeepsOrder(start, moves, w);
  }
}
