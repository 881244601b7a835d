/** Safety of the turn protocol, move by move: every careful move of every process keeps the
    invariant that every journal is well formed and no turn has two writers. */
module TurnSafety {
  import opened Basics
  import opened Journal
  import opened Coordinator
  import opened Commands
  import opened TurnProtocol

  function Gen(w: World): nat { GenerationOf(w.tables) }

  /** Ownership and the process lock are not part of what a process knows of its drains. */
  predicate SameDrains(m: Process, n: Process) {
    n.generations == m.generations && n.active == m.active && n.tasks == m.tasks
  }

  lemma SameLive(m: Process, n: Process)
    requires SameDrains(m, n)
    ensures forall k :: LiveTask(n, k) <==> LiveTask(m, k)
  {
  }

  lemma SameTasks(m: Process, n: Process)
    requires SameDrains(m, n) && TasksOk(m)
    ensures TasksOk(n)
  {
    SameLive(m, n);
    forall a | a in n.active ensures SlotOk(n, a) { assert SlotOk(m, a); }
    forall k | k in n.tasks ensures TaskOk(n, k) { assert TaskOk(m, k); }
  }

  lemma SameKnowledge(m: Process, n: Process, js: Journals)
    requires SameDrains(m, n) && DrainsOk(m, js)
    ensures DrainsOk(n, js)
  {
    forall k | k in n.tasks ensures DrainOk(n, k, LogOf(js, n.tasks[k].actor)) {
      assert DrainOk(m, k, LogOf(js, m.tasks[k].actor));
    }
  }

  lemma SameQuiet(m: Process, n: Process)
    requires SameDrains(m, n)
    ensures Quiet(n) <==> Quiet(m)
  {
    SameLive(m, n);
  }

  lemma QuietDrains(m: Process, js: Journals)
    requires Quiet(m)
    ensures DrainsOk(m, js)
  {
    forall k | k in m.tasks ensures DrainOk(m, k, LogOf(js, m.tasks[k].actor)) { }
  }

  lemma QuietKnows(m: Process, js: Journals, root: ActorId)
    requires Quiet(m)
    ensures Knows(m, js, root)
  {
    if Awaiting(m) {
      var h := m.hold.value;
      forall k | k in m.tasks ensures AwaitingOk(m, h.work, h.seen, root, k, LogOf(js, m.tasks[k].actor)) { }
    } else {
      QuietDrains(m, js);
    }
  }

  /** Other processes do not notice a change that leaves their generation, the journals and
      the lock as they see them. */
  lemma Others(w: World, n: World, p: InstanceId)
    requires WorldOk(w) && n.root == w.root
    requires forall q :: q in n.procs && q != p ==>
      q in w.procs && n.procs[q] == w.procs[q] && (n.lock == Some(q) <==> w.lock == Some(q))
    requires (Gen(n) == Gen(w) && n.grantee == w.grantee) || (Gen(n) > Gen(w) && w.lock.None?)
    requires n.journals == w.journals || (w.grantee == Some(p) && Gen(n) == Gen(w))
    ensures forall q :: q in n.procs && q != p ==> ProcOk(q, n.procs[q], Gen(n), n.grantee, n.journals, n.lock, n.root)
  {
    forall q | q in n.procs && q != p ensures ProcOk(q, n.procs[q], Gen(n), n.grantee, n.journals, n.lock, n.root) {
      assert ProcOk(q, w.procs[q], Gen(w), w.grantee, w.journals, w.lock, w.root);
    }
  }

  lemma ClockMoves(w: World, move: Move)
    requires WorldOk(w) && Can(w, move)
    requires move.Tick? || move.Extend?
    ensures WorldOk(Do(w, move))
  {
    var n := Do(w, move);
    forall q | q in n.procs ensures ProcOk(q, n.procs[q], Gen(n), n.grantee, n.journals, n.lock, n.root) {
      assert ProcOk(q, w.procs[q], Gen(w), w.grantee, w.journals, w.lock, w.root);
    }
  }

  lemma CrashMove(w: World, move: Move)
    requires WorldOk(w) && Can(w, move)
    requires move.Crash?
    ensures WorldOk(Do(w, move))
  {
    assert ProcOk(move.p, w.procs[move.p], Gen(w), w.grantee, w.journals, w.lock, w.root);
    Others(w, Do(w, move), move.p);
  }

  lemma JoinMove(w: World, p: InstanceId)
    requires WorldOk(w) && Can(w, Join(p))
    ensures WorldOk(Do(w, Join(p)))
  {
    var n := Do(w, Join(p));
    NewProcess(p, n.procs[p], Gen(w), w.grantee, w.journals, w.lock, w.root);
    Others(w, n, p);
  }

  lemma NewProcess(p: InstanceId, m: Process, gen: nat, grantee: Option<InstanceId>, js: Journals, lock: Option<InstanceId>, root: ActorId)
    requires m == Process(None, false, map[], map[], map[], None, false) && grantee != Some(p) && lock != Some(p)
    ensures ProcOk(p, m, gen, grantee, js, lock, root)
  {
  }

  ghost predicate Sound(w: World, p: InstanceId) {
    p in w.procs && ProcOk(p, w.procs[p], Gen(w), w.grantee, w.journals, w.lock, w.root)
  }

  /** A move of one process that leaves the database as it is. */
  lemma ProcStep(w: World, n: World, p: InstanceId, m: Process)
    requires WorldOk(w) && p in w.procs && n == Put1(w.(lock := n.lock), p, m)
    requires n.lock == w.lock || ((n.lock.None? || n.lock == Some(p)) && (w.lock.None? || w.lock == Some(p)))
    requires ProcOk(p, m, Gen(w), w.grantee, w.journals, n.lock, w.root)
    ensures WorldOk(n)
  {
    Others(w, n, p);
  }

  lemma LetGoMove(w: World, p: InstanceId)
    requires WorldOk(w) && Can(w, LetGo(p))
    ensures WorldOk(Do(w, LetGo(p)))
  {
    assert Sound(w, p);
    LetGoProc(p, w.procs[p], Gen(w), w.grantee, w.journals, w.lock, w.root);
    Others(w, Do(w, LetGo(p)), p);
  }

  lemma LetGoProc(p: InstanceId, m: Process, gen: nat, grantee: Option<InstanceId>, js: Journals, lock: Option<InstanceId>, root: ActorId)
    requires ProcOk(p, m, gen, grantee, js, lock, root) && m.hold.None? && m.active == map[]
    ensures ProcOk(p, m.(own := None), gen, grantee, js, lock, root)
  {
    var n := m.(own := None);
    forall k | k in m.tasks ensures !LiveTask(m, k) && (m.tasks[k].phase.Preparing? ==> m.tasks[k].cancelled) {
      assert TaskOk(m, k);
    }
    SameTasks(m, n);
    SameQuiet(m, n);
  }

  lemma OwnMove(w: World, p: InstanceId, ttl: nat)
    requires WorldOk(w) && Can(w, Own(p, ttl))
    ensures WorldOk(Do(w, Own(p, ttl)))
  {
    var n := Do(w, Own(p, ttl));
    assert Sound(w, p);
    OwningProc(p, w.procs[p], Gen(w), w.grantee, w.journals, w.lock, w.root, Gen(n));
    Others(w, n, p);
  }

  lemma OwningProc(p: InstanceId, m: Process, gen: nat, grantee: Option<InstanceId>, js: Journals, lock: Option<InstanceId>,
                   root: ActorId, gen': nat)
    requires ProcOk(p, m, gen, grantee, js, lock, root) && m.own.None? && m.hold.None? && !m.closing && lock.None?
    ensures ProcOk(p, m.(own := Some(gen'), unrecovered := true, hold := Some(Hold(Recover, gen', js, Locked))),
                   gen', Some(p), js, lock, root)
  {
    var n := m.(own := Some(gen'), unrecovered := true, hold := Some(Hold(Recover, gen', js, Locked)));
    SameTasks(m, n);
    SameQuiet(m, n);
    QuietKnows(n, js, root);
  }

  lemma StoppedIsQuiet(m: Process)
    requires TasksOk(m)
    ensures var n := StopAll(m, m.active.Keys); TasksOk(n) && Quiet(n) && n.active == map[]
  {
    var n := StopAll(m, m.active.Keys);
    StopAllOk(m, m.active.Keys);
    forall k | k in n.tasks ensures !LiveTask(n, k) && (n.tasks[k].phase.Preparing? ==> n.tasks[k].cancelled) {
      StopAllTask(m, m.active.Keys, k);
      assert TaskOk(m, k);
    }
    assert n.active == map[];
  }

  lemma InvalidateMove(w: World, p: InstanceId)
    requires WorldOk(w) && Can(w, Invalidate(p))
    ensures WorldOk(Do(w, Invalidate(p)))
  {
    assert Sound(w, p);
    InvalidatedProc(p, w.procs[p], Gen(w), w.grantee, w.journals, w.lock, w.root);
    ProcStep(w, Do(w, Invalidate(p)), p, InvalidateRoot(w.procs[p]));
  }

  lemma InvalidatedProc(p: InstanceId, m: Process, gen: nat, grantee: Option<InstanceId>, js: Journals, lock: Option<InstanceId>, root: ActorId)
    requires ProcOk(p, m, gen, grantee, js, lock, root) && m.hold.None?
    ensures ProcOk(p, InvalidateRoot(m), gen, grantee, js, lock, root)
  {
    StoppedIsQuiet(m);
    SameTasks(StopAll(m, m.active.Keys), InvalidateRoot(m));
    SameQuiet(StopAll(m, m.active.Keys), InvalidateRoot(m));
  }

  function Closed(m: Process): Process {
    StopAll(m, m.active.Keys).(closing := true)
  }

  lemma ClosedMemory(m: Process)
    requires TasksOk(m)
    ensures TasksOk(Closed(m)) && Quiet(Closed(m)) && Closed(m).active == map[]
  {
    StoppedIsQuiet(m);
    SameTasks(StopAll(m, m.active.Keys), Closed(m));
    SameQuiet(StopAll(m, m.active.Keys), Closed(m));
  }

  /** Whatever holds the process lock goes on, the body of a drain that was just stopped included. */
  lemma ClosedWork(m: Process, h: Hold, root: ActorId)
    requires TasksOk(m) && WorkOk(m, h, root)
    ensures WorkOk(Closed(m), h, root) && SameWriter(m, Closed(m), h.work)
  {
    ClosedMemory(m);
    match h.work
    case EngineAppend(_, k, _) => StopAllTask(m, m.active.Keys, k);
    case Interrupt(_, k, _) => StopAllTask(m, m.active.Keys, k);
    case Claim(_, k, _) => StopAllTask(m, m.active.Keys, k);
    case _ =>
  }

  predicate SameWriter(m: Process, n: Process, work: Work) {
    work.EngineAppend? && work.task in n.tasks ==>
      work.task in m.tasks && n.tasks[work.task].phase == m.tasks[work.task].phase
  }

  /** A body's hold survives changes to the process's drains that leave the drain it serves. */
  lemma SameHold(p: InstanceId, m: Process, n: Process, gen: nat, grantee: Option<InstanceId>, js: Journals,
                 lock: Option<InstanceId>, root: ActorId)
    requires HoldOk(p, m, gen, grantee, js, lock, root) && n.hold == m.hold && n.own == m.own
    requires m.hold.Some? ==> WorkOk(n, m.hold.value, root) && SameWriter(m, n, m.hold.value.work)
    ensures HoldOk(p, n, gen, grantee, js, lock, root)
  {
  }

  lemma ClosedProc(p: InstanceId, m: Process, gen: nat, grantee: Option<InstanceId>, js: Journals, lock: Option<InstanceId>, root: ActorId)
    requires ProcOk(p, m, gen, grantee, js, lock, root)
    ensures ProcOk(p, Closed(m), gen, grantee, js, lock, root)
  {
    ClosedMemory(m);
    if m.hold.Some? { ClosedWork(m, m.hold.value, root); }
    SameHold(p, m, Closed(m), gen, grantee, js, lock, root);
    QuietKnows(Closed(m), js, root);
  }

  /** A process may close at any time, also while one of its drains holds the process lock. */
  lemma CloseMove(w: World, p: InstanceId)
    requires WorldOk(w) && Can(w, Close(p))
    ensures WorldOk(Do(w, Close(p)))
  {
    assert Sound(w, p);
    ClosedProc(p, w.procs[p], Gen(w), w.grantee, w.journals, w.lock, w.root);
    ProcStep(w, Do(w, Close(p)), p, Closed(w.procs[p]));
  }

  /* ---- one drain moves on ---- */

  /** One drain moves; the others stay as they are. */
  predicate OnlyDrain(m: Process, n: Process, k: TaskId) {
    && k in m.tasks && n.tasks.Keys == m.tasks.Keys && n.own == m.own && n.hold == m.hold
    && n.generations == m.generations && n.closing == m.closing && n.active.Keys <= m.active.Keys
    && n.tasks[k].actor == m.tasks[k].actor
    && forall l :: l in m.tasks && l != k ==> n.tasks[l] == m.tasks[l]
  }

  /** The drain is not live afterwards, and if it is about to claim, its actor's journal is at rest. */
  ghost predicate Rested(m: Process, n: Process, k: TaskId, gen: nat, js: Journals)
    requires OnlyDrain(m, n, k)
  {
    && (forall l :: LiveTask(n, l) ==> LiveTask(m, l) && l != k)
    && (n.tasks[k].phase.Preparing? && !n.tasks[k].cancelled ==>
          m.own.Some? && !m.closing && (m.own == Some(gen) ==> AllEnded(LogOf(js, m.tasks[k].actor))))
  }

  lemma OneDrainWork(m: Process, n: Process, k: TaskId, h: Hold, root: ActorId)
    requires OnlyDrain(m, n, k) && m.hold == Some(h) && WorkOk(m, h, root) && !Busy(m, k)
    requires forall l :: LiveTask(n, l) ==> LiveTask(m, l) && l != k
    ensures WorkOk(n, h, root) && SameWriter(m, n, h.work)
  {
  }

  lemma OneDrainKnows(m: Process, n: Process, k: TaskId, gen: nat, js: Journals, root: ActorId)
    requires OnlyDrain(m, n, k) && Rested(m, n, k, gen, js) && m.own == Some(gen) && Knows(m, js, root)
    ensures Knows(n, js, root)
  {
    if Awaiting(m) {
      var h := m.hold.value;
      forall l | l in n.tasks ensures AwaitingOk(n, h.work, h.seen, root, l, LogOf(js, n.tasks[l].actor)) {
        assert AwaitingOk(m, h.work, h.seen, root, l, LogOf(js, m.tasks[l].actor));
      }
    } else {
      forall l | l in n.tasks ensures DrainOk(n, l, LogOf(js, n.tasks[l].actor)) {
        assert DrainOk(m, l, LogOf(js, m.tasks[l].actor));
      }
    }
  }

  /** Fewer drains, none of them newly live or about to claim. */
  lemma StillResting(m: Process, n: Process)
    requires Resting(m) && n.own == m.own && n.closing == m.closing && n.active.Keys <= m.active.Keys
    requires forall l :: LiveTask(n, l) ==> LiveTask(m, l)
    requires forall l :: l in n.tasks && n.tasks[l].phase.Preparing? && !n.tasks[l].cancelled ==>
               l in m.tasks && m.tasks[l].phase.Preparing? && !m.tasks[l].cancelled
    ensures Resting(n)
  {
    if m.closing { assert n.active == map[]; }
  }

  lemma OneDrainRests(m: Process, n: Process, k: TaskId, gen: nat, js: Journals)
    requires OnlyDrain(m, n, k) && Rested(m, n, k, gen, js) && Resting(m)
    ensures Resting(n)
  {
    if !(n.tasks[k].phase.Preparing? && !n.tasks[k].cancelled) { StillResting(m, n); }
  }

  lemma OneDrainProc(p: InstanceId, m: Process, n: Process, k: TaskId, gen: nat, grantee: Option<InstanceId>, js: Journals,
                     lock: Option<InstanceId>, root: ActorId)
    requires ProcOk(p, m, gen, grantee, js, lock, root) && OnlyDrain(m, n, k) && Rested(m, n, k, gen, js) && !Busy(m, k)
    requires TasksOk(n)
    ensures ProcOk(p, n, gen, grantee, js, lock, root)
  {
    if m.hold.Some? { OneDrainWork(m, n, k, m.hold.value, root); }
    SameHold(p, m, n, gen, grantee, js, lock, root);
    OneDrainRests(m, n, k, gen, js);
    if m.own == Some(gen) { OneDrainKnows(m, n, k, gen, js, root); }
  }

  lemma OneDrain(w: World, p: InstanceId, k: TaskId, n: Process)
    requires WorldOk(w) && p in w.procs && OnlyDrain(w.procs[p], n, k) && !Busy(w.procs[p], k)
    requires Rested(w.procs[p], n, k, Gen(w), w.journals) && TasksOk(n)
    ensures WorldOk(Put1(w, p, n))
  {
    assert Sound(w, p);
    OneDrainProc(p, w.procs[p], n, k, Gen(w), w.grantee, w.journals, w.lock, w.root);
    ProcStep(w, Put1(w, p, n), p, n);
  }

  function Activated(m: Process, a: ActorId, k: TaskId): Process {
    m.(active := m.active[a := k], tasks := m.tasks[k := Task(a, Looping, false)])
  }

  lemma ActivateTasks(m: Process, a: ActorId, k: TaskId)
    requires TasksOk(m) && a !in m.active && k !in m.tasks
    ensures TasksOk(Activated(m, a, k))
    ensures forall l :: LiveTask(Activated(m, a, k), l) <==> LiveTask(m, l)
  {
    var n := Activated(m, a, k);
    forall l ensures LiveTask(n, l) <==> LiveTask(m, l) { }
    forall b | b in n.active ensures SlotOk(n, b) { if b != a { assert SlotOk(m, b); } }
    forall l | l in n.tasks ensures TaskOk(n, l) { if l != k { assert TaskOk(m, l); } }
    assert OneWriter(n);
  }

  lemma ActivatedKnows(m: Process, a: ActorId, k: TaskId, js: Journals, root: ActorId)
    requires k !in m.tasks && Knows(m, js, root)
    ensures Knows(Activated(m, a, k), js, root)
  {
    var n := Activated(m, a, k);
    if Awaiting(m) {
      var h := m.hold.value;
      forall l | l in n.tasks ensures AwaitingOk(n, h.work, h.seen, root, l, LogOf(js, n.tasks[l].actor)) {
        if l != k { assert AwaitingOk(m, h.work, h.seen, root, l, LogOf(js, m.tasks[l].actor)); }
      }
    } else {
      forall l | l in n.tasks ensures DrainOk(n, l, LogOf(js, n.tasks[l].actor)) {
        if l != k { assert DrainOk(m, l, LogOf(js, m.tasks[l].actor)); }
      }
    }
  }

  lemma ActivatedWork(m: Process, a: ActorId, k: TaskId, h: Hold, root: ActorId)
    requires k !in m.tasks && WorkOk(m, h, root)
    requires forall l :: LiveTask(Activated(m, a, k), l) <==> LiveTask(m, l)
    ensures WorkOk(Activated(m, a, k), h, root) && SameWriter(m, Activated(m, a, k), h.work)
  {
  }

  lemma ActivatedProc(p: InstanceId, m: Process, a: ActorId, k: TaskId, gen: nat, grantee: Option<InstanceId>, js: Journals,
                      lock: Option<InstanceId>, root: ActorId)
    requires ProcOk(p, m, gen, grantee, js, lock, root) && !m.closing && a !in m.active && k !in m.tasks
    ensures ProcOk(p, Activated(m, a, k), gen, grantee, js, lock, root)
  {
    var n := Activated(m, a, k);
    ActivateTasks(m, a, k);
    if m.hold.Some? { ActivatedWork(m, a, k, m.hold.value, root); }
    SameHold(p, m, n, gen, grantee, js, lock, root);
    assert Resting(n);
    if m.own == Some(gen) { ActivatedKnows(m, a, k, js, root); }
  }

  lemma ActivateMove(w: World, p: InstanceId, a: ActorId, k: TaskId)
    requires WorldOk(w) && Can(w, Activate(p, a, k))
    ensures WorldOk(Do(w, Activate(p, a, k)))
  {
    assert Sound(w, p);
    ActivatedProc(p, w.procs[p], a, k, Gen(w), w.grantee, w.journals, w.lock, w.root);
    ProcStep(w, Do(w, Activate(p, a, k)), p, Activated(w.procs[p], a, k));
  }

  /** A drain that is not aborted has its slot, so its process is not closing. */
  lemma NotClosing(m: Process, k: TaskId)
    requires TasksOk(m) && Resting(m) && k in m.tasks && !m.tasks[k].cancelled && !m.tasks[k].phase.Gone?
    ensures !m.closing
  {
    assert TaskOk(m, k);
  }

  /** A drain at the top of its loop serves no body. */
  lemma NotBusy(m: Process, k: TaskId, root: ActorId)
    requires (m.hold.Some? ==> WorkOk(m, m.hold.value, root)) && k in m.tasks && m.tasks[k].phase.Looping?
    ensures !Busy(m, k)
  {
  }

  lemma LeftWork(m: Process, k: TaskId, gen: nat, js: Journals)
    requires TasksOk(m) && Resting(m) && m.own.Some? && k in m.tasks && m.tasks[k].phase.Looping? && !m.tasks[k].cancelled
    ensures var n := Exit(m, k); TasksOk(n) && OnlyDrain(m, n, k) && Rested(m, n, k, gen, js)
  {
    NotClosing(m, k);
    ExitOk(m, k);
  }

  lemma PickedWork(m: Process, k: TaskId, phase: Phase, gen: nat, js: Journals)
    requires TasksOk(m) && Resting(m) && m.own.Some? && k in m.tasks && m.tasks[k].phase.Looping? && !m.tasks[k].cancelled
    requires phase.Interrupting? || (phase.Preparing? && AllEnded(LogOf(js, m.tasks[k].actor)))
    ensures var n := SetPhase(m, k, phase); TasksOk(n) && OnlyDrain(m, n, k) && Rested(m, n, k, gen, js)
  {
    NotClosing(m, k);
    SetPhaseOk(m, k, phase);
  }

  lemma ObservedWork(m: Process, k: TaskId, j: Log, gen: nat, js: Journals)
    requires TasksOk(m) && Resting(m) && m.own.Some? && k in m.tasks && m.tasks[k].phase.Looping? && !m.tasks[k].cancelled
    requires j == LogOf(js, m.tasks[k].actor)
    ensures var n := Observed(m, k, j); TasksOk(n) && OnlyDrain(m, n, k) && Rested(m, n, k, gen, js)
  {
    if Finished in j { LeftWork(m, k, gen, js); }
    else {
      match Incomplete(j)
      case Some(t) => PickedWork(m, k, Interrupting(t), gen, js);
      case None =>
        if Pending(j) == [] { LeftWork(m, k, gen, js); } else { PickedWork(m, k, Preparing(Ids(Pending(j))[0]), gen, js); }
    }
  }

  lemma ObserveMove(w: World, p: InstanceId, k: TaskId)
    requires WorldOk(w) && Can(w, Observe(p, k))
    ensures WorldOk(Do(w, Observe(p, k)))
  {
    var m := w.procs[p];
    var j := LogOf(w.journals, m.tasks[k].actor);
    assert Sound(w, p);
    NotBusy(m, k, w.root);
    ObservedWork(m, k, j, Gen(w), w.journals);
    OneDrain(w, p, k, Observed(m, k, j));
  }

  lemma UnwindMove(w: World, p: InstanceId, k: TaskId)
    requires WorldOk(w) && Can(w, Unwind(p, k))
    ensures WorldOk(Do(w, Unwind(p, k)))
  {
    assert Sound(w, p);
    UnwoundWork(w.procs[p], k, Gen(w), w.journals);
    OneDrain(w, p, k, Unwound(w.procs[p], k));
  }

  lemma UnwoundWork(m: Process, k: TaskId, gen: nat, js: Journals)
    requires TasksOk(m) && k in m.tasks && m.tasks[k].cancelled && !m.tasks[k].phase.Gone?
    ensures var n := Unwound(m, k); TasksOk(n) && OnlyDrain(m, n, k) && Rested(m, n, k, gen, js)
  {
    match Current(m.tasks[k])
    case Some(t) => SetPhaseOk(m, k, Unwinding(t));
    case None => ExitOk(m, k);
  }

  lemma FailMove(w: World, p: InstanceId, k: TaskId)
    requires WorldOk(w) && Can(w, Fail(p, k))
    ensures WorldOk(Do(w, Fail(p, k)))
  {
    assert Sound(w, p);
    ExitOk(w.procs[p], k);
    OneDrain(w, p, k, Exit(w.procs[p], k));
  }

  lemma ContinueMove(w: World, p: InstanceId, k: TaskId)
    requires WorldOk(w) && Can(w, Continue(p, k))
    ensures WorldOk(Do(w, Continue(p, k)))
  {
    assert Sound(w, p);
    SetPhaseOk(w.procs[p], k, Looping);
    OneDrain(w, p, k, SetPhase(w.procs[p], k, Looping));
  }

  /* ---- bodies under the process lock ---- */

  lemma HeldProc(p: InstanceId, m: Process, hold: Option<Hold>, gen: nat, grantee: Option<InstanceId>, js: Journals,
                 lock: Option<InstanceId>, root: ActorId)
    requires ProcOk(p, m, gen, grantee, js, lock, root) && !Awaiting(m) && (hold.Some? ==> hold.value.stage != Written)
    ensures var n := m.(hold := hold); TasksOk(n) && OwnOk(p, n, gen, grantee) && (n.own == Some(gen) ==> Knows(n, js, root))
  {
    var n := m.(hold := hold);
    SameTasks(m, n);
    SameQuiet(m, n);
    if n.own == Some(gen) { SameKnowledge(m, n, js); }
  }

  /** A step that changes only what a process holds. */
  lemma HoldStep(w: World, n: World, p: InstanceId, hold: Option<Hold>)
    requires WorldOk(w) && p in w.procs && n == Put1(w.(lock := n.lock), p, w.procs[p].(hold := hold))
    requires n.lock == w.lock || ((n.lock.None? || n.lock == Some(p)) && (w.lock.None? || w.lock == Some(p)))
    requires HoldOk(p, w.procs[p].(hold := hold), Gen(w), w.grantee, w.journals, n.lock, w.root)
    requires !Awaiting(w.procs[p]) && (hold.Some? ==> hold.value.stage != Written)
    ensures WorldOk(n)
  {
    assert Sound(w, p);
    HeldProc(p, w.procs[p], hold, Gen(w), w.grantee, w.journals, w.lock, w.root);
    ProcStep(w, n, p, w.procs[p].(hold := hold));
  }

  lemma SameWork(m: Process, n: Process, h: Hold, h': Hold, root: ActorId)
    requires WorkOk(m, h, root) && n == m.(hold := n.hold) && h'.work == h.work && h'.seen == h.seen
    requires h.work.Claim? ==> h'.stage == Locked
    ensures WorkOk(n, h', root)
  {
    SameLive(m, n);
  }

  lemma TakenWork(w: World, p: InstanceId, work: Work, h: Hold)
    requires WorldOk(w) && Can(w, Take(p, work)) && Careful(w, Take(p, work))
    requires h == Do(w, Take(p, work)).procs[p].hold.value
    ensures var n := w.procs[p].(hold := Some(h)); WorkOk(n, h, w.root) && (h.generation == Gen(w) ==> WriterOk(n, work, w.journals))
  {
    assert Sound(w, p);
    var m := w.procs[p];
    SameLive(m, m.(hold := Some(h)));
    if work.EngineAppend? && h.generation == Gen(w) { assert DrainOk(m, work.task, LogOf(w.journals, work.actor)); }
  }

  lemma TakeMove(w: World, p: InstanceId, work: Work)
    requires WorldOk(w) && Can(w, Take(p, work)) && Careful(w, Take(p, work))
    ensures WorldOk(Do(w, Take(p, work)))
  {
    var n := Do(w, Take(p, work));
    var h := n.procs[p].hold.value;
    assert Sound(w, p);
    TakenWork(w, p, work, h);
    HoldStep(w, n, p, Some(h));
  }

  lemma BeginMove(w: World, p: InstanceId)
    requires WorldOk(w) && Can(w, BeginTxn(p))
    ensures WorldOk(Do(w, BeginTxn(p)))
  {
    var n := Do(w, BeginTxn(p));
    assert Sound(w, p);
    SameWork(w.procs[p], n.procs[p], w.procs[p].hold.value, n.procs[p].hold.value, w.root);
    HoldStep(w, n, p, n.procs[p].hold);
  }

  lemma CheckMove(w: World, p: InstanceId)
    requires WorldOk(w) && Can(w, CheckTxn(p))
    ensures WorldOk(Do(w, CheckTxn(p)))
  {
    var n := Do(w, CheckTxn(p));
    assert Sound(w, p);
    SameWork(w.procs[p], n.procs[p], w.procs[p].hold.value, n.procs[p].hold.value, w.root);
    HoldStep(w, n, p, n.procs[p].hold);
  }

  lemma DropMove(w: World, p: InstanceId)
    requires WorldOk(w) && Can(w, Drop(p))
    ensures WorldOk(Do(w, Drop(p)))
  {
    assert Sound(w, p);
    HoldStep(w, Do(w, Drop(p)), p, None);
  }

  /** The body is done, and the process's memory is `n`. */
  lemma Freed(w: World, p: InstanceId, n: Process)
    requires WorldOk(w) && (At(w, p, Locked) || At(w, p, Written))
    requires n.hold.None? && n.own == w.procs[p].own && Resting(n) && TasksOk(n)
    requires n.own == Some(Gen(w)) ==> DrainsOk(n, w.journals)
    ensures WorldOk(Put1(w, p, n))
  {
    assert Sound(w, p);
    ProcStep(w, Put1(w, p, n), p, n);
  }

  lemma FreedMemory(m: Process)
    requires TasksOk(m) && Resting(m)
    ensures var free := m.(hold := None); TasksOk(free) && Resting(free)
  {
    SameTasks(m, m.(hold := None));
    SameQuiet(m, m.(hold := None));
  }

  lemma ClaimTasks(m: Process, k: TaskId, t: TurnId, seen: Log)
    requires TasksOk(m) && k in m.tasks && m.tasks[k].phase == Preparing(t) && !m.tasks[k].cancelled
    requires t in Ids(Pending(seen))
    requires forall l :: l in m.tasks && m.tasks[l].cancelled && m.tasks[l].actor == m.tasks[k].actor ==> Current(m.tasks[l]) != Some(t)
    ensures TasksOk(Claim1(m, k, t, seen))
    ensures forall l :: LiveTask(Claim1(m, k, t, seen), l) ==> l == k || (LiveTask(m, l) && m.tasks[l].actor != m.tasks[k].actor)
  {
    var n, a := Claim1(m, k, t, seen), m.tasks[k].actor;
    assert TaskOk(m, k);
    assert forall b :: b != a ==> Generation(n, b) == Generation(m, b);
    forall l | LiveTask(n, l) ensures l == k || (LiveTask(m, l) && m.tasks[l].actor != a) {
      assert TaskOk(m, l);
    }
    forall b | b in n.active ensures SlotOk(n, b) { assert SlotOk(m, b); }
    forall l | l in n.tasks ensures TaskOk(n, l) { assert TaskOk(m, l); }
    forall x, l | x in n.tasks && n.tasks[x].cancelled && LiveTask(n, l) && n.tasks[x].actor == n.tasks[l].actor
      ensures Current(n.tasks[x]) != Some(n.tasks[l].phase.turn)
    {
      assert x != k && m.tasks[x] == n.tasks[x];
    }
  }

  ghost predicate ClaimCareful(m: Process, k: TaskId, t: TurnId, seen: Log)
    requires k in m.tasks
  {
    t in Ids(Pending(seen)) ==>
      forall l :: l in m.tasks && m.tasks[l].cancelled && m.tasks[l].actor == m.tasks[k].actor ==> Current(m.tasks[l]) != Some(t)
  }

  /** The claiming process's memory after its claim, successful or not. */
  lemma ClaimMemory(m: Process, k: TaskId, t: TurnId, seen: Log)
    requires TasksOk(m) && k in m.tasks && m.tasks[k].phase == Preparing(t) && !m.tasks[k].cancelled && ClaimCareful(m, k, t, seen)
    ensures TasksOk(Claim1(m, k, t, seen))
    ensures forall l :: LiveTask(Claim1(m, k, t, seen), l) ==>
      (l == k && t in Ids(Pending(seen))) || (LiveTask(m, l) && l != k)
  {
    if t in Ids(Pending(seen)) { ClaimTasks(m, k, t, seen); } else { SetPhaseOk(m, k, Looping); }
  }

  lemma ClaimKnows(m: Process, k: TaskId, t: TurnId, seen: Log, js: Journals)
    requires TasksOk(m) && k in m.tasks && m.tasks[k].phase == Preparing(t) && !m.tasks[k].cancelled && ClaimCareful(m, k, t, seen)
    requires seen == LogOf(js, m.tasks[k].actor) && DrainsOk(m, js)
    ensures DrainsOk(Claim1(m, k, t, seen), js)
  {
    var n := Claim1(m, k, t, seen);
    ClaimMemory(m, k, t, seen);
    forall l | l in n.tasks ensures DrainOk(n, l, LogOf(js, n.tasks[l].actor)) {
      assert DrainOk(m, l, LogOf(js, m.tasks[l].actor));
      if l == k && t in Ids(Pending(seen)) { PendingIsFresh(seen, t); }
    }
  }

  lemma SettleClaim(w: World, p: InstanceId)
    requires WorldOk(w) && Can(w, Settle(p)) && Careful(w, Settle(p)) && w.procs[p].hold.value.work.Claim?
    ensures WorldOk(Do(w, Settle(p)))
  {
    var m := w.procs[p];
    var h := m.hold.value;
    var free := m.(hold := None);
    var seen := LogOf(h.seen, h.work.actor);
    assert Sound(w, p);
    NotClosing(m, h.work.task);
    FreedMemory(m);
    ClaimMemory(free, h.work.task, h.work.turn, seen);
    if m.own == Some(Gen(w)) {
      SameKnowledge(m, free, w.journals);
      ClaimKnows(free, h.work.task, h.work.turn, seen, w.journals);
    }
    Freed(w, p, Claim1(free, h.work.task, h.work.turn, seen));
  }

  lemma PendingIsFresh(j: Log, t: TurnId)
    requires t in Ids(Pending(j))
    ensures Started(t) !in j && Ended(t) !in j
  {
    var i :| 0 <= i < |Pending(j)| && Ids(Pending(j))[i] == t;
    assert Pending(j)[i] in Pending(j);
  }

  /** A drain leaves an interrupt body. */
  lemma AfterInterruptTasks(m: Process, k: TaskId)
    requires TasksOk(m) && k in m.tasks && (m.tasks[k].phase.Unwinding? || m.tasks[k].phase.Interrupting?)
    ensures var n := AfterInterrupt(m, k); TasksOk(n) && OnlyDrain(m, n, k) && !n.tasks[k].phase.Preparing?
    ensures forall l :: LiveTask(AfterInterrupt(m, k), l) ==> LiveTask(m, l) && l != k
  {
    if !m.tasks[k].phase.Interrupting? { ExitOk(m, k); }
    else if m.tasks[k].cancelled { }
    else { SetPhaseOk(m, k, Looping); }
  }

  /** What a process knows survives a drain that is done. */
  lemma FewerDrains(m: Process, n: Process, k: TaskId, js: Journals)
    requires OnlyDrain(m, n, k) && !n.tasks[k].phase.Preparing?
    requires forall l :: l in m.tasks && l != k ==> DrainOk(m, l, LogOf(js, m.tasks[l].actor))
    requires forall l :: LiveTask(n, l) ==> LiveTask(m, l) && l != k
    ensures DrainsOk(n, js)
  {
    forall l | l in n.tasks ensures DrainOk(n, l, LogOf(js, n.tasks[l].actor)) {
      if l != k { assert DrainOk(m, l, LogOf(js, m.tasks[l].actor)); }
    }
  }

  lemma InterruptedMemory(m: Process, k: TaskId, js: Journals, known: bool)
    requires TasksOk(m) && Resting(m) && k in m.tasks && (known ==> DrainsOk(m, js))
    requires m.tasks[k].phase.Unwinding? || m.tasks[k].phase.Interrupting?
    ensures var n := AfterInterrupt(m, k);
            n.hold == m.hold && n.own == m.own && TasksOk(n) && Resting(n) && (known ==> DrainsOk(n, js))
  {
    var n := AfterInterrupt(m, k);
    AfterInterruptTasks(m, k);
    StillResting(m, n);
    if known { FewerDrains(m, n, k, js); }
  }

  lemma SettledMemory(m: Process, k: TaskId, js: Journals, known: bool)
    requires TasksOk(m) && Resting(m) && k in m.tasks && (known ==> DrainsOk(m, js))
    requires m.tasks[k].phase.Unwinding? || m.tasks[k].phase.Interrupting?
    ensures var n := AfterInterrupt(m.(hold := None), k);
            n.hold.None? && n.own == m.own && TasksOk(n) && Resting(n) && (known ==> DrainsOk(n, js))
  {
    FreedMemory(m);
    if known { SameKnowledge(m, m.(hold := None), js); }
    InterruptedMemory(m.(hold := None), k, js, known);
  }

  lemma SettleInterrupt(w: World, p: InstanceId)
    requires WorldOk(w) && Can(w, Settle(p)) && w.procs[p].hold.value.work.Interrupt?
    ensures WorldOk(Do(w, Settle(p)))
  {
    var m, k := w.procs[p], w.procs[p].hold.value.work.task;
    assert Sound(w, p);
    SettledMemory(m, k, w.journals, m.own == Some(Gen(w)));
    Freed(w, p, AfterInterrupt(m.(hold := None), k));
  }

  /* ---- commits ---- */

  /** What a body of a process that holds the lock appends keeps every journal well formed. */
  lemma AppendsWellFormed(m: Process, h: Hold, js: Journals, root: ActorId, a: ActorId)
    requires WorkOk(m, h, root) && WriterOk(m, h.work, js) && AllWellFormed(js)
    ensures WellFormed(LogOf(js, a) + Appends(h.work, js, root, a))
  {
    var j := LogOf(js, a);
    assert WellFormed(j);
    match h.work
    case EngineAppend(b, k, es) =>
      if a == b { EngineAppendsWellFormed(m.tasks[k].phase, es, j); } else { assert j + [] == j; }
    case Interrupt(b, _, t) =>
      if a == b && Incomplete(LogOf(js, b)) == Some(t) { AppendEnds(j, [t]); assert Ends([t]) == [Ended(t)]; }
      else { assert j + [] == j; }
    case Claim(_, _, _) => assert j + [] == j;
    case Recover => RecoveryAppends(js, root, a);
    case Shut => OpenEnds(j);
    case Cancel(c, r, d) => CancelAppendsWellFormed(js, root, c, r, d, a);
    case CancelActors(s) =>
      if a in s { LiveEnds(j); } else { assert j + [] == j; }
    case Enqueue(b, e) =>
      if a == b && e.Queued? && !HasInput(LogOf(js, b), e.id) { AppendQueued(j, e); } else { assert j + [] == j; }
  }

  lemma EngineAppendsWellFormed(phase: Phase, es: Log, j: Log)
    requires phase.Engine? && phase.stage != Over && EntriesFit(phase, es) && WellFormed(j) && StageOk(phase.stage, phase.turn, j)
    ensures WellFormed(j + es)
  {
    var t := phase.turn;
    if es == [Started(t)] { AppendStarted(j, t); }
    else if es == [Ended(t)] { AppendEnds(j, [t]); assert Ends([t]) == es; }
    else { AppendOutput(j, t, es); }
  }

  lemma OpenEnds(j: Log)
    requires WellFormed(j)
    ensures WellFormed(j + OpenEnd(j))
  {
    if Incomplete(j).Some? { AppendEnds(j, [Incomplete(j).value]); assert Ends([Incomplete(j).value]) == OpenEnd(j); }
    else { assert j + [] == j; }
  }

  lemma LiveEnds(j: Log)
    requires WellFormed(j)
    ensures WellFormed(j + Ends(TargetsOf(j, Anything)))
  {
    TargetsProperties(j, Anything);
    forall t | t in TargetsOf(j, Anything) ensures Ended(t) !in j { LiveNotEnded(j, t); }
    AppendEnds(j, TargetsOf(j, Anything));
  }

  lemma RecoveryAppends(js: Journals, root: ActorId, a: ActorId)
    requires AllWellFormed(js)
    ensures WellFormed(LogOf(js, a) + Appends(Recover, js, root, a))
  {
    var j := LogOf(js, a);
    if a in js {
      RecoveryEndsProperties(js, root, a);
      forall t | t in RecoveryEnds(js, root, a) ensures Ended(t) !in j { LiveNotEnded(j, t); }
      AppendEnds(j, RecoveryEnds(js, root, a));
    } else { assert j + [] == j; }
  }

  /** A cancellation record, or nothing, then the ends of distinct live turns. */
  lemma NoteThenEnds(j: Log, note: Log, ts: seq<TurnId>)
    requires WellFormed(j) && Distinct(ts) && forall t :: t in ts ==> IsLive(j, t)
    requires note == [] || (|note| == 1 && note[0].CancelRequested?
                            && forall a :: a in note[0].targets ==> Distinct(note[0].targets[a]))
    ensures WellFormed(j + (note + Ends(ts)))
  {
    if note == [] { assert j + note == j; } else { AppendCancel(j, note[0]); assert note == [note[0]]; }
    assert j + (note + Ends(ts)) == (j + note) + Ends(ts);
    NotedEnds(j, note, ts);
  }

  lemma NotedEnds(j: Log, note: Log, ts: seq<TurnId>)
    requires WellFormed(j + note) && Distinct(ts) && forall t :: t in ts ==> IsLive(j, t)
    requires forall e :: e in note ==> e.CancelRequested?
    ensures WellFormed((j + note) + Ends(ts))
  {
    forall t | t in ts ensures Ended(t) !in j + note { LiveNotEnded(j, t); }
    AppendEnds(j + note, ts);
  }

  lemma CancelAppendsWellFormed(js: Journals, root: ActorId, c: TurnId, r: Option<string>, d: bool, a: ActorId)
    requires AllWellFormed(js)
    ensures WellFormed(LogOf(js, a) + CancelAppends(js, root, c, r, d, a))
  {
    var j := LogOf(js, a);
    assert WellFormed(j);
    var targets := CancelTargets(js, root, c, r, d);
    CancelTargetsDistinct(js, root, c, r, d);
    if targets.None? {
      assert j + [] == j;
    } else {
      var note := if a == root && Recorded(LogOf(js, root), c).None? then [CancelRequested(c, targets.value, r, d)] else [];
      var ts := if a in targets.value then LiveOf(j, targets.value[a]) else [];
      if a in targets.value { LiveOfDistinct(j, targets.value[a]); }
      NoteThenEnds(j, note, ts);
      assert CancelAppends(js, root, c, r, d, a) == note + Ends(ts);
    }
  }

  /** What a commit appends to the journal of an actor, and that it reaches no other. */
  lemma ApplyLog(work: Work, js: Journals, root: ActorId, a: ActorId)
    ensures LogOf(ApplyTo(work, js, root, js), a) == LogOf(js, a) + Appends(work, js, root, a)
  {
    if a !in Touched(work, js, root) {
      assert Appends(work, js, root, a) == [];
    }
  }

  predicate StartsNothing(es: Log) {
    forall e :: e in es ==> !e.Started? && !e.Output?
  }

  /** No body but the engine's starts a turn. */
  lemma NoStarts(work: Work, js: Journals, root: ActorId, a: ActorId)
    requires !work.EngineAppend? && (work.Enqueue? ==> work.entry.Queued?)
    ensures StartsNothing(Appends(work, js, root, a))
  {
  }

  /** A turn's stage survives appends that start nothing and do not end it. */
  lemma StageAppend(stage: Stage, t: TurnId, j: Log, es: Log)
    requires StageOk(stage, t, j) && StartsNothing(es) && (stage == Over || Ended(t) !in es)
    ensures StageOk(stage, t, j + es)
  {
    assert forall u :: Started(u) in j + es <==> Started(u) in j;
    assert forall u :: Ended(u) in j + es <==> Ended(u) in j || Ended(u) in es;
  }

  lemma RestAppend(j: Log, es: Log)
    requires AllEnded(j) && StartsNothing(es)
    ensures AllEnded(j + es)
  {
    assert forall u :: Started(u) in j + es <==> Started(u) in j;
    assert forall u :: Ended(u) in j + es <==> Ended(u) in j || Ended(u) in es;
  }

  /** So does what a drain knows. */
  lemma DrainAppend(m: Process, k: TaskId, j: Log, es: Log)
    requires k in m.tasks && DrainOk(m, k, j) && StartsNothing(es)
    requires LiveTask(m, k) ==> m.tasks[k].phase.stage == Over || Ended(m.tasks[k].phase.turn) !in es
    ensures DrainOk(m, k, j + es)
  {
    if LiveTask(m, k) { StageAppend(m.tasks[k].phase.stage, m.tasks[k].phase.turn, j, es); }
    if m.tasks[k].phase.Preparing? && !m.tasks[k].cancelled { RestAppend(j, es); }
  }

  /** The engine's own append brings its journal to the next stage. */
  lemma StageMoves(phase: Phase, j: Log, es: Log)
    requires phase.Engine? && phase.stage != Over && EntriesFit(phase, es) && WellFormed(j) && StageOk(phase.stage, phase.turn, j)
    ensures StageOk(NextStage(es), phase.turn, j + es)
  {
    var t := phase.turn;
    if es == [Started(t)] { AppendStarted(j, t); }
    else if es != [Ended(t)] {
      assert es[|es| - 1] in es;
      AppendOutput(j, t, es);
    }
  }

  /** While an engine is live, no other drain of its actor is live or about to claim. */
  lemma OneEngine(m: Process, k: TaskId, l: TaskId)
    requires TasksOk(m) && LiveTask(m, k) && l in m.tasks && l != k && m.tasks[l].actor == m.tasks[k].actor
    ensures !LiveTask(m, l) && (m.tasks[l].phase.Preparing? ==> m.tasks[l].cancelled)
  {
    assert TaskOk(m, k) && TaskOk(m, l);
  }

  /** What a process knows of drain `l` once the body `work` is committed. */
  ghost predicate Follows(m: Process, work: Work, js: Journals, root: ActorId, l: TaskId)
    requires l in m.tasks
  {
    AwaitingOk(m, work, js, root, l, LogOf(js, m.tasks[l].actor) + Appends(work, js, root, m.tasks[l].actor))
  }

  lemma EngineFollows(m: Process, work: Work, js: Journals, root: ActorId, l: TaskId)
    requires TasksOk(m) && work.EngineAppend? && LiveTask(m, work.task) && m.tasks[work.task].actor == work.actor
    requires m.tasks[work.task].phase.stage != Over && EntriesFit(m.tasks[work.task].phase, work.entries)
    requires l in m.tasks && DrainOk(m, l, LogOf(js, m.tasks[l].actor)) && WellFormed(LogOf(js, m.tasks[l].actor))
    ensures Follows(m, work, js, root, l)
  {
    var j := LogOf(js, m.tasks[l].actor);
    if l == work.task { StageMoves(m.tasks[l].phase, j, work.entries); }
    else if m.tasks[l].actor == work.actor { OneEngine(m, work.task, l); }
    else { assert j + [] == j; }
  }

  /** An interrupt ends no live turn: its drain is aborted, or has the actor's slot. */
  lemma InterruptSpares(m: Process, work: Work, js: Journals, root: ActorId, l: TaskId)
    requires TasksOk(m) && work.Interrupt? && LiveTask(m, l) && work.task in m.tasks && m.tasks[work.task].actor == work.actor
    requires m.tasks[work.task].phase == Unwinding(work.turn)
             || (m.tasks[work.task].phase == Interrupting(work.turn) && !m.tasks[work.task].cancelled)
    ensures Ended(m.tasks[l].phase.turn) !in Appends(work, js, root, m.tasks[l].actor)
  {
    assert TaskOk(m, work.task) && TaskOk(m, l);
  }

  /** Nor do recovery, accepted inputs, and the last ends of a closing process. */
  lemma QuietSpares(m: Process, work: Work, js: Journals, root: ActorId, l: TaskId)
    requires LiveTask(m, l) && ((work.Recover? && RecoverySpares(m, js, root)) || (work.Enqueue? && work.entry.Queued?))
    ensures Ended(m.tasks[l].phase.turn) !in Appends(work, js, root, m.tasks[l].actor)
  {
    if work.Recover? { EndsMember(RecoveryEnds(js, root, m.tasks[l].actor), m.tasks[l].phase.turn); }
  }

  lemma SparedFollows(m: Process, work: Work, js: Journals, root: ActorId, l: TaskId)
    requires !work.EngineAppend? && (work.Enqueue? ==> work.entry.Queued?) && l in m.tasks && DrainOk(m, l, LogOf(js, m.tasks[l].actor))
    requires LiveTask(m, l) ==> Ended(m.tasks[l].phase.turn) !in Appends(work, js, root, m.tasks[l].actor)
    ensures Follows(m, work, js, root, l)
  {
    NoStarts(work, js, root, m.tasks[l].actor);
    DrainAppend(m, l, LogOf(js, m.tasks[l].actor), Appends(work, js, root, m.tasks[l].actor));
  }

  lemma CancelFollows(m: Process, work: Work, js: Journals, root: ActorId, l: TaskId)
    requires Cancels(work) && l in m.tasks && DrainOk(m, l, LogOf(js, m.tasks[l].actor))
    ensures Follows(m, work, js, root, l)
  {
    if LiveTask(m, l) && Doomed(m, l, work, js, root) { CancelledIsOpen(m, work, js, root, l); }
    else { SparedFollows(m, work, js, root, l); }
  }

  lemma DrainFollows(m: Process, h: Hold, js: Journals, root: ActorId, l: TaskId)
    requires TasksOk(m) && WorkOk(m, h, root) && h.seen == js && !m.closing && !h.work.Claim? && l in m.tasks
    requires DrainOk(m, l, LogOf(js, m.tasks[l].actor)) && WellFormed(LogOf(js, m.tasks[l].actor))
    ensures Follows(m, h.work, js, root, l)
  {
    if h.work.EngineAppend? { EngineFollows(m, h.work, js, root, l); }
    else if Cancels(h.work) { CancelFollows(m, h.work, js, root, l); }
    else {
      if LiveTask(m, l) {
        if h.work.Interrupt? { InterruptSpares(m, h.work, js, root, l); } else { QuietSpares(m, h.work, js, root, l); }
      }
      SparedFollows(m, h.work, js, root, l);
    }
  }

  /** What a process knows once its body has committed. */
  lemma CommittedKnows(m: Process, h: Hold, js: Journals, root: ActorId)
    requires TasksOk(m) && Resting(m) && WorkOk(m, h, root) && h.seen == js && !h.work.Claim? && DrainsOk(m, js) && AllWellFormed(js)
    ensures AwaitingsOk(m, h.work, js, root, ApplyTo(h.work, js, root, js))
  {
    forall l | l in m.tasks ensures AwaitingOk(m, h.work, js, root, l, LogOf(ApplyTo(h.work, js, root, js), m.tasks[l].actor)) {
      ApplyLog(h.work, js, root, m.tasks[l].actor);
      assert DrainOk(m, l, LogOf(js, m.tasks[l].actor)) && WellFormed(LogOf(js, m.tasks[l].actor));
      if !m.closing { DrainFollows(m, h, js, root, l); }
    }
  }

  lemma CommittedProc(p: InstanceId, m: Process, gen: nat, grantee: Option<InstanceId>, js: Journals, root: ActorId)
    requires ProcOk(p, m, gen, grantee, js, Some(p), root) && m.hold.Some? && m.hold.value.stage == Checked && AllWellFormed(js)
    ensures ProcOk(p, SetStage(m, Written), gen, grantee, ApplyTo(m.hold.value.work, m.hold.value.seen, root, js), None, root)
  {
    var n, h := SetStage(m, Written), m.hold.value;
    SameTasks(m, n);
    SameQuiet(m, n);
    SameWork(m, n, h, n.hold.value, root);
    if m.own == Some(gen) {
      SameKnowledge(m, n, js);
      CommittedKnows(n, n.hold.value, js, root);
    }
  }

  /** The row's grantee commits; the process lock is not yet free. */
  lemma CommitMove(w: World, p: InstanceId)
    requires WorldOk(w) && Can(w, CommitTxn(p))
    ensures WorldOk(Do(w, CommitTxn(p)))
  {
    var n, m := Do(w, CommitTxn(p)), w.procs[p];
    assert Sound(w, p);
    CommittedProc(p, m, Gen(w), w.grantee, w.journals, w.root);
    CommittedJournals(m, m.hold.value, w.journals, w.root);
    Others(w, n, p);
  }

  lemma CommittedJournals(m: Process, h: Hold, js: Journals, root: ActorId)
    requires WorkOk(m, h, root) && WriterOk(m, h.work, js) && AllWellFormed(js)
    ensures AllWellFormed(ApplyTo(h.work, js, root, js))
  {
    var n := ApplyTo(h.work, js, root, js);
    forall a | a in n ensures WellFormed(n[a]) {
      AppendsWellFormed(m, h, js, root, a);
      ApplyLog(h.work, js, root, a);
    }
  }

  lemma EndsMember(ts: seq<TurnId>, t: TurnId)
    ensures Ended(t) in Ends(ts) <==> t in ts
  {
    EndedAfter([], ts, t);
    assert [] + Ends(ts) == Ends(ts);
  }

  lemma CancelEndsTargets(js: Journals, root: ActorId, c: TurnId, r: Option<string>, d: bool, a: ActorId, t: TurnId)
    requires Ended(t) in CancelAppends(js, root, c, r, d, a)
    ensures var targets := CancelTargets(js, root, c, r, d); targets.Some? && a in targets.value && t in targets.value[a]
  {
    var targets := CancelTargets(js, root, c, r, d);
    if targets.Some? && a in targets.value { EndsMember(LiveOf(LogOf(js, a), targets.value[a]), t); }
  }

  /** Only targeted turns are ended. */
  lemma EndsAreTargets(work: Work, js: Journals, root: ActorId, a: ActorId, t: TurnId)
    requires (work.Cancel? || work.CancelActors?) && Ended(t) in Appends(work, js, root, a)
    ensures var targets := StopTargets(work, js, root); a in targets && t in targets[a]
  {
    if work.Cancel? { CancelEndsTargets(js, root, work.command, work.requestedBy, work.descendants, a, t); }
    else { EndsMember(TargetsOf(LogOf(js, a), Anything), t); }
  }

  /** A turn that a cancel ends had not ended. */
  lemma CancelledIsOpen(m: Process, work: Work, js: Journals, root: ActorId, k: TaskId)
    requires LiveTask(m, k) && DrainOk(m, k, LogOf(js, m.tasks[k].actor)) && Doomed(m, k, work, js, root)
    ensures m.tasks[k].phase.stage != Over
  {
    var a, t := m.tasks[k].actor, m.tasks[k].phase.turn;
    var j := LogOf(js, a);
    if work.Cancel? {
      CancelEndsTargets(js, root, work.command, work.requestedBy, work.descendants, a, t);
      var ts := CancelTargets(js, root, work.command, work.requestedBy, work.descendants).value[a];
      EndsMember(LiveOf(j, ts), t);
    } else {
      EndsMember(TargetsOf(j, Anything), t);
      TargetsAreLive(j, t);
    }
    LiveNotEnded(j, t);
  }

  lemma TargetsAreLive(j: Log, t: TurnId)
    requires t in TargetsOf(j, Anything)
    ensures IsLive(j, t)
  {
    var p := Chosen(Pending(j), Anything);
    if t in Ids(p) {
      var i :| 0 <= i < |p| && Ids(p)[i] == t;
      assert p[i] in p && p[i] in Pending(j);
      var k :| 0 <= k < |Pending(j)| && Pending(j)[k] == p[i];
      assert Ids(Pending(j))[k] == t;
    }
  }

  /* ---- the return of a committed body ---- */

  /** A cancel ends a drain's claimed turn only if it stops the drain. */
  lemma CancelStops(m: Process, work: Work, js: Journals, root: ActorId, k: TaskId)
    requires TasksOk(m) && LiveTask(m, k) && Doomed(m, k, work, js, root)
    ensures Stopped(m, StopTargets(work, js, root), m.tasks[k].actor)
  {
    assert TaskOk(m, k);
    EndsAreTargets(work, js, root, m.tasks[k].actor, m.tasks[k].phase.turn);
  }

  function StopSet(m: Process, targets: map<ActorId, seq<TurnId>>): set<ActorId> {
    set a | a in m.active && Stopped(m, targets, a)
  }

  /** Each active drain has its own actor's slot, so stopping some stops no other. */
  lemma StopsOne(m: Process, stop: set<ActorId>, a: ActorId)
    requires TasksOk(m) && stop <= m.active.Keys && a in m.active
    ensures m.active[a] in m.tasks
    ensures if a in stop then IsStopped(m, StopAll(m, stop), a) else GoesOn(m, StopAll(m, stop), a)
  {
    assert SlotOk(m, a);
    StopAllTask(m, stop, m.active[a]);
  }

  lemma StopsOnly(m: Process, stop: set<ActorId>)
    requires TasksOk(m) && stop <= m.active.Keys
    ensures OnlyStops(m, StopAll(m, stop))
  {
    var n := StopAll(m, stop);
    forall k | k in m.tasks && !IsActive(m, k) ensures n.tasks[k] == m.tasks[k] {
      StopAllTask(m, stop, k);
    }
  }

  /** A cancel stops the active drains of its target actors that have claimed a targeted turn or
      none, and touches nothing else. */
  lemma CancelIsExact(m: Process, targets: map<ActorId, seq<TurnId>>)
    requires TasksOk(m)
    ensures Slotted(m)
    ensures StopsTargets(m, CancelLocal(m, targets), targets)
  {
    var stop := StopSet(m, targets);
    StopsOnly(m, stop);
    forall a | a in m.active
      ensures m.active[a] in m.tasks
      ensures if Concerns(m, targets, a) then IsStopped(m, CancelLocal(m, targets), a) else GoesOn(m, CancelLocal(m, targets), a)
    {
      StopsOne(m, stop, a);
    }
  }

  lemma EveryIsStopped(m: Process)
    requires TasksOk(m)
    ensures Slotted(m)
    ensures StopsEvery(m, StopAll(m, m.active.Keys))
  {
    StopsOnly(m, m.active.Keys);
    forall a | a in m.active
      ensures m.active[a] in m.tasks && IsStopped(m, StopAll(m, m.active.Keys), a)
    {
      StopsOne(m, m.active.Keys, a);
    }
  }

  /** The effect of a cancel reaches every drain whose turn its commit ended. */
  lemma CancelReturns(m: Process, work: Work, seen: Journals, root: ActorId, js: Journals, known: bool)
    requires TasksOk(m) && Resting(m) && Cancels(work) && (known ==> AwaitingsOk(m, work, seen, root, js))
    ensures var n := CancelLocal(m, StopTargets(work, seen, root));
            TasksOk(n) && Resting(n) && (known ==> DrainsOk(n, js))
  {
    var stop := StopSet(m, StopTargets(work, seen, root));
    var n := StopAll(m, stop);
    StopAllOk(m, stop);
    StillResting(m, n);
    if known {
      forall l | l in n.tasks ensures DrainOk(n, l, LogOf(js, n.tasks[l].actor)) {
        CancelledDrain(m, work, seen, root, LogOf(js, m.tasks[l].actor), l, stop);
      }
    }
  }

  lemma CancelledDrain(m: Process, work: Work, seen: Journals, root: ActorId, j: Log, l: TaskId, stop: set<ActorId>)
    requires TasksOk(m) && Cancels(work) && l in m.tasks && AwaitingOk(m, work, seen, root, l, j)
    requires stop == StopSet(m, StopTargets(work, seen, root))
    ensures l in StopAll(m, stop).tasks && DrainOk(StopAll(m, stop), l, j)
  {
    StopAllTask(m, stop, l);
    if LiveTask(m, l) && Doomed(m, l, work, seen, root) { CancelStops(m, work, seen, root, l); }
  }

  /** The engine's drain moves on with its journal. */
  lemma EngineReturns(m: Process, work: Work, seen: Journals, root: ActorId, js: Journals, known: bool)
    requires TasksOk(m) && Resting(m) && work.EngineAppend? && work.entries != []
    requires work.task in m.tasks && m.tasks[work.task].phase.Engine? && (known ==> AwaitingsOk(m, work, seen, root, js))
    ensures var n := SetPhase(m, work.task, m.tasks[work.task].phase.(stage := NextStage(work.entries)));
            TasksOk(n) && Resting(n) && (known ==> DrainsOk(n, js))
  {
    var k := work.task;
    var n := SetPhase(m, k, m.tasks[k].phase.(stage := NextStage(work.entries)));
    EngineTasks(m, k, NextStage(work.entries));
    StillResting(m, n);
    if known {
      forall l | l in n.tasks ensures DrainOk(n, l, LogOf(js, n.tasks[l].actor)) {
        assert AwaitingOk(m, work, seen, root, l, LogOf(js, m.tasks[l].actor));
      }
    }
  }

  lemma EngineTasks(m: Process, k: TaskId, stage: Stage)
    requires TasksOk(m) && k in m.tasks && m.tasks[k].phase.Engine?
    ensures var n := SetPhase(m, k, m.tasks[k].phase.(stage := stage)); TasksOk(n) && forall l :: LiveTask(n, l) <==> LiveTask(m, l)
  {
    var n := SetPhase(m, k, m.tasks[k].phase.(stage := stage));
    forall l ensures LiveTask(n, l) <==> LiveTask(m, l) { }
    forall b | b in n.active ensures SlotOk(n, b) { assert SlotOk(m, b); }
    forall l | l in n.tasks ensures TaskOk(n, l) { assert TaskOk(m, l); }
    forall x, l | x in n.tasks && n.tasks[x].cancelled && LiveTask(n, l) && n.tasks[x].actor == n.tasks[l].actor
      ensures Current(n.tasks[x]) != Some(n.tasks[l].phase.turn)
    {
      assert m.tasks[x].cancelled && LiveTask(m, l) && Current(n.tasks[x]) == Current(m.tasks[x]);
    }
  }

  /** A body that is no engine's and no cancel leaves what its process knows as it was. */
  lemma OthersKnow(m: Process, work: Work, seen: Journals, root: ActorId, js: Journals)
    requires AwaitingsOk(m, work, seen, root, js) && !work.EngineAppend? && !Cancels(work)
    ensures DrainsOk(m, js)
  {
    forall l | l in m.tasks ensures DrainOk(m, l, LogOf(js, m.tasks[l].actor)) {
      assert AwaitingOk(m, work, seen, root, l, LogOf(js, m.tasks[l].actor));
    }
  }

  lemma SameAwaiting(m: Process, n: Process, work: Work, seen: Journals, root: ActorId, js: Journals)
    requires SameDrains(m, n) && AwaitingsOk(m, work, seen, root, js)
    ensures AwaitingsOk(n, work, seen, root, js)
  {
    forall l | l in n.tasks ensures AwaitingOk(n, work, seen, root, l, LogOf(js, n.tasks[l].actor)) {
      assert AwaitingOk(m, work, seen, root, l, LogOf(js, m.tasks[l].actor));
    }
  }

  /** The memory that a returning body leaves. */
  lemma ReturnedMemory(m: Process, h: Hold, js: Journals, root: ActorId, settled: bool, known: bool)
    requires TasksOk(m) && Resting(m) && WorkOk(m, h, root) && (known ==> AwaitingsOk(m, h.work, h.seen, root, js))
    ensures var n := Effect(m, h.work, h.seen, root, settled);
            n.hold == m.hold && n.own == m.own && TasksOk(n) && Resting(n) && (known ==> DrainsOk(n, js))
  {
    if h.work.EngineAppend? { EngineReturns(m, h.work, h.seen, root, js, known); }
    else if Cancels(h.work) { CancelReturns(m, h.work, h.seen, root, js, known); }
    else {
      if known { OthersKnow(m, h.work, h.seen, root, js); }
      if h.work.Interrupt? { InterruptedMemory(m, h.work.task, js, known); } else { QuietReturns(m, h, js, root, settled, known); }
    }
  }

  lemma QuietReturns(m: Process, h: Hold, js: Journals, root: ActorId, settled: bool, known: bool)
    requires TasksOk(m) && Resting(m) && (known ==> DrainsOk(m, js)) && !h.work.EngineAppend? && !h.work.Interrupt? && !Cancels(h.work)
    ensures var n := Effect(m, h.work, h.seen, root, settled);
            n.hold == m.hold && n.own == m.own && TasksOk(n) && Resting(n) && (known ==> DrainsOk(n, js))
  {
    var n := Effect(m, h.work, h.seen, root, settled);
    SameTasks(m, n);
    SameQuiet(m, n);
    if known { SameKnowledge(m, n, js); }
  }

  /** What a process whose body has committed knows, without the body. */
  lemma WrittenMemory(w: World, p: InstanceId)
    requires WorldOk(w) && At(w, p, Written)
    ensures var m, h := w.procs[p].(hold := None), w.procs[p].hold.value;
            TasksOk(m) && Resting(m) && WorkOk(m, h, w.root)
            && (m.own == Some(Gen(w)) ==> AwaitingsOk(m, h.work, h.seen, w.root, w.journals))
  {
    var m, h := w.procs[p], w.procs[p].hold.value;
    assert Sound(w, p);
    FreedMemory(m);
    SameWork(m, m.(hold := None), h, h, w.root);
    if m.own == Some(Gen(w)) { SameAwaiting(m, m.(hold := None), h.work, h.seen, w.root, w.journals); }
  }

  /** A committed body returns and takes effect on the process's memory. */
  lemma ReturnMove(w: World, p: InstanceId, settled: bool)
    requires WorldOk(w) && Can(w, Return(p, settled))
    ensures WorldOk(Do(w, Return(p, settled)))
  {
    var m, h := w.procs[p].(hold := None), w.procs[p].hold.value;
    WrittenMemory(w, p);
    ReturnedMemory(m, h, w.journals, w.root, settled, m.own == Some(Gen(w)));
    Freed(w, p, Effect(m, h.work, h.seen, w.root, settled));
  }

  /* ---- commits whose acknowledgement is lost ---- */

  lemma LastOutput(phase: Phase, es: Log)
    requires phase.Engine? && EntriesFit(phase, es) && es != [] && es[|es| - 1].Output?
    ensures phase.stage == Running == NextStage(es)
  {
    assert es[|es| - 1] in es;
  }

  /** An output that was recorded after all is an output of a running turn. */
  lemma LostOutput(m: Process, work: Work, seen: Journals, root: ActorId, js: Journals)
    requires work.EngineAppend? && work.task in m.tasks && m.tasks[work.task].phase.Engine? && EntriesFit(m.tasks[work.task].phase, work.entries)
    requires work.entries != [] && work.entries[|work.entries| - 1].Output? && AwaitingsOk(m, work, seen, root, js)
    ensures DrainsOk(m, js)
  {
    LastOutput(m.tasks[work.task].phase, work.entries);
    forall l | l in m.tasks ensures DrainOk(m, l, LogOf(js, m.tasks[l].actor)) {
      assert AwaitingOk(m, work, seen, root, l, LogOf(js, m.tasks[l].actor));
    }
  }

  lemma FailedTasks(m: Process, k: TaskId)
    requires TasksOk(m) && k in m.tasks
    ensures var n := Failed(m, k); TasksOk(n) && OnlyDrain(m, n, k)
    ensures forall l :: LiveTask(Failed(m, k), l) ==> LiveTask(m, l) && l != k
  {
    assert TaskOk(m, k);
    if Failed(m, k) != m { ExitOk(m, k); }
  }

  /** The drain `k` fails, or is still to unwind; the other drains are as the process knows them. */
  lemma FailedMemory(m: Process, k: TaskId, js: Journals, known: bool)
    requires TasksOk(m) && Resting(m) && k in m.tasks && !m.tasks[k].phase.Preparing?
    requires known ==> forall l :: l in m.tasks && l != k ==> DrainOk(m, l, LogOf(js, m.tasks[l].actor))
    ensures var n := Failed(m, k); n.hold == m.hold && n.own == m.own && TasksOk(n) && Resting(n) && (known ==> DrainsOk(n, js))
  {
    FailedTasks(m, k);
    StillResting(m, Failed(m, k));
    if known { FewerDrains(m, Failed(m, k), k, js); }
  }

  lemma LostBoundary(m: Process, work: Work, seen: Journals, root: ActorId, js: Journals, known: bool)
    requires TasksOk(m) && Resting(m) && work.EngineAppend? && work.task in m.tasks && m.tasks[work.task].phase.Engine?
    requires known ==> AwaitingsOk(m, work, seen, root, js)
    ensures var n := Failed(m, work.task); n.hold == m.hold && n.own == m.own && TasksOk(n) && Resting(n) && (known ==> DrainsOk(n, js))
  {
    if known {
      forall l | l in m.tasks && l != work.task ensures DrainOk(m, l, LogOf(js, m.tasks[l].actor)) {
        assert AwaitingOk(m, work, seen, root, l, LogOf(js, m.tasks[l].actor));
      }
    }
    FailedMemory(m, work.task, js, known);
  }

  lemma LostCancel(m: Process, work: Work, seen: Journals, root: ActorId, js: Journals)
    requires Cancels(work) && CancelSpares(m, work, seen, root) && AwaitingsOk(m, work, seen, root, js)
    ensures DrainsOk(m, js)
  {
    forall l | l in m.tasks ensures DrainOk(m, l, LogOf(js, m.tasks[l].actor)) {
      assert AwaitingOk(m, work, seen, root, l, LogOf(js, m.tasks[l].actor));
    }
  }

  lemma LostMemory(m: Process, h: Hold, js: Journals, root: ActorId, known: bool)
    requires TasksOk(m) && Resting(m) && WorkOk(m, h, root) && (known ==> AwaitingsOk(m, h.work, h.seen, root, js))
    requires Cancels(h.work) ==> CancelSpares(m, h.work, h.seen, root)
    ensures var n := LostEffect(m, h.work);
            n.hold == m.hold && n.own == m.own && TasksOk(n) && Resting(n) && (known ==> DrainsOk(n, js))
  {
    if h.work.EngineAppend? {
      if h.work.entries[|h.work.entries| - 1].Output? {
        if known { LostOutput(m, h.work, h.seen, root, js); }
      } else { LostBoundary(m, h.work, h.seen, root, js, known); }
    } else if Cancels(h.work) {
      if known { LostCancel(m, h.work, h.seen, root, js); }
    } else {
      if known { OthersKnow(m, h.work, h.seen, root, js); }
      if h.work.Interrupt? { FailedMemory(m, h.work.task, js, known); }
    }
  }

  lemma SparesWithout(m: Process, work: Work, seen: Journals, root: ActorId)
    requires CancelSpares(m, work, seen, root)
    ensures CancelSpares(m.(hold := None), work, seen, root)
  {
    SameLive(m, m.(hold := None));
    forall k | LiveTask(m.(hold := None), k) ensures !Doomed(m.(hold := None), k, work, seen, root) {
      assert !Doomed(m, k, work, seen, root);
    }
  }

  /** A commit whose acknowledgement is lost keeps the invariant, cancels only with care. */
  lemma LostMove(w: World, p: InstanceId)
    requires WorldOk(w) && Can(w, Lost(p)) && Careful(w, Lost(p))
    ensures WorldOk(Do(w, Lost(p)))
  {
    var m, h := w.procs[p].(hold := None), w.procs[p].hold.value;
    WrittenMemory(w, p);
    if Cancels(h.work) { SparesWithout(w.procs[p], h.work, h.seen, w.root); }
    LostMemory(m, h, w.journals, w.root, m.own == Some(Gen(w)));
    Freed(w, p, LostEffect(m, h.work));
  }

  lemma TimeMove(w: World, move: Move)
    requires WorldOk(w) && Can(w, move) && (move.Tick? || move.Extend? || move.Join? || move.Crash?)
    ensures WorldOk(Do(w, move))
  {
    match move
    case Tick(_) => ClockMoves(w, move);
    case Extend(_, _) => ClockMoves(w, move);
    case Join(p) => JoinMove(w, p);
    case Crash(_) => CrashMove(w, move);
  }

  lemma LeaseMove(w: World, move: Move)
    requires WorldOk(w) && Can(w, move) && (move.Own? || move.LetGo? || move.Invalidate? || move.Close?)
    ensures WorldOk(Do(w, move))
  {
    if move.Own? { OwnMove(w, move.p, move.ttl); }
    else if move.LetGo? { LetGoMove(w, move.p); }
    else if move.Invalidate? { InvalidateMove(w, move.p); }
    else { CloseMove(w, move.p); }
  }

  lemma DrainMove(w: World, move: Move)
    requires WorldOk(w) && Can(w, move) && (move.Activate? || move.Observe? || move.Unwind? || move.Fail? || move.Continue?)
    ensures WorldOk(Do(w, move))
  {
    match move
    case Activate(p, a, k) => ActivateMove(w, p, a, k);
    case Observe(p, k) => ObserveMove(w, p, k);
    case Unwind(p, k) => UnwindMove(w, p, k);
    case Fail(p, k) => FailMove(w, p, k);
    case Continue(p, k) => ContinueMove(w, p, k);
  }

  lemma TxnMove(w: World, move: Move)
    requires WorldOk(w) && Can(w, move) && (move.BeginTxn? || move.CheckTxn? || move.Drop? || move.CommitTxn?)
    ensures WorldOk(Do(w, move))
  {
    match move
    case BeginTxn(p) => BeginMove(w, p);
    case CheckTxn(p) => CheckMove(w, p);
    case Drop(p) => DropMove(w, p);
    case CommitTxn(p) => CommitMove(w, p);
  }

  lemma SettleMove(w: World, p: InstanceId)
    requires WorldOk(w) && Can(w, Settle(p)) && Careful(w, Settle(p))
    ensures WorldOk(Do(w, Settle(p)))
  {
    if w.procs[p].hold.value.work.Claim? { SettleClaim(w, p); } else { SettleInterrupt(w, p); }
  }

  /** Every careful move keeps the invariant. */
  lemma MoveKeepsInvariant(w: World, move: Move)
    requires WorldOk(w) && Can(w, move) && Careful(w, move)
    ensures WorldOk(Do(w, move))
  {
    if move.Tick? || move.Extend? || move.Join? || move.Crash? { TimeMove(w, move); }
    else if move.Activate? || move.Observe? || move.Unwind? || move.Fail? || move.Continue? { DrainMove(w, move); }
    else if move.BeginTxn? || move.CheckTxn? || move.Drop? || move.CommitTxn? { TxnMove(w, move); }
    else if move.Return? { ReturnMove(w, move.p, move.settled); }
    else if move.Lost? { LostMove(w, move.p); }
    else if move.Take? { TakeMove(w, move.p, move.work); }
    else if move.Settle? { SettleMove(w, move.p); }
    else { LeaseMove(w, move); }
  }
}
