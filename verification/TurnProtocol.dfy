/** The turn protocol of a coordinated runtime over one root: processes with cached
    ownerships, per-actor turn generations and drain tasks write the root's journals
    through fenced transactions.  A body under the root's process lock is split into taking
    the lock, beginning its transaction, its last fence check, the commit, and the return to the
    process; other processes, the process's own drains, the clock, crashes, lease loss and closing
    interleave freely. */
module TurnProtocol {
  import opened Basics
  import opened Journal
  import opened Coordinator
  import opened Commands

  type TaskId = nat

  datatype Stage = Claimed | Running | Over

  /** Where a drain is.  Every phase but `Looping` and `Gone` names the drain's current
      turn; `Engine` also carries the turn generation its engine appends with. */
  datatype Phase =
    | Looping
    | Interrupting(turn: TurnId)
    | Preparing(turn: TurnId)
    | Engine(turn: TurnId, generation: nat, stage: Stage)
    | Unwinding(turn: TurnId)
    | Gone

  datatype Task = Task(actor: ActorId, phase: Phase, cancelled: bool)

  /** A body that runs under the root's process lock. */
  datatype Work =
    | EngineAppend(actor: ActorId, task: TaskId, entries: Log)
    | Interrupt(actor: ActorId, task: TaskId, turn: TurnId)
    | Claim(actor: ActorId, task: TaskId, turn: TurnId)
    | Recover
    | Cancel(command: TurnId, requestedBy: Option<string>, descendants: bool)
    | CancelActors(actors: set<ActorId>)
    | Enqueue(actor: ActorId, entry: Entry)
    | Shut

  /** `Written`: the transaction has committed, and the process has not been told yet. */
  datatype HoldStage = Locked | Begun | Checked | Written

  /** The process lock: whose body holds it, the generation it writes with, what it read. */
  datatype Hold = Hold(work: Work, generation: nat, seen: Journals, stage: HoldStage)

  datatype Process = Process(own: Option<nat>, unrecovered: bool, generations: map<ActorId, nat>,
                             active: map<ActorId, TaskId>, tasks: map<TaskId, Task>, hold: Option<Hold>,
                             closing: bool)

  /** `grantee` records who was last granted the row (a history variable). */
  datatype World = World(clock: nat, tables: Tables, grantee: Option<InstanceId>, root: ActorId,
                         journals: Journals, lock: Option<InstanceId>, procs: map<InstanceId, Process>)

  datatype Move =
    | Tick(seconds: nat)
    | Join(p: InstanceId)
    | Own(p: InstanceId, ttl: nat)
    | Extend(p: InstanceId, ttl: nat)
    | LetGo(p: InstanceId)
    | Invalidate(p: InstanceId)
    | Close(p: InstanceId)
    | Crash(p: InstanceId)
    | Activate(p: InstanceId, actor: ActorId, task: TaskId)
    | Observe(p: InstanceId, task: TaskId)
    | Unwind(p: InstanceId, task: TaskId)
    | Fail(p: InstanceId, task: TaskId)
    | Continue(p: InstanceId, task: TaskId)
    | Take(p: InstanceId, work: Work)
    | BeginTxn(p: InstanceId)
    | CheckTxn(p: InstanceId)
    | CommitTxn(p: InstanceId)
    | Return(p: InstanceId, settled: bool)   // the process learns of its commit
    | Lost(p: InstanceId)                    // the commit stands, but the process is told that it failed
    | Settle(p: InstanceId)
    | Drop(p: InstanceId)

  /* ---- process memory ---- */

  function Generation(m: Process, a: ActorId): nat {
    if a in m.generations then m.generations[a] else 0
  }

  /** The drain's current turn. */
  function Current(t: Task): Option<TurnId> {
    match t.phase
    case Looping => None
    case Gone => None
    case Interrupting(u) => Some(u)
    case Preparing(u) => Some(u)
    case Engine(u, _, _) => Some(u)
    case Unwinding(u) => Some(u)
  }

  /** The drain's engine may still append: its generation is the actor's. */
  predicate LiveTask(m: Process, k: TaskId) {
    k in m.tasks && m.tasks[k].phase.Engine? && m.tasks[k].phase.generation == Generation(m, m.tasks[k].actor)
  }

  predicate NoLive(m: Process) {
    forall k :: k in m.tasks ==> !LiveTask(m, k)
  }

  /** The drains `_cancel_local` stops: those whose claimed turn is targeted, and those with
      no claimed turn yet. */
  predicate Stopped(m: Process, targets: map<ActorId, seq<TurnId>>, a: ActorId) {
    a in targets && a in m.active && m.active[a] in m.tasks
    && (m.tasks[m.active[a]].phase.Engine? ==> m.tasks[m.active[a]].phase.turn in targets[a])
  }

  /** Stop the active drains of the actors in `stop`: advance their turn generations,
      take them out of `active` and cancel them. */
  function StopAll(m: Process, stop: set<ActorId>): Process
    requires stop <= m.active.Keys
  {
    m.(generations := map a | a in m.generations.Keys + stop :: if a in stop then Generation(m, a) + 1 else m.generations[a],
       active := m.active - stop,
       tasks := map k | k in m.tasks :: if StopsTask(m, stop, k) then m.tasks[k].(cancelled := true) else m.tasks[k])
  }

  predicate StopsTask(m: Process, stop: set<ActorId>, k: TaskId)
    requires stop <= m.active.Keys
  {
    exists a :: a in stop && m.active[a] == k
  }

  /** The turn `_task_turns` has for a drain: the one it claimed. */
  function ClaimedTurn(t: Task): Option<TurnId> {
    if t.phase.Engine? then Some(t.phase.turn) else None
  }

  /** A cancel with these targets concerns the active drain of `a`: it has claimed one of them, or
      nothing yet. */
  ghost predicate Concerns(m: Process, targets: map<ActorId, seq<TurnId>>, a: ActorId)
    requires a in m.active && m.active[a] in m.tasks
  {
    a in targets && (ClaimedTurn(m.tasks[m.active[a]]).None? || ClaimedTurn(m.tasks[m.active[a]]).value in targets[a])
  }

  /** The actor's drain goes on as if nothing had happened. */
  ghost predicate GoesOn(m: Process, n: Process, a: ActorId)
    requires a in m.active && m.active[a] in m.tasks
  {
    a in n.active && n.active[a] == m.active[a] && Generation(n, a) == Generation(m, a)
    && m.active[a] in n.tasks && n.tasks[m.active[a]] == m.tasks[m.active[a]]
  }

  /** The actor's drain is cancelled, and may not append any more. */
  ghost predicate IsStopped(m: Process, n: Process, a: ActorId)
    requires a in m.active && m.active[a] in m.tasks
  {
    a !in n.active && Generation(n, a) == Generation(m, a) + 1
    && m.active[a] in n.tasks && n.tasks[m.active[a]] == m.tasks[m.active[a]].(cancelled := true)
  }

  /** Nothing is changed but by stopping active drains, and a drain without a slot is left alone. */
  ghost predicate OnlyStops(m: Process, n: Process) {
    && n.unrecovered == m.unrecovered && n.hold == m.hold && n.tasks.Keys == m.tasks.Keys && n.active.Keys <= m.active.Keys
    && (forall a :: a !in m.active ==> Generation(n, a) == Generation(m, a))
    && (forall k :: k in m.tasks && !IsActive(m, k) ==> n.tasks[k] == m.tasks[k])
  }

  /** Every active slot holds a drain. */
  ghost predicate Slotted(m: Process) {
    forall a :: a in m.active ==> m.active[a] in m.tasks
  }

  /** A cancel stops exactly the drains it concerns. */
  ghost predicate StopsTargets(m: Process, n: Process, targets: map<ActorId, seq<TurnId>>)
    requires Slotted(m)
  {
    && OnlyStops(m, n) && n.own == m.own && n.closing == m.closing
    && forall a :: a in m.active ==> if Concerns(m, targets, a) then IsStopped(m, n, a) else GoesOn(m, n, a)
  }

  /** Every active drain is stopped. */
  ghost predicate StopsEvery(m: Process, n: Process)
    requires Slotted(m)
  {
    OnlyStops(m, n) && forall a :: a in m.active ==> IsStopped(m, n, a)
  }

  function CancelLocal(m: Process, targets: map<ActorId, seq<TurnId>>): Process {
    StopAll(m, set a | a in m.active && Stopped(m, targets, a))
  }

  /** Lease loss: forget the ownership and stop every active drain of the root. */
  function InvalidateRoot(m: Process): Process {
    StopAll(m, m.active.Keys).(own := None)
  }

  function SetPhase(m: Process, k: TaskId, phase: Phase): Process
    requires k in m.tasks
  {
    m.(tasks := m.tasks[k := m.tasks[k].(phase := phase)])
  }

  /** The drain ends and gives up its slot. */
  function Exit(m: Process, k: TaskId): Process
    requires k in m.tasks
  {
    var a := m.tasks[k].actor;
    SetPhase(m, k, Gone).(active := if a in m.active && m.active[a] == k then m.active - {a} else m.active)
  }

  /** A drain that reads its journal: a finished actor, an open turn to interrupt, nothing to do, or
      the first input waiting. */
  function Observed(m: Process, k: TaskId, j: Log): Process
    requires k in m.tasks
  {
    if Finished in j then Exit(m, k)
    else match Incomplete(j)
    case Some(t) => SetPhase(m, k, Interrupting(t))
    case None => if Pending(j) == [] then Exit(m, k) else SetPhase(m, k, Preparing(Ids(Pending(j))[0]))
  }

  /** An aborted drain turns to its current turn, or ends. */
  function Unwound(m: Process, k: TaskId): Process
    requires k in m.tasks
  {
    match Current(m.tasks[k])
    case Some(t) => SetPhase(m, k, Unwinding(t))
    case None => Exit(m, k)
  }

  /* ---- what each body writes ---- */

  /** The entries a body appends to actor `a`, computed from what it read. */
  function Appends(w: Work, js: Journals, root: ActorId, a: ActorId): Log {
    match w
    case EngineAppend(b, _, es) => if a == b then es else []
    case Interrupt(b, _, t) => if a == b && Incomplete(LogOf(js, b)) == Some(t) then [Ended(t)] else []
    case Claim(_, _, _) => []
    case Recover => if a in js then Ends(RecoveryEnds(js, root, a)) else []
    case Cancel(c, r, d) => CancelAppends(js, root, c, r, d, a)
    case CancelActors(s) => if a in s then Ends(TargetsOf(LogOf(js, a), Anything)) else []
    case Enqueue(b, e) =>
      if a == b && e.Queued? && !HasInput(LogOf(js, b), e.id) then [e] else []
    case Shut => OpenEnd(LogOf(js, a))
  }

  /** The end of the open turn, if there is one. */
  function OpenEnd(j: Log): Log {
    match Incomplete(j)
    case Some(t) => [Ended(t)]
    case None => []
  }

  predicate HasInput(j: Log, id: TurnId) {
    exists i :: 0 <= i < |j| && j[i].Queued? && j[i].id == id
  }

  function StopTargets(w: Work, js: Journals, root: ActorId): map<ActorId, seq<TurnId>> {
    match w
    case Cancel(c, r, d) =>
      (match CancelTargets(js, root, c, r, d)
       case Some(targets) => targets
       case None => map[])
    case CancelActors(s) => TargetMap(js, s, Anything)
    case _ => map[]
  }

  function Touched(w: Work, js: Journals, root: ActorId): set<ActorId> {
    js.Keys + {root}
    + (match w
       case EngineAppend(b, _, _) => {b}
       case Interrupt(b, _, _) => {b}
       case Claim(b, _, _) => {b}
       case Recover => {}
       case Cancel(_, _, _) => StopTargets(w, js, root).Keys
       case CancelActors(s) => s
       case Enqueue(b, _) => {b}
       case Shut => {})
  }

  /** Where an engine is once its entries are appended. */
  function NextStage(es: Log): Stage
    requires es != []
  {
    if es[|es| - 1].Ended? then Over else Running
  }

  /** What the body does to the process's memory once its transaction has returned. */
  function Effect(m: Process, w: Work, js: Journals, root: ActorId, settled: bool): Process {
    match w
    case EngineAppend(_, k, es) =>
      if k in m.tasks && m.tasks[k].phase.Engine? && es != [] then
        SetPhase(m, k, m.tasks[k].phase.(stage := NextStage(es)))
      else m
    case Interrupt(_, k, _) => if k in m.tasks then AfterInterrupt(m, k) else m
    case Claim(_, _, _) => m
    case Recover => m.(unrecovered := m.unrecovered && !settled)
    case Cancel(_, _, _) => CancelLocal(m, StopTargets(w, js, root))
    case CancelActors(_) => CancelLocal(m, StopTargets(w, js, root))
    case Enqueue(_, _) => m
    case Shut => m
  }

  /** What a body does to the process's memory when its commit stands but an error is raised: the
      drain that waited for a start, an end or an interrupt fails, or unwinds if it was aborted;
      nobody is stopped. */
  function LostEffect(m: Process, w: Work): Process {
    match w
    case EngineAppend(_, k, es) => if k in m.tasks && es != [] && !es[|es| - 1].Output? then Failed(m, k) else m
    case Interrupt(_, k, _) => if k in m.tasks then Failed(m, k) else m
    case _ => m
  }

  function Failed(m: Process, k: TaskId): Process
    requires k in m.tasks
  {
    if m.tasks[k].cancelled && !m.tasks[k].phase.Unwinding? then m else Exit(m, k)
  }

  /** The drain goes on, ends, or is still to unwind. */
  function AfterInterrupt(m: Process, k: TaskId): Process
    requires k in m.tasks
  {
    if !m.tasks[k].phase.Interrupting? then Exit(m, k)
    else if m.tasks[k].cancelled then m
    else SetPhase(m, k, Looping)
  }

  /** The claim under the lock: skip a turn that is no longer pending, else advance the
      actor's turn generation and start the engine with it. */
  function Claim1(m: Process, k: TaskId, t: TurnId, seen: Log): Process
    requires k in m.tasks
  {
    var a := m.tasks[k].actor;
    if t in Ids(Pending(seen)) then
      var g := Generation(m, a) + 1;
      SetPhase(m.(generations := m.generations[a := g]), k, Engine(t, g, Claimed))
    else SetPhase(m, k, Looping)
  }

  /* ---- steps ---- */

  predicate ReadOk(w: World, p: InstanceId) {
    p in w.procs && w.procs[p].own.Some? && w.lock.None?
    && Fence(w.tables, p, w.procs[p].own.value, w.clock)
  }

  /** A request is served under the row's ownership, though the process may have dropped its own. */
  predicate Requested(work: Work) {
    work.Cancel? || work.Enqueue?
  }

  predicate ServeOk(w: World, p: InstanceId) {
    p in w.procs && Fence(w.tables, p, GenerationOf(w.tables), w.clock)
  }

  /** The body of `p` may begin its transaction. */
  predicate TxnOk(w: World, p: InstanceId) {
    p in w.procs && w.procs[p].hold.Some? && w.lock.None? && Fence(w.tables, p, w.procs[p].hold.value.generation, w.clock)
  }

  /** What an engine appends: the start, outputs, the end; and once more an end, if a hook that
      is told of the end raises a provider error. */
  predicate EntriesFit(phase: Phase, es: Log)
    requires phase.Engine?
  {
    match phase.stage
    case Claimed => es == [Started(phase.turn)]
    case Running => es == [Ended(phase.turn)] || (es != [] && forall e :: e in es ==> e.Output? && e.turn == phase.turn)
    case Over => es == [Ended(phase.turn)]
  }

  predicate Takes(w: World, p: InstanceId, work: Work)
    requires p in w.procs
  {
    var m := w.procs[p];
    match work
    case EngineAppend(a, k, es) =>
      k in m.tasks && m.tasks[k].actor == a && m.tasks[k].phase.Engine?
      && m.tasks[k].phase.generation == Generation(m, a) && EntriesFit(m.tasks[k].phase, es)
    case Interrupt(a, k, t) =>
      k in m.tasks && m.tasks[k].actor == a
      && (m.tasks[k].phase == Unwinding(t) || (m.tasks[k].phase == Interrupting(t) && !m.tasks[k].cancelled))
    case Claim(a, k, t) =>
      k in m.tasks && m.tasks[k].actor == a
      && m.tasks[k].phase == Preparing(t) && !m.tasks[k].cancelled
    case Recover => m.unrecovered
    case Cancel(_, _, _) => true
    case CancelActors(_) => true
    case Enqueue(_, e) => e.Queued?
    case Shut => m.closing
  }

  predicate Busy(m: Process, k: TaskId) {
    m.hold.Some? &&
    match m.hold.value.work
    case EngineAppend(_, j, _) => j == k
    case Interrupt(_, j, _) => j == k
    case Claim(_, j, _) => j == k
    case Recover => false
    case Cancel(_, _, _) => false
    case CancelActors(_) => false
    case Enqueue(_, _) => false
    case Shut => false
  }

  /** The body of `p` has come as far as `stage`. */
  predicate At(w: World, p: InstanceId, stage: HoldStage) {
    p in w.procs && w.procs[p].hold.Some? && w.procs[p].hold.value.stage == stage
  }

  predicate Can(w: World, move: Move) {
    match move
    case Tick(_) => true
    case Join(p) => p !in w.procs && w.grantee != Some(p) && OwnerOf(w.tables) != Some(p)
    case Own(p, ttl) =>
      p in w.procs && w.procs[p].own.None? && w.procs[p].hold.None? && w.lock.None? && !w.procs[p].closing
      && Granted(w.tables, p, ttl, w.clock).Some?
    case Extend(p, _) => ReadOk(w, p)
    case LetGo(p) => ReadOk(w, p) && w.procs[p].hold.None? && w.procs[p].active == map[]
    case Invalidate(p) => p in w.procs && w.procs[p].hold.None?
    case Close(p) => p in w.procs && !w.procs[p].closing
    case Crash(p) => p in w.procs
    case Activate(p, a, k) => p in w.procs && !w.procs[p].closing && a !in w.procs[p].active && k !in w.procs[p].tasks
    case Observe(p, k) =>
      p in w.procs && w.procs[p].own.Some? && k in w.procs[p].tasks
      && w.procs[p].tasks[k].phase.Looping? && !w.procs[p].tasks[k].cancelled
    case Unwind(p, k) =>
      p in w.procs && k in w.procs[p].tasks && w.procs[p].tasks[k].cancelled && !Busy(w.procs[p], k)
      && !w.procs[p].tasks[k].phase.Gone? && !w.procs[p].tasks[k].phase.Unwinding?
    case Fail(p, k) => p in w.procs && k in w.procs[p].tasks && !Busy(w.procs[p], k)
    case Continue(p, k) =>
      p in w.procs && k in w.procs[p].tasks && w.procs[p].tasks[k].phase.Engine? && w.procs[p].tasks[k].phase.stage == Over
      && !w.procs[p].tasks[k].cancelled && !Busy(w.procs[p], k)
    case Take(p, work) =>
      p in w.procs && w.procs[p].hold.None? && (w.procs[p].own.Some? || (Requested(work) && ServeOk(w, p))) && Takes(w, p, work)
    case BeginTxn(p) =>
      TxnOk(w, p) && w.procs[p].hold.value.stage == Locked
      && (match w.procs[p].hold.value.work
          case Claim(_, _, _) => false
          case Interrupt(a, _, t) => Incomplete(LogOf(w.procs[p].hold.value.seen, a)) == Some(t)
          case _ => true)
    case CheckTxn(p) =>
      At(w, p, Begun) && Fence(w.tables, p, w.procs[p].hold.value.generation, w.clock)
    case CommitTxn(p) => At(w, p, Checked)
    case Return(p, _) => At(w, p, Written)
    case Lost(p) => At(w, p, Written)
    case Settle(p) =>
      At(w, p, Locked)
      && (match w.procs[p].hold.value.work
          case Claim(_, k, _) => k in w.procs[p].tasks && !w.procs[p].tasks[k].cancelled
          case Interrupt(a, k, t) => k in w.procs[p].tasks && Incomplete(LogOf(w.procs[p].hold.value.seen, a)) != Some(t)
          case _ => false)
    case Drop(p) => p in w.procs && w.procs[p].hold.Some? && w.procs[p].hold.value.stage != Written
  }

  function Put1(w: World, p: InstanceId, m: Process): World {
    w.(procs := w.procs[p := m])
  }

  function SetStage(m: Process, stage: HoldStage): Process
    requires m.hold.Some?
  {
    m.(hold := Some(m.hold.value.(stage := stage)))
  }

  function Do(w: World, move: Move): World
    requires Can(w, move)
  {
    match move
    case Tick(n) => w.(clock := w.clock + n)
    case Join(p) => Put1(w, p, Process(None, false, map[], map[], map[], None, false))
    case Own(p, ttl) =>
      var row := Granted(w.tables, p, ttl, w.clock).value;
      var m := w.procs[p].(own := Some(row.generation), unrecovered := true,
                           hold := Some(Hold(Recover, row.generation, w.journals, Locked)));
      Put1(w.(tables := w.tables.(row := Some(row)), grantee := Some(p)), p, m)
    case Extend(_, ttl) =>
      w.(tables := w.tables.(row := Some(w.tables.row.value.(expires := Some(w.clock + ttl)))))
    case LetGo(p) =>
      Put1(w.(tables := w.tables.(row := Some(w.tables.row.value.(owner := None, expires := None)))),
           p, w.procs[p].(own := None))
    case Invalidate(p) => Put1(w, p, InvalidateRoot(w.procs[p]))
    case Close(p) => Put1(w, p, StopAll(w.procs[p], w.procs[p].active.Keys).(closing := true))
    case Crash(p) =>
      w.(procs := w.procs - {p}, lock := if w.lock == Some(p) then None else w.lock)
    case Activate(p, a, k) =>
      var m := w.procs[p];
      Put1(w, p, m.(active := m.active[a := k], tasks := m.tasks[k := Task(a, Looping, false)]))
    case Observe(p, k) =>
      Put1(w, p, Observed(w.procs[p], k, LogOf(w.journals, w.procs[p].tasks[k].actor)))
    case Unwind(p, k) => Put1(w, p, Unwound(w.procs[p], k))
    case Fail(p, k) => Put1(w, p, Exit(w.procs[p], k))
    case Continue(p, k) => Put1(w, p, SetPhase(w.procs[p], k, Looping))
    case Take(p, work) =>
      var m := w.procs[p];
      var g := if m.own.Some? then m.own.value else GenerationOf(w.tables);
      Put1(w, p, m.(hold := Some(Hold(work, g, w.journals, Locked))))
    case BeginTxn(p) =>
      var m := w.procs[p];
      var h := m.hold.value;
      var seen := if h.work.Interrupt? then h.seen else w.journals;
      Put1(w.(lock := Some(p)), p, m.(hold := Some(h.(seen := seen, stage := Begun))))
    case CheckTxn(p) =>
      Put1(w, p, SetStage(w.procs[p], Checked))
    case CommitTxn(p) =>
      var h := w.procs[p].hold.value;
      Put1(w.(lock := None, journals := ApplyTo(h.work, h.seen, w.root, w.journals)), p, SetStage(w.procs[p], Written))
    case Return(p, settled) =>
      var h := w.procs[p].hold.value;
      Put1(w, p, Effect(w.procs[p].(hold := None), h.work, h.seen, w.root, settled))
    case Lost(p) => Put1(w, p, LostEffect(w.procs[p].(hold := None), w.procs[p].hold.value.work))
    case Settle(p) =>
      var m := w.procs[p];
      var h := m.hold.value;
      Put1(w, p, match h.work
                 case Claim(a, k, t) => Claim1(m.(hold := None), k, t, LogOf(h.seen, a))
                 case Interrupt(_, k, _) => AfterInterrupt(m.(hold := None), k)
                 case _ => m)
    case Drop(p) =>
      var m := w.procs[p];
      Put1(w.(lock := if w.lock == Some(p) then None else w.lock), p, m.(hold := None))
  }

  /** Append to the committed journals what the body computed from what it read. */
  function ApplyTo(work: Work, seen: Journals, root: ActorId, js: Journals): Journals {
    map a | a in Touched(work, seen, root) + js.Keys :: LogOf(js, a) + Appends(work, seen, root, a)
  }

  ghost predicate Start(w: World) {
    && w.tables == Tables(None, false, map[])
    && w.grantee.None? && w.lock.None? && w.procs == map[]
    && forall a :: a in w.journals ==> w.journals[a] == []
  }

  /* ---- invariant ---- */

  predicate IsActive(m: Process, k: TaskId)
    requires k in m.tasks
  {
    m.tasks[k].actor in m.active && m.active[m.tasks[k].actor] == k
  }

  predicate SlotOk(m: Process, a: ActorId)
    requires a in m.active
  {
    m.active[a] in m.tasks && m.tasks[m.active[a]].actor == a
    && !m.tasks[m.active[a]].cancelled && !m.tasks[m.active[a]].phase.Gone?
  }

  predicate TaskOk(m: Process, k: TaskId)
    requires k in m.tasks
  {
    && (!m.tasks[k].cancelled && !m.tasks[k].phase.Gone? ==> IsActive(m, k))
    && (LiveTask(m, k) ==> !m.tasks[k].cancelled)
    && (m.tasks[k].phase.Engine? ==> m.tasks[k].phase.generation <= Generation(m, m.tasks[k].actor))
    && (m.tasks[k].phase.Unwinding? ==> m.tasks[k].cancelled)
  }

  ghost predicate TasksOk(m: Process) {
    && (forall a :: a in m.active ==> SlotOk(m, a))
    && (forall k :: k in m.tasks ==> TaskOk(m, k))
    && OneWriter(m)
  }

  /** No aborted drain still names the turn of a live one of the same actor. */
  ghost predicate OneWriter(m: Process) {
    forall k, l :: k in m.tasks && m.tasks[k].cancelled && LiveTask(m, l) && m.tasks[k].actor == m.tasks[l].actor ==>
      Current(m.tasks[k]) != Some(m.tasks[l].phase.turn)
  }

  ghost predicate OwnOk(id: InstanceId, m: Process, gen: nat, grantee: Option<InstanceId>) {
    && (m.own.Some? ==> m.own.value <= gen && (m.own.value == gen ==> grantee == Some(id)))
    && Resting(m)
  }

  /** Without an ownership, and once it is closing, a process runs no turn. */
  ghost predicate Resting(m: Process) {
    (m.own.None? || m.closing ==> Quiet(m)) && (m.closing ==> m.active == map[])
  }

  /** No drain is live or about to claim. */
  ghost predicate Quiet(m: Process) {
    NoLive(m) && forall k :: k in m.tasks && m.tasks[k].phase.Preparing? ==> m.tasks[k].cancelled
  }

  /** The journal of a turn's actor while its engine is at `stage`. */
  ghost predicate StageOk(stage: Stage, t: TurnId, j: Log) {
    match stage
    case Claimed => Started(t) !in j && Ended(t) !in j && AllEnded(j)
    case Running => Ended(t) !in j && AllEndedBut(j, t)
    case Over => Ended(t) in j
  }

  /** What a process that can still write knows of the journals its drains work on. */
  ghost predicate DrainOk(m: Process, k: TaskId, j: Log)
    requires k in m.tasks
  {
    && (LiveTask(m, k) ==> StageOk(m.tasks[k].phase.stage, m.tasks[k].phase.turn, j))
    && (m.tasks[k].phase.Preparing? && !m.tasks[k].cancelled ==> AllEnded(j))
  }

  ghost predicate DrainsOk(m: Process, js: Journals) {
    forall k :: k in m.tasks ==> DrainOk(m, k, LogOf(js, m.tasks[k].actor))
  }

  predicate Cancels(work: Work) {
    work.Cancel? || work.CancelActors?
  }

  /** The body ends the turn of a drain it has yet to stop. */
  predicate Doomed(m: Process, k: TaskId, work: Work, seen: Journals, root: ActorId)
    requires LiveTask(m, k)
  {
    Cancels(work) && Ended(m.tasks[k].phase.turn) in Appends(work, seen, root, m.tasks[k].actor)
  }

  /** The same once the body `work` is committed and its effect is still to come: the engine it
      serves is one step behind its journal, and a drain whose turn it ended still runs. */
  ghost predicate AwaitingOk(m: Process, work: Work, seen: Journals, root: ActorId, k: TaskId, j: Log)
    requires k in m.tasks
  {
    && (LiveTask(m, k) ==>
          if work.EngineAppend? && work.task == k then
            work.entries != [] && StageOk(NextStage(work.entries), m.tasks[k].phase.turn, j)
          else if Doomed(m, k, work, seen, root) then m.tasks[k].phase.stage != Over
          else StageOk(m.tasks[k].phase.stage, m.tasks[k].phase.turn, j))
    && (m.tasks[k].phase.Preparing? && !m.tasks[k].cancelled ==> AllEnded(j))
  }

  ghost predicate AwaitingsOk(m: Process, work: Work, seen: Journals, root: ActorId, js: Journals) {
    forall k :: k in m.tasks ==> AwaitingOk(m, work, seen, root, k, LogOf(js, m.tasks[k].actor))
  }

  predicate Awaiting(m: Process) {
    m.hold.Some? && m.hold.value.stage == Written
  }

  ghost predicate Knows(m: Process, js: Journals, root: ActorId) {
    if Awaiting(m) then AwaitingsOk(m, m.hold.value.work, m.hold.value.seen, root, js) else DrainsOk(m, js)
  }

  /** Recovery would end no turn whose engine may still append. */
  ghost predicate RecoverySpares(m: Process, js: Journals, root: ActorId) {
    forall k :: LiveTask(m, k) ==> m.tasks[k].phase.turn !in RecoveryEnds(js, root, m.tasks[k].actor)
  }

  /** An aborted drain's own body runs on only while its process closes. */
  ghost predicate WorkOk(m: Process, h: Hold, root: ActorId) {
    match h.work
    case EngineAppend(a, k, es) =>
      k in m.tasks && m.tasks[k].actor == a && m.tasks[k].phase.Engine? && m.tasks[k].phase.stage != Over
      && EntriesFit(m.tasks[k].phase, es) && (LiveTask(m, k) || m.closing)
    case Interrupt(a, k, t) =>
      k in m.tasks && m.tasks[k].actor == a
      && (m.tasks[k].phase == Unwinding(t) || (m.tasks[k].phase == Interrupting(t) && (!m.tasks[k].cancelled || m.closing)))
    case Claim(a, k, t) =>
      k in m.tasks && m.tasks[k].actor == a && m.tasks[k].phase == Preparing(t) && (!m.tasks[k].cancelled || m.closing)
      && h.stage == Locked
    case Recover => RecoverySpares(m, h.seen, root)
    case Enqueue(_, e) => e.Queued?
    case Shut => m.closing
    case _ => true
  }

  /** What an engine appends still fits the journal it appends to. */
  ghost predicate WriterOk(m: Process, work: Work, js: Journals) {
    work.EngineAppend? && work.task in m.tasks && m.tasks[work.task].phase.Engine? ==>
      StageOk(m.tasks[work.task].phase.stage, m.tasks[work.task].phase.turn, LogOf(js, work.actor))
  }

  /** What the body read is what stands, and once it is committed, what it wrote. */
  ghost predicate SeenOk(m: Process, h: Hold, js: Journals, root: ActorId) {
    if h.stage == Written then js == ApplyTo(h.work, h.seen, root, h.seen)
    else h.seen == js && WriterOk(m, h.work, js)
  }

  /** The body writes with the process's own generation, or serves a request without one. */
  predicate Entitled(m: Process, h: Hold) {
    m.own == Some(h.generation) || (m.own.None? && Requested(h.work))
  }

  ghost predicate HoldOk(id: InstanceId, m: Process, gen: nat, grantee: Option<InstanceId>, js: Journals,
                         lock: Option<InstanceId>, root: ActorId) {
    && (lock == Some(id) <==> m.hold.Some? && (m.hold.value.stage == Begun || m.hold.value.stage == Checked))
    && (m.hold.Some? ==>
          && Entitled(m, m.hold.value) && m.hold.value.generation <= gen
          && (m.hold.value.generation == gen ==> grantee == Some(id) && SeenOk(m, m.hold.value, js, root))
          && (lock == Some(id) ==> m.hold.value.generation == gen)
          && WorkOk(m, m.hold.value, root))
  }

  ghost predicate ProcOk(id: InstanceId, m: Process, gen: nat, grantee: Option<InstanceId>, js: Journals,
                         lock: Option<InstanceId>, root: ActorId) {
    && TasksOk(m) && OwnOk(id, m, gen, grantee) && HoldOk(id, m, gen, grantee, js, lock, root)
    && (m.own == Some(gen) ==> Knows(m, js, root))
  }

  ghost predicate WorldOk(w: World) {
    && !w.tables.deleted
    && (w.tables.row.Some? && w.tables.row.value.owner.Some? ==> w.grantee == w.tables.row.value.owner)
    && (w.tables.row.Some? && w.tables.row.value.expires.Some? ==> w.tables.row.value.owner.Some?)
    && (w.lock.Some? ==> w.lock.value in w.procs)
    && AllWellFormed(w.journals)
    && forall id :: id in w.procs ==>
         ProcOk(id, w.procs[id], GenerationOf(w.tables), w.grantee, w.journals, w.lock, w.root)
  }

  /** A cancel ends no turn whose engine may still append. */
  ghost predicate CancelSpares(m: Process, work: Work, js: Journals, root: ActorId) {
    forall k :: LiveTask(m, k) ==> !Doomed(m, k, work, js, root)
  }

  /** The four places where a journal can break: a claim of a turn that an aborted drain of the
      actor still has as its current one, a repeated recovery that ends a turn this process is
      running, a cancel that does so and is told that its commit failed, so that it stops nobody,
      and an engine that ends its turn once more. */
  ghost predicate Careful(w: World, move: Move)
    requires Can(w, move)
  {
    match move
    case Settle(p) =>
      var m := w.procs[p];
      (match m.hold.value.work
       case Claim(a, k, t) =>
         t in Ids(Pending(LogOf(m.hold.value.seen, a))) ==>
           forall l :: l in m.tasks && m.tasks[l].cancelled && m.tasks[l].actor == a ==> Current(m.tasks[l]) != Some(t)
       case _ => true)
    case Take(p, work) =>
      && (work.Recover? ==> RecoverySpares(w.procs[p], w.journals, w.root))
      && (work.EngineAppend? ==> w.procs[p].tasks[work.task].phase.stage != Over)
    case Lost(p) =>
      var h := w.procs[p].hold.value;
      Cancels(h.work) ==> CancelSpares(w.procs[p], h.work, h.seen, w.root)
    case _ => true
  }

  /* ---- process memory keeps its invariant ---- */

  lemma StopAllTask(m: Process, stop: set<ActorId>, k: TaskId)
    requires TasksOk(m) && stop <= m.active.Keys && k in m.tasks
    ensures var n := StopAll(m, stop);
      && k in n.tasks && n.tasks[k].phase == m.tasks[k].phase && n.tasks[k].actor == m.tasks[k].actor
      && n.tasks[k].cancelled == (m.tasks[k].cancelled || (m.tasks[k].actor in stop && IsActive(m, k)))
      && (LiveTask(n, k) ==> LiveTask(m, k) && m.tasks[k].actor !in stop)
      && TaskOk(n, k)
  {
    var n, a := StopAll(m, stop), m.tasks[k].actor;
    assert TaskOk(m, k);
    if StopsTask(m, stop, k) {
      var b :| b in stop && m.active[b] == k;
      assert SlotOk(m, b);
    }
    assert Generation(n, a) == if a in stop then Generation(m, a) + 1 else Generation(m, a);
  }

  lemma StopAllOk(m: Process, stop: set<ActorId>)
    requires TasksOk(m) && stop <= m.active.Keys
    ensures TasksOk(StopAll(m, stop))
    ensures forall k :: LiveTask(StopAll(m, stop), k) ==> LiveTask(m, k) && m.tasks[k].actor !in stop
  {
    var n := StopAll(m, stop);
    forall k | k in n.tasks
      ensures TaskOk(n, k)
      ensures LiveTask(n, k) ==> LiveTask(m, k) && m.tasks[k].actor !in stop
    {
      StopAllTask(m, stop, k);
    }
    forall a | a in n.active ensures SlotOk(n, a) {
      assert SlotOk(m, a);
      StopAllTask(m, stop, m.active[a]);
    }
    forall k, l | k in n.tasks && n.tasks[k].cancelled && LiveTask(n, l) && n.tasks[k].actor == n.tasks[l].actor
      ensures Current(n.tasks[k]) != Some(n.tasks[l].phase.turn)
    {
      StopAllTask(m, stop, k);
      StopAllTask(m, stop, l);
    }
  }

  lemma ExitOk(m: Process, k: TaskId)
    requires TasksOk(m) && k in m.tasks
    ensures TasksOk(Exit(m, k))
    ensures forall l :: LiveTask(Exit(m, k), l) ==> LiveTask(m, l) && l != k
  {
    var n, a := Exit(m, k), m.tasks[k].actor;
    forall l | LiveTask(n, l) ensures LiveTask(m, l) && l != k { }
    forall b | b in n.active ensures SlotOk(n, b) { assert SlotOk(m, b); }
    forall l | l in n.tasks ensures TaskOk(n, l) { assert TaskOk(m, l); }
    forall x, l | x in n.tasks && n.tasks[x].cancelled && LiveTask(n, l) && n.tasks[x].actor == n.tasks[l].actor
      ensures Current(n.tasks[x]) != Some(n.tasks[l].phase.turn)
    {
      assert m.tasks[x].cancelled;
    }
  }

  /** Moving a drain that is neither live before nor after, and keeps its turn if cancelled. */
  lemma SetPhaseOk(m: Process, k: TaskId, phase: Phase)
    requires TasksOk(m) && k in m.tasks
    requires !phase.Engine? && !phase.Gone? && !m.tasks[k].phase.Gone?
    requires phase.Unwinding? ==> m.tasks[k].cancelled
    requires m.tasks[k].cancelled ==> Current(m.tasks[k]) == Current(m.tasks[k].(phase := phase))
    ensures TasksOk(SetPhase(m, k, phase))
    ensures forall l :: LiveTask(SetPhase(m, k, phase), l) ==> LiveTask(m, l) && l != k
  {
    var n := SetPhase(m, k, phase);
    forall l | LiveTask(n, l) ensures LiveTask(m, l) && l != k { }
    forall b | b in n.active ensures SlotOk(n, b) { assert SlotOk(m, b); }
    forall l | l in n.tasks ensures TaskOk(n, l) { assert TaskOk(m, l); }
    forall x, l | x in n.tasks && n.tasks[x].cancelled && LiveTask(n, l) && n.tasks[x].actor == n.tasks[l].actor
      ensures Current(n.tasks[x]) != Some(n.tasks[l].phase.turn)
    {
      assert m.tasks[x].cancelled && LiveTask(m, l);
      assert Current(n.tasks[x]) == Current(m.tasks[x]);
    }
  }
}
