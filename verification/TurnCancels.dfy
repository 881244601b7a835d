/** What a cancel stops, over runs of the turn protocol: the drains its record lists, however late
    it returns. */
module TurnCancels {
  import opened Basics
  import opened Journal
  import opened Coordinator
  import opened Commands
  import opened TurnProtocol
  import opened TurnSafety
  import opened TurnRuns

  /** A cancel that was carried out is on record in the root's journal, with its targets. */
  ghost predicate OnRecord(work: Work, seen: Journals, root: ActorId, js: Journals) {
    work.Cancel? && CancelTargets(seen, root, work.command, work.requestedBy, work.descendants).Some? ==>
      Recorded(LogOf(js, root), work.command).Some?
      && Recorded(LogOf(js, root), work.command).value.targets == StopTargets(work, seen, root)
  }

  ghost predicate AllOnRecord(w: World) {
    forall p :: p in w.procs && Awaiting(w.procs[p]) ==>
      OnRecord(w.procs[p].hold.value.work, w.procs[p].hold.value.seen, w.root, w.journals)
  }

  lemma CommitRecords(work: Work, js: Journals, root: ActorId)
    requires work.Cancel?
    ensures OnRecord(work, js, root, ApplyTo(work, js, root, js))
  {
    var targets := CancelTargets(js, root, work.command, work.requestedBy, work.descendants);
    if targets.Some? {
      ApplyLog(work, js, root, root);
      RecordedIfNew(js, root, work.command, work.requestedBy, work.descendants);
    }
  }

  lemma RecordedIfNew(js: Journals, root: ActorId, c: TurnId, asker: Option<string>, descendants: bool)
    requires CancelTargets(js, root, c, asker, descendants).Some?
    ensures var r := Recorded(LogOf(js, root) + CancelAppends(js, root, c, asker, descendants, root), c);
            r.Some? && r.value.targets == CancelTargets(js, root, c, asker, descendants).value
  {
    var targets := CancelTargets(js, root, c, asker, descendants).value;
    CarriedOutIsRecorded(LogOf(js, root), CancelRequested(c, targets, asker, descendants), TargetEnds(js, targets, root));
  }

  lemma StaysOnRecord(work: Work, seen: Journals, root: ActorId, js: Journals, js': Journals, more: Log)
    requires OnRecord(work, seen, root, js) && LogOf(js', root) == LogOf(js, root) + more
    ensures OnRecord(work, seen, root, js')
  {
    if work.Cancel? && CancelTargets(seen, root, work.command, work.requestedBy, work.descendants).Some? {
      RecordedPrefix(LogOf(js, root), more, work.command);
    }
  }

  /** What a process that commits has read is what stands. */
  lemma CommitterRead(w: World, p: InstanceId)
    requires WorldOk(w) && At(w, p, Checked)
    ensures w.procs[p].hold.value.seen == w.journals
  {
    assert Sound(w, p);
  }

  lemma CommitKeepsRecords(w: World, p: InstanceId)
    requires WorldOk(w) && AllOnRecord(w) && Can(w, CommitTxn(p))
    ensures AllOnRecord(Do(w, CommitTxn(p)))
  {
    var n, h := Do(w, CommitTxn(p)), w.procs[p].hold.value;
    CommitterRead(w, p);
    ApplyLog(h.work, w.journals, w.root, w.root);
    forall q | q in n.procs && Awaiting(n.procs[q])
      ensures OnRecord(n.procs[q].hold.value.work, n.procs[q].hold.value.seen, n.root, n.journals)
    {
      if q != p {
        StaysOnRecord(w.procs[q].hold.value.work, w.procs[q].hold.value.seen, w.root, w.journals, n.journals,
                      Appends(h.work, w.journals, w.root, w.root));
      } else if h.work.Cancel? { CommitRecords(h.work, w.journals, w.root); }
    }
  }

  /** Only a commit changes the journals. */
  lemma OnlyCommitsWrite(w: World, move: Move)
    requires Can(w, move) && !move.CommitTxn?
    ensures Do(w, move).journals == w.journals && Do(w, move).root == w.root
  {
  }

  /** The drain's own moves leave what the process holds. */
  lemma DrainsHoldNothing(w: World, move: Move, q: InstanceId)
    requires Can(w, move) && (move.Activate? || move.Observe? || move.Unwind? || move.Fail? || move.Continue?)
    requires q in Do(w, move).procs
    ensures q in w.procs && Do(w, move).procs[q].hold == w.procs[q].hold
  {
  }

  /** Only a commit leaves a body waiting to return. */
  lemma OnlyCommitsWait(w: World, move: Move, q: InstanceId)
    requires Can(w, move) && !move.CommitTxn? && q in Do(w, move).procs && Awaiting(Do(w, move).procs[q])
    ensures q in w.procs && Do(w, move).procs[q].hold == w.procs[q].hold
  {
    if move.Activate? || move.Observe? || move.Unwind? || move.Fail? || move.Continue? { DrainsHoldNothing(w, move, q); }
  }

  lemma MoveKeepsRecords(w: World, move: Move)
    requires WorldOk(w) && AllOnRecord(w) && Can(w, move)
    ensures AllOnRecord(Do(w, move))
  {
    if move.CommitTxn? { CommitKeepsRecords(w, move.p); }
    else {
      OnlyCommitsWrite(w, move);
      forall q | q in Do(w, move).procs && Awaiting(Do(w, move).procs[q]) ensures q in w.procs && Do(w, move).procs[q].hold == w.procs[q].hold {
        OnlyCommitsWait(w, move, q);
      }
    }
  }

  lemma {:induction false} RunKeepsRecords(w: World, moves: seq<Move>, n: World)
    requires WorldOk(w) && AllOnRecord(w) && CarefulPath(w, moves, n)
    ensures WorldOk(n) && AllOnRecord(n)
    decreases |moves|
  {
    if moves != [] {
      MoveKeepsInvariant(w, moves[0]);
      MoveKeepsRecords(w, moves[0]);
      RunKeepsRecords(Do(w, moves[0]), moves[1..], n);
    }
  }

  /** In every careful run a cancel that returns, however late and whatever happened since its
      commit, stops exactly the active drains of the actors its record lists that have claimed a
      listed turn, or no turn; a cancel that was refused stops none. */
  lemma CancelStopsItsRecord(start: World, moves: seq<Move>, w: World, p: InstanceId, settled: bool)
    requires Start(start) && CarefulPath(start, moves, w) && Can(w, Return(p, settled)) && w.procs[p].hold.value.work.Cancel?
    ensures var m, h := w.procs[p].(hold := None), w.procs[p].hold.value;
            var n := Do(w, Return(p, settled)).procs[p];
            var record := Recorded(LogOf(w.journals, w.root), h.work.command);
            Slotted(m)
            && if CancelTargets(h.seen, w.root, h.work.command, h.work.requestedBy, h.work.descendants).Some?
               then record.Some? && StopsTargets(m, n, record.value.targets)
               else StopsTargets(m, n, map[])
  {
    StartOk(start);
    RunKeepsRecords(start, moves, w);
    WrittenMemory(w, p);
    CancelIsExact(w.procs[p].(hold := None), StopTargets(w.procs[p].hold.value.work, w.procs[p].hold.value.seen, w.root));
  }

  /** No target lists the turn the drain has claimed. */
  predicate Unlisted(m: Process, k: TaskId, targets: map<ActorId, seq<TurnId>>)
    requires LiveTask(m, k)
  {
    m.tasks[k].actor in targets ==> m.tasks[k].phase.turn !in targets[m.tasks[k].actor]
  }

  lemma UnlistedIsSpared(m: Process, n: Process, targets: map<ActorId, seq<TurnId>>, k: TaskId)
    requires TasksOk(m) && Slotted(m) && StopsTargets(m, n, targets) && LiveTask(m, k) && Unlisted(m, k, targets)
    ensures LiveTask(n, k) && n.tasks[k] == m.tasks[k]
  {
    assert TaskOk(m, k);
    assert GoesOn(m, n, m.tasks[k].actor);
  }

  /** A drain that runs a turn its cancel's record does not list goes on. */
  lemma UnlistedTurnGoesOn(start: World, moves: seq<Move>, w: World, p: InstanceId, settled: bool, k: TaskId)
    requires Start(start) && CarefulPath(start, moves, w) && Can(w, Return(p, settled)) && w.procs[p].hold.value.work.Cancel?
    requires LiveTask(w.procs[p], k)
    requires var record := Recorded(LogOf(w.journals, w.root), w.procs[p].hold.value.work.command);
             record.Some? ==> Unlisted(w.procs[p], k, record.value.targets)
    ensures var n := Do(w, Return(p, settled)).procs[p]; LiveTask(n, k) && n.tasks[k] == w.procs[p].tasks[k]
  {
    var m, h := w.procs[p].(hold := None), w.procs[p].hold.value;
    StartOk(start);
    CarefulPathKeepsInvariant(start, moves, w);
    WrittenMemory(w, p);
    CancelStopsItsRecord(start, moves, w, p, settled);
    SameLive(w.procs[p], m);
    var targets := if CancelTargets(h.seen, w.root, h.work.command, h.work.requestedBy, h.work.descendants).Some?
                   then Recorded(LogOf(w.journals, w.root), h.work.command).value.targets else map[];
    UnlistedIsSpared(m, Do(w, Return(p, settled)).procs[p], targets, k);
  }

  /** A cancel of these actors, from what was read, concerns the drain of `a`: the actor is among them,
      something was live there, and the drain has claimed that, or nothing yet. */
  ghost predicate ActorsConcern(m: Process, actors: set<ActorId>, seen: Journals, a: ActorId)
    requires a in m.active && m.active[a] in m.tasks
  {
    var live, claimed := TargetsOf(LogOf(seen, a), Anything), ClaimedTurn(m.tasks[m.active[a]]);
    a in actors && (exists t :: t in live) && (claimed.Some? ==> claimed.value in live)
  }

  lemma ActorsTargets(m: Process, actors: set<ActorId>, seen: Journals, a: ActorId)
    requires a in m.active && m.active[a] in m.tasks
    ensures Concerns(m, TargetMap(seen, actors, Anything), a) <==> ActorsConcern(m, actors, seen, a)
  {
    var live := TargetsOf(LogOf(seen, a), Anything);
    if live != [] { assert live[0] in live; }
  }

  /** A cancel of some actors, as a tool of an agent asks for it, stops drains of those actors only,
      and only those whose claimed turn was live when it was committed, or that had claimed none. */
  lemma ActorsCancelStopsThem(w: World, p: InstanceId, settled: bool, a: ActorId)
    requires WorldOk(w) && Can(w, Return(p, settled)) && w.procs[p].hold.value.work.CancelActors?
    requires a in w.procs[p].active
    ensures var m, h := w.procs[p].(hold := None), w.procs[p].hold.value;
            var n := Do(w, Return(p, settled)).procs[p];
            Slotted(m) && if ActorsConcern(m, h.work.actors, h.seen, a) then IsStopped(m, n, a) else GoesOn(m, n, a)
  {
    var m, h := w.procs[p].(hold := None), w.procs[p].hold.value;
    WrittenMemory(w, p);
    CancelIsExact(m, StopTargets(h.work, h.seen, w.root));
    ActorsTargets(m, h.work.actors, h.seen, a);
  }
}
