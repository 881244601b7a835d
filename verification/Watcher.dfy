/** Watching a tree: any number of watchers share one cached snapshot, and none of them sleeps
    through a change. */
module Watcher {
  import opened Basics

  type Id = nat

  /** A snapshot carries the tree generation its read began under, and the version of the data
      it shows. */
  datatype Snapshot = Snapshot(tag: nat, version: nat)

  /** Where a watcher is.  `event` is the generation whose change event it took; a read began at
      version `from`. */
  datatype Phase =
    | Idle
    | Queueing(event: nat)
    | Locked(event: nat)
    | Reading(event: nat, tag: nat, from: nat)
    | Holding(event: nat, seen: Snapshot)
    | Waiting(event: nat, seen: Snapshot)

  /** `version` counts changes to the data; `noticed` is the last one a notice announced. */
  datatype Tree = Tree(
    generation: nat, version: nat, noticed: nat, snapshot: Option<Snapshot>,
    lock: Option<Id>, watchers: map<Id, Phase>)

  datatype Step =
    | Change                  // a header or status changes
    | Notice                  // `_tree_changed`: a new generation, a new event
    | Join(w: Id)
    | Leave(w: Id)
    | Begin(w: Id)            // take the event of this generation
    | Acquire(w: Id)
    | Hit(w: Id)              // the cached snapshot has this generation's tag
    | StartRead(w: Id)
    | FinishRead(w: Id, shown: nat)   // the read shows some version between its start and its end
    | FailRead(w: Id)
    | Wait(w: Id)
    | Wake(w: Id)

  predicate Is(t: Tree, w: Id) { w in t.watchers }

  /** The event of a generation is set once a later generation begins. */
  predicate IsSet(t: Tree, event: nat) { event < t.generation }

  predicate Enabled(t: Tree, s: Step) {
    match s
    case Change => true
    case Notice => true
    case Join(w) => !Is(t, w)
    case Leave(w) => Is(t, w) && t.lock != Some(w)
    case Begin(w) => Is(t, w) && t.watchers[w] == Idle
    case Acquire(w) => Is(t, w) && t.watchers[w].Queueing? && t.lock.None?
    case Hit(w) => Is(t, w) && t.watchers[w].Locked? && t.snapshot.Some? && t.snapshot.value.tag == t.generation
    case StartRead(w) => Is(t, w) && t.watchers[w].Locked?
    case FinishRead(w, shown) => Is(t, w) && t.watchers[w].Reading? && t.watchers[w].from <= shown <= t.version
    case FailRead(w) => Is(t, w) && (t.watchers[w].Reading? || t.watchers[w].Locked?)
    case Wait(w) => Is(t, w) && t.watchers[w].Holding?
    case Wake(w) => Is(t, w) && t.watchers[w].Waiting? && IsSet(t, t.watchers[w].event)
  }

  function Put(t: Tree, w: Id, p: Phase): Tree {
    t.(watchers := t.watchers[w := p])
  }

  function Next(t: Tree, s: Step): Tree
    requires Enabled(t, s)
  {
    match s
    case Change => t.(version := t.version + 1)
    case Notice => t.(generation := t.generation + 1, noticed := t.version)
    case Join(w) => Put(t, w, Idle)
    case Leave(w) => t.(watchers := t.watchers - {w})
    case Begin(w) => Put(t, w, Queueing(t.generation))
    case Acquire(w) => Put(t, w, Locked(t.watchers[w].event)).(lock := Some(w))
    case Hit(w) => Put(t, w, Holding(t.watchers[w].event, t.snapshot.value)).(lock := None)
    case StartRead(w) => Put(t, w, Reading(t.watchers[w].event, t.generation, t.version))
    case FinishRead(w, shown) =>
      var seen := Snapshot(t.watchers[w].tag, shown);
      Put(t, w, Holding(t.watchers[w].event, seen)).(lock := None, snapshot := Some(seen))
    case FailRead(w) => Put(t, w, Idle).(lock := None)
    case Wait(w) => Put(t, w, Waiting(t.watchers[w].event, t.watchers[w].seen))
    case Wake(w) => Put(t, w, Idle)
  }

  /** A snapshot with this generation's tag shows every announced change. */
  ghost predicate Current(t: Tree, s: Snapshot) {
    s.tag <= t.generation && (s.tag == t.generation ==> s.version >= t.noticed)
  }

  ghost predicate PhaseOk(t: Tree, p: Phase) {
    match p
    case Idle => true
    case Queueing(e) => e <= t.generation
    case Locked(e) => e <= t.generation
    case Reading(e, tag, from) => e <= tag && Current(t, Snapshot(tag, from))
    case Holding(e, seen) => e <= seen.tag && Current(t, seen)
    case Waiting(e, seen) => e <= seen.tag && Current(t, seen)
  }

  ghost predicate Inv(t: Tree) {
    && t.noticed <= t.version
    && (t.snapshot.Some? ==> Current(t, t.snapshot.value))
    && (forall w :: w in t.watchers ==> PhaseOk(t, t.watchers[w]))
    && (forall w :: w in t.watchers && (t.watchers[w].Locked? || t.watchers[w].Reading?) ==> t.lock == Some(w))
    && (t.lock.Some? ==> t.lock.value in t.watchers && (t.watchers[t.lock.value].Locked? || t.watchers[t.lock.value].Reading?))
  }

  lemma StepKeepsInv(t: Tree, s: Step)
    requires Inv(t) && Enabled(t, s)
    ensures Inv(Next(t, s))
  {
    if s.Change? || s.Notice? || s.Leave? { SharedStep(t, s); }
    else if s.Acquire? || s.Hit? || s.FailRead? { LockStep(t, s); }
    else if s.StartRead? || s.FinishRead? { ReadStep(t, s); }
    else { OwnStep(t, s); }
  }

  /** A watcher enters a phase that suits the tree as it is, and the lock follows. */
  lemma EnterPhase(t: Tree, n: Tree, w: Id, p: Phase)
    requires Inv(t) && n == t.(watchers := t.watchers[w := p], lock := n.lock, snapshot := n.snapshot)
    requires PhaseOk(t, p) && (n.snapshot.Some? ==> Current(t, n.snapshot.value))
    requires if p.Locked? || p.Reading? then n.lock == Some(w) && (t.lock.None? || t.lock == Some(w))
             else n.lock == if t.lock == Some(w) then None else t.lock
    ensures Inv(n)
  {
    forall x | x in n.watchers ensures PhaseOk(n, n.watchers[x]) {
      if x != w { assert PhaseOk(t, t.watchers[x]); }
    }
  }

  lemma SharedStep(t: Tree, s: Step)
    requires Inv(t) && Enabled(t, s) && (s.Change? || s.Notice? || s.Leave?)
    ensures Inv(Next(t, s))
  {
    var n := Next(t, s);
    forall w | w in n.watchers ensures PhaseOk(n, n.watchers[w]) { assert PhaseOk(t, t.watchers[w]); }
  }

  lemma LockStep(t: Tree, s: Step)
    requires Inv(t) && Enabled(t, s) && (s.Acquire? || s.Hit? || s.FailRead?)
    ensures Inv(Next(t, s))
  {
    assert PhaseOk(t, t.watchers[s.w]);
    EnterPhase(t, Next(t, s), s.w, Next(t, s).watchers[s.w]);
  }

  lemma ReadStep(t: Tree, s: Step)
    requires Inv(t) && Enabled(t, s) && (s.StartRead? || s.FinishRead?)
    ensures Inv(Next(t, s))
  {
    assert PhaseOk(t, t.watchers[s.w]);
    EnterPhase(t, Next(t, s), s.w, Next(t, s).watchers[s.w]);
  }

  lemma OwnStep(t: Tree, s: Step)
    requires Inv(t) && Enabled(t, s) && (s.Join? || s.Begin? || s.Wait? || s.Wake?)
    ensures Inv(Next(t, s))
  {
    if !s.Join? { assert PhaseOk(t, t.watchers[s.w]); }
    EnterPhase(t, Next(t, s), s.w, Next(t, s).watchers[s.w]);
  }

  ghost predicate IsRun(states: seq<Tree>, steps: seq<Step>) {
    && |states| == |steps| + 1
    && forall i :: 0 <= i < |steps| ==> Enabled(states[i], steps[i]) && states[i + 1] == Next(states[i], steps[i])
  }

  lemma {:induction false} RunInv(states: seq<Tree>, steps: seq<Step>, i: nat)
    requires IsRun(states, steps) && Inv(states[0]) && i < |states|
    ensures Inv(states[i])
  {
    if i > 0 {
      RunInv(states, steps, i - 1);
      StepKeepsInv(states[i - 1], steps[i - 1]);
    }
  }

  /** In every state of every run, a watcher that is blocked has last seen a snapshot with the
      current generation's tag, which shows every change announced so far. */
  lemma NoNoticeIsLost(states: seq<Tree>, steps: seq<Step>, i: nat, w: Id)
    requires IsRun(states, steps) && Inv(states[0]) && i < |states|
    requires w in states[i].watchers && states[i].watchers[w].Waiting? && !IsSet(states[i], states[i].watchers[w].event)
    ensures states[i].watchers[w].seen.tag == states[i].generation
    ensures states[i].watchers[w].seen.version >= states[i].noticed
  {
    RunInv(states, steps, i);
    assert PhaseOk(states[i], states[i].watchers[w]);
  }

  /** A notice wakes every watcher that was blocked, and the lock is never left behind: whoever holds
      it is about to look or is reading. */
  lemma NoticeWakesAll(t: Tree, w: Id)
    requires Inv(t) && w in t.watchers && t.watchers[w].Waiting?
    ensures Enabled(Next(t, Notice), Wake(w)) && Next(Next(t, Notice), Wake(w)).watchers[w] == Idle
  {
    assert PhaseOk(t, t.watchers[w]);
  }

  lemma LockIsHeld(states: seq<Tree>, steps: seq<Step>, i: nat)
    requires IsRun(states, steps) && Inv(states[0]) && i < |states| && states[i].lock.Some?
    ensures var w := states[i].lock.value;
            w in states[i].watchers && (states[i].watchers[w].Locked? || states[i].watchers[w].Reading?)
            && Enabled(states[i], FailRead(w)) && Next(states[i], FailRead(w)).lock.None?
  {
    RunInv(states, steps, i);
  }

  /** What one watcher has read serves all others of the same generation. */
  lemma ReadIsShared(t: Tree, w: Id, shown: nat, x: Id)
    requires Inv(t) && Enabled(t, FinishRead(w, shown)) && x in t.watchers && t.watchers[x].Queueing?
    ensures var n := Next(t, FinishRead(w, shown));
            Enabled(n, Acquire(x))
            && (Enabled(Next(n, Acquire(x)), Hit(x)) <==> t.watchers[w].tag == t.generation)
            && (t.watchers[w].tag == t.generation ==>
                  Next(Next(n, Acquire(x)), Hit(x)).watchers[x] == Holding(t.watchers[x].event, Snapshot(t.generation, shown)))
  {
  }

  /** At most one watcher reads at a time. */
  lemma OneReader(states: seq<Tree>, steps: seq<Step>, i: nat, w: Id, x: Id)
    requires IsRun(states, steps) && Inv(states[0]) && i < |states|
    requires w in states[i].watchers && x in states[i].watchers && states[i].watchers[w].Reading? && states[i].watchers[x].Reading?
    ensures w == x
  {
    RunInv(states, steps, i);
  }
}
