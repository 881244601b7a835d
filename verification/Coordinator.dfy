/** The shared database of one root as the coordinator uses it: the leased and fenced
    root row, the request table, and transactions that hold the root row's lock from
    begin to commit.  Every coordinator operation is one step of a state machine whose
    clock may move between any two steps, also while a transaction is open. */
module Coordinator {
  import opened Basics

  type InstanceId = nat
  type RequestId = nat
  type Reply = string

  /** Completed requests are swept this long after completion (24 hours). */
  const RETENTION: nat := 86_400

  datatype Row = Row(owner: Option<InstanceId>, generation: nat, expires: Option<nat>)

  datatype Envelope = Envelope(payload: string, deadline: nat)

  datatype Request = Request(envelope: Envelope, instance: InstanceId, generation: nat,
                             created: nat, reply: Option<Reply>, completed: nat)

  datatype Tables = Tables(row: Option<Row>, deleted: bool, requests: map<RequestId, Request>)

  /** An open transaction: the ownership it was begun with, its uncommitted view, the
      request it has locked and whether it has answered it. */
  datatype Txn = Txn(instance: InstanceId, generation: nat, work: Tables,
                     locked: Option<RequestId>, applied: bool, finished: bool)

  datatype Db = Db(clock: nat, tables: Tables, txn: Option<Txn>)

  const Empty := Db(0, Tables(None, false, map[]), None)

  datatype Step =
    | Tick(seconds: nat)
    | Acquire(me: InstanceId, ttl: nat)
    | Renew(me: InstanceId, generation: nat, ttl: nat)
    | Release(me: InstanceId, generation: nat, busy: bool)
    | Put(id: RequestId, envelope: Envelope, instance: InstanceId, generation: nat)
    | Begin(me: InstanceId, generation: nat)
    | LockRequest(id: RequestId)
    | Write
    | DeleteTree
    | Answer(reply: Reply)
    | FinishDeletion
    | Commit
    | Abort
    | Sweep(id: RequestId)

  predicate Unexpired(row: Row, now: nat) {
    row.expires.Some? && row.expires.value > now
  }

  /** The fence: the row names this owner and generation and has not expired. */
  predicate Fence(t: Tables, me: InstanceId, generation: nat, now: nat) {
    t.row.Some? && t.row.value.owner == Some(me) && t.row.value.generation == generation
    && Unexpired(t.row.value, now)
  }

  /** What `acquire` grants, if anything. */
  function Granted(t: Tables, me: InstanceId, ttl: nat, now: nat): Option<Row> {
    if t.deleted then None
    else
      var row := if t.row.Some? then t.row.value else Row(None, 0, None);
      if Unexpired(row, now) then (if row.owner == Some(me) then Some(row) else None)
      else Some(Row(Some(me), row.generation + 1, Some(now + ttl)))
  }

  predicate Enabled(db: Db, step: Step) {
    match step
    case Tick(_) => true
    case Acquire(me, ttl) => db.txn.None? && Granted(db.tables, me, ttl, db.clock).Some?
    case Renew(me, g, _) => db.txn.None? && Fence(db.tables, me, g, db.clock)
    case Release(me, g, busy) => db.txn.None? && Fence(db.tables, me, g, db.clock) && !busy
    case Put(id, envelope, i, g) =>
      db.txn.None? && !db.tables.deleted && Fence(db.tables, i, g, db.clock)
      && (id in db.tables.requests ==> db.tables.requests[id].envelope == envelope)
    case Begin(me, g) => db.txn.None? && Fence(db.tables, me, g, db.clock)
    case LockRequest(id) =>
      db.txn.Some? &&
      var x := db.txn.value;
      Fence(x.work, x.instance, x.generation, db.clock)
      && x.locked.None? && id in x.work.requests
      && var q := x.work.requests[id];
         q.reply.None? && q.envelope.deadline > db.clock && q.instance == x.instance && q.generation == x.generation
    case Write => db.txn.Some? && Fence(db.txn.value.work, db.txn.value.instance, db.txn.value.generation, db.clock)
    case DeleteTree =>
      db.txn.Some? && Fence(db.txn.value.work, db.txn.value.instance, db.txn.value.generation, db.clock)
      && db.txn.value.locked.Some? && !db.txn.value.applied
    case Answer(_) =>
      db.txn.Some? &&
      var x := db.txn.value;
      Fence(x.work, x.instance, x.generation, db.clock)
      && x.locked.Some? && x.locked.value in x.work.requests
      && var q := x.work.requests[x.locked.value];
         q.reply.None? && q.instance == x.instance && q.generation == x.generation
    case FinishDeletion =>
      db.txn.Some? && Fence(db.txn.value.work, db.txn.value.instance, db.txn.value.generation, db.clock)
      && db.txn.value.applied && db.txn.value.work.deleted && !db.txn.value.finished
    case Commit =>
      db.txn.Some?
      && (db.txn.value.locked.Some? ==> db.txn.value.applied)
      && (db.txn.value.work.deleted ==> db.txn.value.finished)
    case Abort => db.txn.Some?
    case Sweep(id) =>
      id in db.tables.requests
      && (db.txn.Some? ==> db.txn.value.locked != Some(id))
      && var q := db.tables.requests[id];
         (if q.reply.Some? then q.completed else q.envelope.deadline) + RETENTION < db.clock
  }

  function Next(db: Db, step: Step): Db
    requires Enabled(db, step)
  {
    match step
    case Tick(n) => db.(clock := db.clock + n)
    case Acquire(me, ttl) =>
      db.(tables := db.tables.(row := Granted(db.tables, me, ttl, db.clock)))
    case Renew(_, _, ttl) =>
      db.(tables := db.tables.(row := Some(db.tables.row.value.(expires := Some(db.clock + ttl)))))
    case Release(_, _, _) =>
      db.(tables := db.tables.(row := Some(db.tables.row.value.(owner := None, expires := None))))
    case Put(id, envelope, i, g) =>
      var q :=
        if id !in db.tables.requests then Request(envelope, i, g, db.clock, None, 0)
        else if db.tables.requests[id].reply.None? then db.tables.requests[id].(instance := i, generation := g)
        else db.tables.requests[id];
      db.(tables := db.tables.(requests := db.tables.requests[id := q]))
    case Begin(me, g) => db.(txn := Some(Txn(me, g, db.tables, None, false, false)))
    case LockRequest(id) => db.(txn := Some(db.txn.value.(locked := Some(id))))
    case Write => db
    case DeleteTree => db.(txn := Some(db.txn.value.(work := db.txn.value.work.(deleted := true))))
    case Answer(reply) =>
      var x := db.txn.value;
      var q := x.work.requests[x.locked.value].(reply := Some(reply), completed := db.clock);
      db.(txn := Some(x.(work := x.work.(requests := x.work.requests[x.locked.value := q]), applied := true)))
    case FinishDeletion =>
      var x := db.txn.value;
      var row := Row(None, x.work.row.value.generation + 1, None);
      db.(txn := Some(x.(work := x.work.(row := Some(row)), finished := true)))
    case Commit => db.(tables := db.txn.value.work, txn := None)
    case Abort => db.(txn := None)
    case Sweep(id) =>
      var rest := db.tables.(requests := db.tables.requests - {id});
      match db.txn
      case None => db.(tables := rest)
      case Some(x) => db.(tables := rest, txn := Some(x.(work := x.work.(requests := x.work.requests - {id}))))
  }

  /** A run: states and the steps between them, from the empty database. */
  datatype Run = Run(states: seq<Db>, steps: seq<Step>)

  ghost predicate IsRun(r: Run) {
    && |r.states| == |r.steps| + 1
    && r.states[0] == Empty
    && forall i :: 0 <= i < |r.steps| ==>
         Enabled(r.states[i], r.steps[i]) && r.states[i + 1] == Next(r.states[i], r.steps[i])
  }

  /* ---- the one-state invariant ---- */

  function GenerationOf(t: Tables): nat {
    if t.row.Some? then t.row.value.generation else 0
  }

  function OwnerOf(t: Tables): Option<InstanceId> {
    if t.row.Some? then t.row.value.owner else None
  }

  ghost predicate TablesOk(t: Tables) {
    && (t.row.Some? && t.row.value.expires.Some? ==> t.row.value.owner.Some?)
    && (t.deleted ==> t.row.Some? && t.row.value.owner.None? && t.row.value.expires.None?)
  }

  /** While a transaction is open the committed row still names it, whatever the clock says. */
  ghost predicate TxnOk(db: Db) {
    db.txn.Some? ==>
      var x := db.txn.value;
      && !db.tables.deleted
      && db.tables.row.Some?
      && db.tables.row.value.owner == Some(x.instance)
      && db.tables.row.value.generation == x.generation
      && x.work.row.Some?
      && (if x.finished then x.work.row == Some(Row(None, x.generation + 1, None))
          else x.work.row == db.tables.row)
      && (x.finished ==> x.work.deleted && x.applied)
      && (x.applied ==> x.locked.Some?)
      && x.work.requests.Keys == db.tables.requests.Keys
      && (forall id :: id in x.work.requests && x.work.requests[id] != db.tables.requests[id] ==>
            x.applied && x.locked == Some(id) && x.work.requests[id].reply.Some?
            && db.tables.requests[id].reply.None?
            && x.work.requests[id].envelope == db.tables.requests[id].envelope
            && x.work.requests[id].created == db.tables.requests[id].created
            && x.work.requests[id].completed >= db.tables.requests[id].created)
      && (x.applied ==> x.locked.value in x.work.requests && x.work.requests[x.locked.value] != db.tables.requests[x.locked.value])
      && (x.locked.Some? ==>
            && x.locked.value in x.work.requests
            && db.tables.requests[x.locked.value].reply.None?
            && (!x.applied ==> x.work.requests[x.locked.value] == db.tables.requests[x.locked.value]))
  }

  ghost predicate RequestsOk(db: Db) {
    forall id :: id in db.tables.requests ==>
      db.tables.requests[id].created <= db.clock
      && (db.tables.requests[id].reply.Some? ==> db.tables.requests[id].completed >= db.tables.requests[id].created)
  }

  ghost predicate Inv(db: Db) {
    TablesOk(db.tables) && TxnOk(db) && RequestsOk(db)
  }

  lemma StepTables(db: Db, step: Step)
    requires Inv(db) && Enabled(db, step)
    ensures TablesOk(Next(db, step).tables)
  {
  }

  lemma StepTxn(db: Db, step: Step)
    requires Inv(db) && Enabled(db, step)
    ensures TxnOk(Next(db, step))
  {
  }

  lemma StepRequests(db: Db, step: Step)
    requires Inv(db) && Enabled(db, step)
    ensures RequestsOk(Next(db, step))
  {
  }

  lemma StepKeepsInv(db: Db, step: Step)
    requires Inv(db) && Enabled(db, step)
    ensures Inv(Next(db, step))
  {
    StepTables(db, step);
    StepTxn(db, step);
    StepRequests(db, step);
  }

  lemma {:induction false} RunInv(r: Run, i: nat)
    requires IsRun(r) && i < |r.states|
    ensures Inv(r.states[i])
  {
    if i > 0 {
      RunInv(r, i - 1);
      StepKeepsInv(r.states[i - 1], r.steps[i - 1]);
    }
  }

  /* ---- fencing ---- */

  /** Row generations never go back, and within one generation the owner is only ever
      the same instance or nobody. */
  ghost predicate Later(a: Tables, b: Tables) {
    && GenerationOf(a) <= GenerationOf(b)
    && (GenerationOf(a) == GenerationOf(b) ==> OwnerOf(b) == OwnerOf(a) || OwnerOf(b).None?)
  }

  lemma StepLater(db: Db, step: Step)
    requires Inv(db) && Enabled(db, step)
    ensures Later(db.tables, Next(db, step).tables)
  {
  }

  lemma {:induction false} RunLater(r: Run, i: nat, k: nat)
    requires IsRun(r) && i <= k < |r.states|
    ensures Later(r.states[i].tables, r.states[k].tables)
    decreases k - i
  {
    if i < k {
      RunLater(r, i, k - 1);
      RunInv(r, k - 1);
      StepLater(r.states[k - 1], r.steps[k - 1]);
    }
  }

  /** Step `i` of the run commits a transaction. */
  predicate CommitsAt(r: Run, i: nat)
    requires |r.states| == |r.steps| + 1
  {
    i < |r.steps| && r.steps[i].Commit? && r.states[i].txn.Some?
  }

  /** Committed writes carry non-decreasing generations, and one generation never belongs
      to two instances; expiry of the lease between the last fence check and the commit
      does not matter. */
  lemma {:induction false} CommitsAreFenced(r: Run, i: nat, k: nat)
    requires IsRun(r) && i <= k && CommitsAt(r, i) && CommitsAt(r, k)
    ensures r.states[i].txn.value.generation <= r.states[k].txn.value.generation
    ensures r.states[i].txn.value.generation == r.states[k].txn.value.generation
            ==> r.states[i].txn.value.instance == r.states[k].txn.value.instance
  {
    RunInv(r, i);
    RunInv(r, k);
    RunLater(r, i, k);
  }

  /** Once an instance has acquired generation `g`, no transaction of an older generation
      commits any more, even one begun before its own lease ran out. */
  lemma {:induction false} OldOwnersNeverCommit(r: Run, i: nat, k: nat)
    requires IsRun(r) && i < k && i < |r.steps| && r.steps[i].Acquire? && CommitsAt(r, k)
    ensures r.states[k].txn.value.generation >= GenerationOf(r.states[i + 1].tables)
    ensures r.states[k].txn.value.generation == GenerationOf(r.states[i + 1].tables)
            ==> r.states[k].txn.value.instance == r.steps[i].me
  {
    RunInv(r, k);
    RunInv(r, i);
    RunLater(r, i + 1, k);
  }

  /* ---- requests ---- */

  predicate AppliesAt(r: Run, i: nat, id: RequestId)
    requires |r.states| == |r.steps| + 1
  {
    CommitsAt(r, i) && r.states[i].txn.value.locked == Some(id)
  }

  /** A request is only ever submitted with one envelope, and not before time `c`. */
  ghost predicate Resends(r: Run, id: RequestId, e: Envelope, c: nat) {
    && |r.states| == |r.steps| + 1
    && forall i :: 0 <= i < |r.steps| && r.steps[i].Put? && r.steps[i].id == id ==>
         r.steps[i].envelope == e && c <= r.states[i].clock
  }

  /** The deadline is reached before an answer given at `c` or later can be swept. */
  predicate Covered(e: Envelope, c: nat) {
    e.deadline <= c + RETENTION + 1
  }

  ghost predicate RowOk(db: Db, id: RequestId, e: Envelope, c: nat) {
    id in db.tables.requests ==> db.tables.requests[id].envelope == e && c <= db.tables.requests[id].created
  }

  lemma {:induction false} RunRows(r: Run, id: RequestId, e: Envelope, c: nat, i: nat)
    requires IsRun(r) && Resends(r, id, e, c) && i < |r.states|
    ensures RowOk(r.states[i], id, e, c)
  {
    if i > 0 {
      RunRows(r, id, e, c, i - 1);
      RunInv(r, i - 1);
      var db, step := r.states[i - 1], r.steps[i - 1];
      if step.Commit? {
        assert Next(db, step).tables.requests.Keys == db.tables.requests.Keys;
      }
    }
  }

  /** The request is answered, or its deadline has passed for good. */
  ghost predicate Settled(db: Db, id: RequestId, e: Envelope) {
    || (id in db.tables.requests && db.tables.requests[id].reply.Some?)
    || e.deadline <= db.clock
  }

  lemma StepKeepsSettled(db: Db, step: Step, id: RequestId, e: Envelope, c: nat)
    requires Inv(db) && RowOk(db, id, e, c) && Covered(e, c) && Enabled(db, step) && Settled(db, id, e)
    ensures Settled(Next(db, step), id, e)
  {
  }

  /** A transaction that has locked a request saw it unanswered before its deadline; the
      clock may since have passed the deadline but the row is still unanswered. */
  ghost predicate OpenLock(r: Run, i: nat, id: RequestId)
    requires IsRun(r) && i < |r.states|
  {
    r.states[i].txn.Some? && r.states[i].txn.value.locked == Some(id)
  }

  lemma {:induction false} NotLockedAfter(r: Run, id: RequestId, e: Envelope, c: nat, i: nat, k: nat)
    requires IsRun(r) && Resends(r, id, e, c) && Covered(e, c)
    requires i <= k < |r.states|
    requires Settled(r.states[i], id, e) && !OpenLock(r, i, id)
    ensures Settled(r.states[k], id, e) && !OpenLock(r, k, id)
    decreases k - i
  {
    if i < k {
      NotLockedAfter(r, id, e, c, i, k - 1);
      RunInv(r, k - 1);
      RunRows(r, id, e, c, k - 1);
      StepKeepsSettled(r.states[k - 1], r.steps[k - 1], id, e, c);
    }
  }

  /** A request whose deadline lies within the retention period of its submission is applied
      by at most one committed transaction, across owner changes, redirected destinations,
      failed handlers, lost replies and swept rows. */
  lemma {:induction false} AppliedAtMostOnce(r: Run, id: RequestId, e: Envelope, c: nat, i: nat, k: nat)
    requires IsRun(r) && Resends(r, id, e, c) && Covered(e, c)
    requires i < k && AppliesAt(r, i, id)
    ensures !AppliesAt(r, k, id)
  {
    if AppliesAt(r, k, id) {
      RunInv(r, i);
      RunRows(r, id, e, c, i);
      NotLockedAfter(r, id, e, c, i + 1, k);
    }
  }

  function Last(r: Run): Db
    requires |r.states| > 0
  {
    r.states[|r.states| - 1]
  }

  ghost function Extended(r: Run, step: Step): (x: Run)
    requires IsRun(r) && Enabled(Last(r), step)
    ensures IsRun(x) && Last(x) == Next(Last(r), step) && r.states <= x.states
    ensures x.steps == r.steps + [step]
  {
    Run(r.states + [Next(Last(r), step)], r.steps + [step])
  }

  /** A request put for instance 1 of generation `g`, whose lease and deadline still last. */
  ghost predicate Awaited(db: Db, id: RequestId, g: nat) {
    && db.txn.None? && !db.tables.deleted && id in db.tables.requests
    && db.tables.row == Some(Row(Some(1), g, Some(db.clock + 60)))
    && db.tables.requests[id].reply.None? && db.tables.requests[id].instance == 1
    && db.tables.requests[id].generation == g && db.tables.requests[id].envelope.deadline > db.clock
  }

  /** The request is answered now. */
  ghost predicate Served(db: Db, id: RequestId) {
    db.txn.None? && !db.tables.deleted && id in db.tables.requests
    && db.tables.requests[id].reply.Some? && db.tables.requests[id].completed == db.clock
  }

  lemma ServeSteps(d: Db, id: RequestId, g: nat) returns (d1: Db, d2: Db, d3: Db)
    requires Awaited(d, id, g)
    ensures Enabled(d, Begin(1, g)) && d1 == Next(d, Begin(1, g))
    ensures Enabled(d1, LockRequest(id)) && d2 == Next(d1, LockRequest(id))
    ensures Enabled(d2, Answer("ok")) && d3 == Next(d2, Answer("ok"))
    ensures Enabled(d3, Commit) && d3.txn.Some? && d3.txn.value.locked == Some(id) && d3.txn.value.applied
    ensures var n := Next(d3, Commit); Served(n, id) && n.clock == d.clock && n.tables.row == d.tables.row
  {
    d1 := Next(d, Begin(1, g));
    d2 := Next(d1, LockRequest(id));
    d3 := Next(d2, Answer("ok"));
  }

  /** The owner of a freshly submitted request serves it in one transaction. */
  lemma ServeRound(r: Run, id: RequestId, g: nat) returns (x: Run)
    requires IsRun(r) && Awaited(Last(r), id, g)
    ensures IsRun(x) && x.steps == r.steps + [Begin(1, g)] + [LockRequest(id)] + [Answer("ok")] + [Commit] && r.states <= x.states
    ensures AppliesAt(x, |r.steps| + 3, id)
    ensures Served(Last(x), id) && Last(x).clock == Last(r).clock && Last(x).tables.row == Last(r).tables.row
  {
    var d1, d2, d3 := ServeSteps(Last(r), id, g);
    var r1 := Extended(r, Begin(1, g));
    var r2 := Extended(r1, LockRequest(id));
    var r3 := Extended(r2, Answer("ok"));
    x := Extended(r3, Commit);
    assert x.states[|r.steps| + 3] == d3;
  }

  /** From an idle expired root, a fresh request is put and awaited. */
  lemma PutSteps(d: Db, id: RequestId, e: Envelope) returns (g: nat)
    requires d.txn.None? && !d.tables.deleted && id !in d.tables.requests && e.deadline > d.clock
    requires d.tables.row.Some? ==> !Unexpired(d.tables.row.value, d.clock)
    ensures Enabled(d, Acquire(1, 60)) && Enabled(Next(d, Acquire(1, 60)), Put(id, e, 1, g))
    ensures var n := Next(Next(d, Acquire(1, 60)), Put(id, e, 1, g)); Awaited(n, id, g) && n.clock == d.clock
  {
    g := GenerationOf(Next(d, Acquire(1, 60)).tables);
  }

  /** Six steps then submit and apply it. */
  lemma ApplyRound(r: Run, id: RequestId, e: Envelope) returns (x: Run)
    requires IsRun(r) && e.deadline > Last(r).clock
    requires var db := Last(r); db.txn.None? && !db.tables.deleted && id !in db.tables.requests
                                && (db.tables.row.Some? ==> !Unexpired(db.tables.row.value, db.clock))
    ensures IsRun(x) && r.steps <= x.steps && r.states <= x.states
    ensures |x.steps| == |r.steps| + 6 && AppliesAt(x, |r.steps| + 5, id)
    ensures forall n :: |r.steps| <= n < |x.steps| && x.steps[n].Put? ==> x.steps[n].envelope == e && x.states[n].clock == Last(r).clock
    ensures Served(Last(x), id) && Last(x).clock == Last(r).clock
    ensures Last(x).tables.row.Some? && Last(x).tables.row.value.expires == Some(Last(x).clock + 60)
  {
    var g := PutSteps(Last(r), id, e);
    var r1 := Extended(r, Acquire(1, 60));
    var r2 := Extended(r1, Put(id, e, 1, g));
    x := ServeRound(r2, id, g);
    assert x.states[|r1.steps|] == Last(r1);
  }

  lemma OnlyPuts(start: Run, r0: Run, r2: Run, r: Run, id: RequestId, e: Envelope, c: nat)
    requires IsRun(start) && IsRun(r0) && IsRun(r2) && IsRun(r)
    requires start.steps == [Tick(c)] && Last(start).clock == c && |r0.steps| == 7 && |r2.steps| == 9 && |r.steps| == 15
    requires start.steps <= r0.steps <= r2.steps <= r.steps && start.states <= r0.states <= r2.states <= r.states
    requires forall n :: 1 <= n < 7 && r0.steps[n].Put? ==> r0.steps[n].envelope == e && r0.states[n].clock == c
    requires r2.steps[7] == Tick(RETENTION + 1) && r2.steps[8] == Sweep(id)
    requires forall n :: 9 <= n < 15 && r.steps[n].Put? ==> r.steps[n].envelope == e && r.states[n].clock >= c
    ensures Resends(r, id, e, c)
  {
    assert r.steps[7] == r2.steps[7] && r.steps[8] == r2.steps[8] && r.steps[0] == r0.steps[0] == start.steps[0];
    forall n | 0 <= n < |r.steps| && r.steps[n].Put? && r.steps[n].id == id ensures r.steps[n].envelope == e && c <= r.states[n].clock {
      if n < 7 { assert r.steps[n] == r0.steps[n] && r.states[n] == r0.states[n]; }
    }
  }

  /** A deadline further away lets a request be answered, swept, submitted again and applied a
      second time. */
  lemma LongDeadlineAppliesTwice(id: RequestId, e: Envelope, c: nat) returns (r: Run)
    requires !Covered(e, c)
    ensures IsRun(r) && Resends(r, id, e, c) && AppliesAt(r, 6, id) && AppliesAt(r, 14, id)
  {
    var start := Extended(Run([Empty], []), Tick(c));
    var r0 := ApplyRound(start, id, e);
    SweptAway(Last(r0), id);
    var r1 := Extended(r0, Tick(RETENTION + 1));
    var r2 := Extended(r1, Sweep(id));
    r := ApplyRound(r2, id, e);
    assert r.states[6] == r0.states[6] && r.steps[6] == r0.steps[6];
    OnlyPuts(start, r0, r2, r, id, e, c);
  }

  /** Past the retention period an answered request is swept, and the root's lease is over. */
  lemma SweptAway(d: Db, id: RequestId)
    requires Served(d, id) && d.tables.row.Some? && d.tables.row.value.expires == Some(d.clock + 60)
    ensures var later := Next(d, Tick(RETENTION + 1));
            Enabled(later, Sweep(id))
            && var n := Next(later, Sweep(id));
               n.clock == d.clock + RETENTION + 1 && n.txn.None? && !n.tables.deleted && id !in n.tables.requests
               && n.tables.row.Some? && !Unexpired(n.tables.row.value, n.clock)
  {
  }

  /** For every request id, envelope and time of submission: no run applies it twice if and only
      if the deadline lies within the retention period of the submission. */
  lemma AtMostOnceIsExact(id: RequestId, e: Envelope, c: nat)
    ensures Covered(e, c) <==>
            forall r, i, k :: IsRun(r) && Resends(r, id, e, c) && i < k && AppliesAt(r, i, id) ==> !AppliesAt(r, k, id)
  {
    if Covered(e, c) {
      forall r, i, k | IsRun(r) && Resends(r, id, e, c) && i < k && AppliesAt(r, i, id) ensures !AppliesAt(r, k, id) {
        AppliedAtMostOnce(r, id, e, c, i, k);
      }
    } else {
      var r := LongDeadlineAppliesTwice(id, e, c);
    }
  }

  /** A reply, once set, is the reply for as long as the row exists. */
  lemma {:induction false} ReplyIsFinal(r: Run, id: RequestId, i: nat, k: nat)
    requires IsRun(r) && i <= k < |r.states|
    requires id in r.states[i].tables.requests && r.states[i].tables.requests[id].reply.Some?
    requires forall n :: i <= n < k ==> r.steps[n] != Sweep(id)
    ensures id in r.states[k].tables.requests
    ensures r.states[k].tables.requests[id].reply == r.states[i].tables.requests[id].reply
    decreases k - i
  {
    if i < k {
      ReplyIsFinal(r, id, i, k - 1);
      RunInv(r, k - 1);
    }
  }

  /* ---- deletion ---- */

  lemma StepKeepsDeleted(db: Db, step: Step)
    requires Inv(db) && Enabled(db, step) && db.tables.deleted
    ensures Next(db, step).tables.deleted && Next(db, step).txn.None?
    ensures step.Tick? || step.Sweep?
  {
  }

  /** Once a deletion has committed, no acquire, renew, release, transaction or submission
      succeeds again for any ownership, issued before or after. */
  lemma {:induction false} DeletionIsFinal(r: Run, i: nat, k: nat)
    requires IsRun(r) && i <= k < |r.steps|
    requires r.states[i].tables.deleted
    ensures r.states[k].tables.deleted
    ensures r.steps[k].Tick? || r.steps[k].Sweep?
    decreases k - i
  {
    if i < k {
      DeletionIsFinal(r, i, k - 1);
    }
    RunInv(r, k);
    if i < k { RunInv(r, k - 1); StepKeepsDeleted(r.states[k - 1], r.steps[k - 1]); }
    StepKeepsDeleted(r.states[k], r.steps[k]);
  }

  /** Every committed deletion also gives up the lease and burns a generation. */
  lemma DeletionRetiresTheRow(r: Run, i: nat)
    requires IsRun(r) && CommitsAt(r, i) && r.states[i + 1].tables.deleted
    ensures r.states[i + 1].tables.row == Some(Row(None, r.states[i].txn.value.generation + 1, None))
  {
    RunInv(r, i);
  }
}
