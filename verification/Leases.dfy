/** What a root's owner can count on: leases, submissions, answers and deletions, step by step. */
module Leases {
  import opened Basics
  import opened Coordinator

  /** The instance holds the lease under this generation until `end`, and nobody else does. */
  ghost predicate Holds(t: Tables, me: InstanceId, g: nat, end: nat) {
    forall i, h: nat, now: nat :: Fence(t, i, h, now) <==> i == me && h == g && now < end
  }

  ghost predicate NobodyHolds(t: Tables) {
    forall i, h: nat, now: nat :: !Fence(t, i, h, now)
  }

  /** Somebody holds the lease now. */
  predicate Held(t: Tables, now: nat) {
    t.row.Some? && Unexpired(t.row.value, now)
  }

  /** A root can be acquired unless it is deleted or another instance holds it.  A holder gets its
      own lease back as it is; anyone else a new one, under a new generation. */
  lemma AcquireIsExact(db: Db, me: InstanceId, ttl: nat)
    requires Inv(db) && db.txn.None?
    ensures Enabled(db, Acquire(me, ttl)) <==> !db.tables.deleted && (Held(db.tables, db.clock) ==> db.tables.row.value.owner == Some(me))
    ensures Enabled(db, Acquire(me, ttl)) ==>
              var n := Next(db, Acquire(me, ttl));
              if Held(db.tables, db.clock) then n == db
              else n == db.(tables := db.tables.(row := n.tables.row))
                   && Holds(n.tables, me, GenerationOf(db.tables) + 1, db.clock + ttl)
  {
  }

  /** A renewal extends the lease from now on; a release gives it up and burns nothing. */
  lemma RenewIsExact(db: Db, me: InstanceId, g: nat, ttl: nat)
    requires Enabled(db, Renew(me, g, ttl))
    ensures var n := Next(db, Renew(me, g, ttl));
            n == db.(tables := db.tables.(row := n.tables.row)) && Holds(n.tables, me, g, db.clock + ttl)
  {
  }

  lemma ReleaseIsExact(db: Db, me: InstanceId, g: nat)
    requires Enabled(db, Release(me, g, false))
    ensures var n := Next(db, Release(me, g, false));
            n == db.(tables := db.tables.(row := n.tables.row)) && NobodyHolds(n.tables) && GenerationOf(n.tables) == g
  {
  }

  /** A submission adds or readdresses one request.  It can be taken up, until its deadline, by a
      transaction of the ownership it is addressed to and by no other; an answered one stays. */
  lemma SubmissionIsExact(db: Db, id: RequestId, e: Envelope, i: InstanceId, g: nat)
    requires Enabled(db, Put(id, e, i, g))
    ensures var n := Next(db, Put(id, e, i, g));
            && n == db.(tables := db.tables.(requests := n.tables.requests))
            && n.tables.requests.Keys == db.tables.requests.Keys + {id}
            && (forall x :: x in db.tables.requests && x != id ==> n.tables.requests[x] == db.tables.requests[x])
            && n.tables.requests[id].envelope == e
            && (id in db.tables.requests && db.tables.requests[id].reply.Some? ==> n == db)
            && (id in db.tables.requests ==> n.tables.requests[id].created == db.tables.requests[id].created
                                             && n.tables.requests[id].reply == db.tables.requests[id].reply)
            && (id !in db.tables.requests ==> n.tables.requests[id].created == db.clock && n.tables.requests[id].reply.None?)
  {
  }

  lemma TakenUpByItsOwner(db: Db, id: RequestId, e: Envelope, i: InstanceId, g: nat)
    requires Enabled(db, Put(id, e, i, g))
    ensures var n := Next(db, Put(id, e, i, g));
            Enabled(n, Begin(i, g))
            && (Enabled(Next(n, Begin(i, g)), LockRequest(id)) <==> n.tables.requests[id].reply.None? && db.clock < e.deadline)
  {
  }

  /** Nothing but a commit makes the work of a transaction visible. */
  lemma OnlyCommitsShow(db: Db, step: Step)
    requires Enabled(db, step)
    ensures step.Begin? || step.LockRequest? || step.Write? || step.DeleteTree? || step.Answer? || step.FinishDeletion? || step.Abort? || step.Tick?
            ==> Next(db, step).tables == db.tables
    ensures step.Commit? ==> Next(db, step) == Db(db.clock, db.txn.value.work, None)
    ensures step.Begin? ==> Next(db, step).txn == Some(Txn(step.me, step.generation, db.tables, None, false, false))
    ensures step.Abort? ==> Next(db, step).txn.None?
  {
  }

  /** The steps from `j` to `k` end no transaction. */
  ghost predicate Within(r: Run, j: nat, k: nat)
    requires k <= |r.steps|
  {
    forall i :: j <= i < k ==> !r.steps[i].Commit? && !r.steps[i].Abort?
  }

  /** The open transaction has answered its request with this reply, then. */
  ghost predicate HasAnswered(db: Db, id: RequestId, reply: Reply, at: nat) {
    db.txn.Some? && db.txn.value.locked == Some(id) && db.txn.value.applied
    && id in db.txn.value.work.requests && db.txn.value.work.requests[id].reply == Some(reply)
    && db.txn.value.work.requests[id].completed == at
  }

  lemma AnswerStands(db: Db, step: Step, id: RequestId, reply: Reply, at: nat)
    requires Enabled(db, step) && !step.Commit? && !step.Abort? && HasAnswered(db, id, reply, at)
    ensures HasAnswered(Next(db, step), id, reply, at)
  {
  }

  /** A transaction that answers its request and commits leaves that very reply, completed when it
      was given. */
  lemma {:induction false} AnswerIsCommitted(r: Run, j: nat, k: nat, i: nat)
    requires IsRun(r) && j < i <= k < |r.steps| && r.steps[j].Answer? && Within(r, j + 1, k)
    ensures r.states[j].txn.Some? && r.states[j].txn.value.locked.Some?
            && HasAnswered(r.states[i], r.states[j].txn.value.locked.value, r.steps[j].reply, r.states[j].clock)
    decreases i
  {
    if i > j + 1 {
      AnswerIsCommitted(r, j, k, i - 1);
      AnswerStands(r.states[i - 1], r.steps[i - 1], r.states[j].txn.value.locked.value, r.steps[j].reply, r.states[j].clock);
    }
  }

  lemma AnswerIsKept(r: Run, j: nat, k: nat)
    requires IsRun(r) && j < k < |r.steps| && r.steps[j].Answer? && r.steps[k].Commit? && Within(r, j + 1, k)
    ensures r.states[j].txn.Some? && r.states[j].txn.value.locked.Some?
            && var id, after := r.states[j].txn.value.locked.value, r.states[k + 1].tables.requests;
               id in after && after[id].reply == Some(r.steps[j].reply) && after[id].completed == r.states[j].clock
  {
    AnswerIsCommitted(r, j, k, k);
  }

  lemma DeletionStands(db: Db, step: Step)
    requires Enabled(db, step) && !step.Commit? && !step.Abort? && db.txn.Some? && db.txn.value.work.deleted
    ensures Next(db, step).txn.Some? && Next(db, step).txn.value.work.deleted
  {
  }

  /** A transaction that deletes the tree and commits leaves it deleted. */
  lemma {:induction false} DeletionIsCommitted(r: Run, j: nat, k: nat, i: nat)
    requires IsRun(r) && j < i <= k < |r.steps| && r.steps[j].DeleteTree? && Within(r, j + 1, k)
    ensures r.states[i].txn.Some? && r.states[i].txn.value.work.deleted
    ensures r.steps[k].Commit? && i == k ==> r.states[k + 1].tables.deleted
    decreases i
  {
    if i > j + 1 {
      DeletionIsCommitted(r, j, i - 1, i - 1);
      DeletionStands(r.states[i - 1], r.steps[i - 1]);
    }
  }

  /** A sweep takes one request, 24 hours after it was answered, or after its deadline if it never
      was, and not while it is being answered. */
  lemma SweepIsExact(db: Db, id: RequestId)
    requires Inv(db)
    ensures Enabled(db, Sweep(id)) <==>
              id in db.tables.requests && !(db.txn.Some? && db.txn.value.locked == Some(id))
              && db.clock > 86_400 + if db.tables.requests[id].reply.Some? then db.tables.requests[id].completed
                                     else db.tables.requests[id].envelope.deadline
    ensures Enabled(db, Sweep(id)) ==>
              var n := Next(db, Sweep(id)).tables;
              n == db.tables.(requests := n.requests) && n.requests == db.tables.requests - {id}
  {
  }
}
