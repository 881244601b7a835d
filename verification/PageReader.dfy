/** `page`: what a reader gets for its cursor while other readers, writers and the store carry
    on. */
module PageReader {
  import opened Basics
  import opened Pages

  const READ_LIMIT := 1000

  /** What others may do to the cache and the store while a reader awaits. */
  datatype Op =
    | Appends(sid: string, event: string, bytes: nat)
    | Retains(sid: string)
    | Releases(sid: string)
    | Invalidates(sid: string)
    | Publishes(sid: string, first: nat, count: nat)
    | Closes

  /** Another reader's fetch: the cursor it began at, and how much of the journal it sees. */
  datatype Flight = Flight(begin: nat, seen: nat)

  /** One turn of the retry loop: the flight the reader finds, if any; what happens before and
      after the flight's read; and whether the wait is cancelled. */
  datatype Round = Round(joined: Option<Flight>, before: seq<Op>, later: seq<Op>, cancelled: bool)

  datatype Served = Items(page: seq<Stamped>) | NotFound | Cancelled | Waiting

  /** Journals only grow. */
  ghost predicate Grew(was: map<string, seq<Stamped>>, now: map<string, seq<Stamped>>) {
    forall sid :: sid in was ==> sid in now && was[sid] <= now[sid]
  }

  lemma GrewTwice(a: map<string, seq<Stamped>>, b: map<string, seq<Stamped>>, c: map<string, seq<Stamped>>)
    requires Grew(a, b) && Grew(b, c)
    ensures Grew(a, c)
  {
    forall sid | sid in a ensures sid in c && a[sid] <= c[sid] {
      assert sid in b && a[sid] <= b[sid] && b[sid] <= c[sid];
    }
  }

  lemma BlockGrows(was: seq<Stamped>, now: seq<Stamped>, after: nat, page: seq<Stamped>)
    requires was <= now && BlockAfter(was, after, page)
    ensures BlockAfter(now, after, page)
  {
    if page != [] { assert now[after..after + |page|] == was[after..after + |page|]; }
  }

  /** How many of `n` events lie past a cursor, up to a limit. */
  function AtMost(limit: nat, n: nat, after: nat): nat {
    if n <= after then 0 else if n - after < limit then n - after else limit
  }

  /** `read_page`: at most `limit` events after a cursor, of what the store holds. */
  function Read(journal: seq<Stamped>, after: nat, limit: nat): (page: seq<Stamped>)
    ensures BlockAfter(journal, after, page)
    ensures |page| == AtMost(limit, |journal|, after)
  {
    if after >= |journal| then [] else if after + limit <= |journal| then journal[after..after + limit] else journal[after..]
  }

  method PublishRead(cache: CommittedPages, sid: string, first: nat, count: nat)
    requires cache.Valid() && sid in cache.journals
    modifies cache
    ensures cache.Valid() && cache.journals == old(cache.journals) && cache.closed == old(cache.closed)
  {
    ReadIsCommitted(cache.journals[sid], first, count);
    cache.Publish(sid, Read(cache.journals[sid], first, count));
  }

  lemma ReadIsCommitted(journal: seq<Stamped>, first: nat, count: nat)
    requires Numbered(journal)
    ensures Committed(journal, Read(journal, first, count))
  {
    FetchedIsBlock(journal, first, Read(journal, first, count));
  }

  /** One step of the others; a step that is not theirs to take does nothing. */
  method Perform(cache: CommittedPages, op: Op)
    requires cache.Valid()
    modifies cache
    ensures cache.Valid() && Grew(old(cache.journals), cache.journals)
    ensures old(cache.closed) ==> cache.closed
  {
    match op
    case Appends(sid, event, bytes) =>
      if sid in cache.journals { cache.Commit(sid, [Stamped(|cache.journals[sid]| + 1, event, bytes)]); }
    case Retains(sid) => cache.Retain(sid);
    case Releases(sid) =>
      if sid in cache.readers && cache.readers[sid].users > 0 { cache.Release(sid); }
    case Invalidates(sid) => cache.Invalidate(sid);
    case Publishes(sid, first, count) =>
      if sid in cache.journals { PublishRead(cache, sid, first, count); }
    case Closes => cache.Close();
  }

  method PerformAll(cache: CommittedPages, ops: seq<Op>)
    requires cache.Valid()
    modifies cache
    ensures cache.Valid() && Grew(old(cache.journals), cache.journals)
    ensures old(cache.closed) ==> cache.closed
  {
    for i := 0 to |ops|
      invariant cache.Valid() && Grew(old(cache.journals), cache.journals)
      invariant old(cache.closed) ==> cache.closed
    {
      ghost var mid := cache.journals;
      Perform(cache, ops[i]);
      GrewTwice(old(cache.journals), mid, cache.journals);
    }
  }

  /** The fetch a reader waits for: another's, or its own, which then publishes its page for the
      registration it was made under. */
  method Fetch(cache: CommittedPages, sid: string, id: nat, after: nat, joined: Option<Flight>) returns (begin: nat, page: seq<Stamped>)
    requires cache.Valid() && sid in cache.journals
    modifies cache`order, cache`recent, cache`size, cache`readers
    ensures cache.Valid() && BlockAfter(cache.journals[sid], begin, page)
    ensures joined.None? ==> begin == after
    ensures page == [] ==> |cache.journals[sid]| <= begin || (joined.Some? && joined.value.seen <= begin)
    ensures joined.None? ==> page == Read(cache.journals[sid], after, ACTOR_EVENTS)
  {
    if joined.Some? {
      begin := joined.value.begin;
      page := Read(Prefix(cache.journals[sid], joined.value.seen), begin, ACTOR_EVENTS);
      BlockGrows(Prefix(cache.journals[sid], joined.value.seen), cache.journals[sid], begin, page);
    } else {
      begin := after;
      page := Read(cache.journals[sid], after, ACTOR_EVENTS);
      cache.Fetched(sid, id, after, page);
    }
  }

  function Prefix(journal: seq<Stamped>, n: nat): (p: seq<Stamped>)
    ensures p <= journal && |p| == if n < |journal| then n else |journal|
  {
    if n < |journal| then journal[..n] else journal
  }

  /** The wait for a flight, with what others do before and after its read. */
  method Fly(cache: CommittedPages, sid: string, id: nat, after: nat, round: Round, ghost n: nat) returns (begin: nat, page: seq<Stamped>)
    requires cache.Valid() && sid in cache.journals && n <= |cache.journals[sid]|
    modifies cache
    ensures cache.Valid() && Grew(old(cache.journals), cache.journals)
    ensures old(cache.closed) ==> cache.closed
    ensures BlockAfter(cache.journals[sid], begin, page)
    ensures round.joined.None? ==> begin == after
    ensures page == [] && Sees(round, n) ==> n <= begin
    ensures round.joined.None? ==> |page| >= AtMost(ACTOR_EVENTS, n, after)
  {
    PerformAll(cache, round.before);
    begin, page := Fetch(cache, sid, id, after, round.joined);
    ghost var mid := cache.journals;
    PerformAll(cache, round.later);
    GrewTwice(old(cache.journals), mid, cache.journals);
    BlockGrows(mid[sid], cache.journals[sid], begin, page);
  }

  /** A flight that saw at least so much of the journal. */
  predicate Sees(round: Round, n: nat) {
    round.joined.None? || round.joined.value.seen >= n
  }

  /** Every flight saw what was committed when the reader asked. */
  predicate Fresh(rounds: seq<Round>, n: nat) {
    forall i :: 0 <= i < |rounds| ==> Sees(rounds[i], n)
  }

  predicate Deleted(readers: map<string, Reader>, sid: string) {
    sid in readers && readers[sid].deleted
  }

  /** `page`.  What is served is a block of the journal just after the reader's own cursor; an
      empty page means that nothing was there when the reader asked, unless the cache was closed
      or the reader joined a flight that was older than that; a reader only keeps waiting behind
      flights of others. */
  method Page(cache: CommittedPages, sid: string, after: nat, far: seq<Op>, rounds: seq<Round>) returns (r: Served)
    requires cache.Valid() && sid in cache.journals && (!cache.closed ==> sid in cache.readers)
    modifies cache
    ensures cache.Valid() && Grew(old(cache.journals), cache.journals)
    ensures r.Items? ==> BlockAfter(cache.journals[sid], after, r.page)
    ensures r == Items([]) && Fresh(rounds, |old(cache.journals)[sid]|) ==> cache.closed || |old(cache.journals)[sid]| <= after
    ensures r.NotFound? ==> Deleted(cache.readers, sid)
    ensures r.Waiting? ==> forall i :: 0 <= i < |rounds| ==> rounds[i].joined.Some?
    ensures r.Cancelled? ==> !cache.closed && exists i :: 0 <= i < |rounds| && rounds[i].cancelled
    ensures old(Deleted(cache.readers, sid)) ==> r == NotFound
    ensures old(!Deleted(cache.readers, sid) && cache.closed) ==> r == Items([])
    ensures old(Follows(cache, sid)) ==>
              if old(cache.readers[sid].highWater) > after + ACTOR_EVENTS
              then r.NotFound? || r == Items(Read(old(cache.journals)[sid], after, READ_LIMIT))
              else rounds != [] ==> ServedAtOnce(r, old(Newest(cache, sid, after)), after, rounds[0], old(|cache.journals[sid]|), cache.closed)
  {
    ghost var n := |cache.journals[sid]|;
    if Deleted(cache.readers, sid) { return NotFound; }
    if cache.closed { return Items([]); }
    var state := cache.readers[sid];
    if state.highWater - after > ACTOR_EVENTS {
      r := ReadFar(cache, sid, after, far);
      return;
    }
    r := Retry(cache, sid, state.id, after, rounds, n);
  }

  /** A reader of an actor that is not deleted, on an open cache. */
  predicate Follows(cache: CommittedPages, sid: string)
    reads cache
  {
    !cache.closed && sid in cache.readers && !cache.readers[sid].deleted
  }

  /** How far the cached entry serves a reader, if it does. */
  function Newest(cache: CommittedPages, sid: string, after: nat): Option<nat>
    reads cache
  {
    if sid in cache.recent && Covers(cache.recent[sid].items, after)
    then Some(cache.recent[sid].items[|cache.recent[sid].items| - 1].seqno) else None
  }

  /** A reader that the cache can serve is served all that is cached past its cursor; one that has to
      fetch for itself, as much as was there when it asked, up to a page. */
  ghost predicate ServedAtOnce(r: Served, cached: Option<nat>, after: nat, round: Round, n: nat, closed: bool) {
    && (cached.Some? ==> r.Items? && after + |r.page| == cached.value)
    && (cached.None? && round.joined.None? ==>
          !r.Waiting? && (r.Items? && !closed ==> |r.page| >= AtMost(ACTOR_EVENTS, n, after)))
  }

  /** The retry loop. */
  method Retry(cache: CommittedPages, sid: string, id: nat, after: nat, rounds: seq<Round>, ghost n: nat) returns (r: Served)
    requires cache.Valid() && sid in cache.journals && n <= |cache.journals[sid]| && !cache.closed
    modifies cache
    ensures cache.Valid() && Grew(old(cache.journals), cache.journals)
    ensures r.Items? ==> BlockAfter(cache.journals[sid], after, r.page)
    ensures r == Items([]) && Fresh(rounds, n) ==> cache.closed || n <= after
    ensures r.NotFound? ==> Deleted(cache.readers, sid)
    ensures r.Waiting? ==> forall i :: 0 <= i < |rounds| ==> rounds[i].joined.Some?
    ensures r.Cancelled? ==> !cache.closed && exists i :: 0 <= i < |rounds| && rounds[i].cancelled
    ensures rounds != [] ==> ServedAtOnce(r, old(Newest(cache, sid, after)), after, rounds[0], n, cache.closed)
  {
    ghost var cached := Newest(cache, sid, after);
    for i := 0 to |rounds|
      invariant cache.Valid() && Grew(old(cache.journals), cache.journals) && n <= |cache.journals[sid]|
      invariant forall k :: 0 <= k < i ==> rounds[k].joined.Some?
      invariant if i == 0 then !cache.closed && Newest(cache, sid, after) == cached else cached.None?
    {
      if cache.closed { return Items([]); }
      ghost var mid := cache.journals;
      r := OneRound(cache, sid, id, after, rounds[i], n);
      GrewTwice(old(cache.journals), mid, cache.journals);
      if !r.Waiting? { return; }
    }
    r := Waiting;
  }

  /** A reader far behind reads the store itself. */
  method ReadFar(cache: CommittedPages, sid: string, after: nat, far: seq<Op>) returns (r: Served)
    requires cache.Valid() && sid in cache.journals
    modifies cache
    ensures cache.Valid() && Grew(old(cache.journals), cache.journals)
    ensures r.Items? || (r.NotFound? && Deleted(cache.readers, sid))
    ensures r.Items? ==> BlockAfter(cache.journals[sid], after, r.page) && r.page == Read(old(cache.journals)[sid], after, READ_LIMIT)
  {
    var page := Read(cache.journals[sid], after, READ_LIMIT);
    ghost var mid := cache.journals;
    PerformAll(cache, far);
    BlockGrows(mid[sid], cache.journals[sid], after, page);
    r := if Deleted(cache.readers, sid) then NotFound else Items(page);
  }

  /** The body of the retry loop. */
  method OneRound(cache: CommittedPages, sid: string, id: nat, after: nat, round: Round, ghost n: nat) returns (r: Served)
    requires cache.Valid() && sid in cache.journals && n <= |cache.journals[sid]|
    modifies cache
    ensures cache.Valid() && Grew(old(cache.journals), cache.journals)
    ensures r.Items? ==> BlockAfter(cache.journals[sid], after, r.page)
    ensures r == Items([]) && Sees(round, n) ==> cache.closed || n <= after
    ensures r.NotFound? ==> Deleted(cache.readers, sid)
    ensures r.Waiting? ==> round.joined.Some?
    ensures r.Cancelled? ==> !cache.closed && round.cancelled
    ensures ServedAtOnce(r, old(Newest(cache, sid, after)), after, round, n, cache.closed)
  {
    var cached := cache.Lookup(sid, after);
    if cached.Some? { return Items(cached.value); }
    var begin, page := Fly(cache, sid, id, after, round, n);
    if round.cancelled { return if cache.closed then Items([]) else Cancelled; }
    if Deleted(cache.readers, sid) { return NotFound; }
    var served := cache.Serve(sid, after, begin, page);
    r := if served.Some? then Items(served.value) else Waiting;
  }
}
