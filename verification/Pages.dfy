/** The committed page cache: recent journal pages of the actors that are being read, bounded
    per actor and in all, least recently used out first. */
module Pages {
  import opened Basics

  const ACTOR_EVENTS := 256
  const ACTOR_BYTES := 1024 * 1024
  const CACHE_ACTORS := 64
  const CACHE_BYTES := 16 * 1024 * 1024
  const ENTRY_BYTES := 1024

  /** A journaled event with its sequence number and the size its snapshot takes. */
  datatype Stamped = Stamped(seqno: nat, event: string, bytes: nat)

  /** `_Recent`: the size counts 1024 for the entry itself. */
  datatype Recent = Recent(items: seq<Stamped>, size: int)

  /** `_Readers`; `id` tells one registration from a later one of the same actor. */
  datatype Reader = Reader(id: nat, users: nat, highWater: nat, deleted: bool)

  const EMPTY := Recent([], ENTRY_BYTES)

  function Sum(items: seq<Stamped>): nat {
    if items == [] then 0 else Sum(items[..|items| - 1]) + items[|items| - 1].bytes
  }

  /** Items are committed: each is the journal's event with its number. */
  ghost predicate Committed(journal: seq<Stamped>, items: seq<Stamped>) {
    forall i :: 0 <= i < |items| ==> 1 <= items[i].seqno <= |journal| && journal[items[i].seqno - 1] == items[i]
  }

  ghost predicate Numbered(journal: seq<Stamped>) {
    forall i :: 0 <= i < |journal| ==> journal[i].seqno == i + 1
  }

  ghost predicate Contiguous(items: seq<Stamped>) {
    forall i :: 0 <= i < |items| ==> items[i].seqno == items[0].seqno + i
  }

  /** A block of the journal that begins just after a cursor. */
  ghost predicate BlockAfter(journal: seq<Stamped>, after: nat, page: seq<Stamped>) {
    page == [] || (after + |page| <= |journal| && page == journal[after..after + |page|])
  }

  ghost predicate EntryOk(e: Recent, journal: seq<Stamped>) {
    && Committed(journal, e.items) && Contiguous(e.items)
    && |e.items| <= ACTOR_EVENTS && e.size == ENTRY_BYTES + Sum(e.items) <= ACTOR_BYTES
  }

  lemma {:induction false} SumFront(items: seq<Stamped>)
    requires items != []
    ensures Sum(items) == items[0].bytes + Sum(items[1..])
    decreases |items|
  {
    if |items| > 1 {
      var front := items[..|items| - 1];
      SumFront(front);
      assert items[1..][..|items| - 2] == front[1..];
      assert front[0] == items[0];
    } else {
      assert items[1..] == [] && items[..0] == [];
    }
  }

  /** A committed block with contiguous numbers is a slice of the journal. */
  lemma ContiguousIsSlice(journal: seq<Stamped>, items: seq<Stamped>)
    requires Committed(journal, items) && Contiguous(items) && items != []
    ensures items[0].seqno - 1 + |items| <= |journal| && items == journal[items[0].seqno - 1..items[0].seqno - 1 + |items|]
  {
    var from := items[0].seqno - 1;
    assert items[|items| - 1].seqno == from + |items|;
    forall i | 0 <= i < |items| ensures items[i] == journal[from + i] { }
  }

  /* ---- one entry ---- */

  predicate TooLarge(e: Recent) {
    |e.items| > ACTOR_EVENTS || e.size > ACTOR_BYTES
  }

  /** Drop from the front until the entry is within its bounds. */
  function Shrunk(e: Recent): Recent
    decreases |e.items|
  {
    if TooLarge(e) && e.items != [] then Shrunk(Recent(e.items[1..], e.size - e.items[0].bytes)) else e
  }

  /** Skip what the entry has; start over after a gap, or at an item too large to keep. */
  function Added(e: Recent, item: Stamped): Recent {
    if e.items != [] && item.seqno <= e.items[|e.items| - 1].seqno then e
    else if item.bytes + ENTRY_BYTES > ACTOR_BYTES then EMPTY
    else
      Shrunk(Grown(e, item))
  }

  function AddedAll(e: Recent, items: seq<Stamped>): Recent {
    if items == [] then e else Added(AddedAll(e, items[..|items| - 1]), items[|items| - 1])
  }

  ghost predicate Block(e: Recent, journal: seq<Stamped>) {
    Committed(journal, e.items) && Contiguous(e.items) && e.size == ENTRY_BYTES + Sum(e.items)
  }

  lemma BlockTail(e: Recent, journal: seq<Stamped>)
    requires Block(e, journal) && e.items != []
    ensures Block(Recent(e.items[1..], e.size - e.items[0].bytes), journal)
  {
    SumFront(e.items);
    assert forall i :: 0 <= i < |e.items| - 1 ==> e.items[1..][i] == e.items[i + 1];
  }

  lemma MoreThanOne(e: Recent)
    requires e.items != [] && e.size == ENTRY_BYTES + Sum(e.items) && e.items[|e.items| - 1].bytes + ENTRY_BYTES <= ACTOR_BYTES
    requires TooLarge(e)
    ensures |e.items| > 1
  {
    assert e.items[..0] == [];
  }

  lemma {:induction false} ShrunkOk(e: Recent, journal: seq<Stamped>)
    requires Block(e, journal) && e.items != [] && e.items[|e.items| - 1].bytes + ENTRY_BYTES <= ACTOR_BYTES
    ensures EntryOk(Shrunk(e), journal) && Shrunk(e).items != []
    ensures Shrunk(e).items[|Shrunk(e).items| - 1] == e.items[|e.items| - 1]
    decreases |e.items|
  {
    if TooLarge(e) {
      MoreThanOne(e);
      BlockTail(e, journal);
      ShrunkOk(Recent(e.items[1..], e.size - e.items[0].bytes), journal);
    }
  }

  lemma Extends(e: Recent, item: Stamped, journal: seq<Stamped>)
    requires EntryOk(e, journal) && Committed(journal, [item])
    requires e.items != [] ==> item.seqno == e.items[|e.items| - 1].seqno + 1
    ensures Block(Recent(e.items + [item], e.size + item.bytes), journal)
  {
    assert (e.items + [item])[..|e.items|] == e.items;
    assert [item][0] == item;
  }

  /** The entry an accepted item is added to. */
  function Base(e: Recent, item: Stamped): Recent {
    if e.items != [] && item.seqno != e.items[|e.items| - 1].seqno + 1 then EMPTY else e
  }

  function Grown(e: Recent, item: Stamped): Recent {
    Recent(Base(e, item).items + [item], Base(e, item).size + item.bytes)
  }

  lemma GrownOk(e: Recent, item: Stamped, journal: seq<Stamped>)
    requires EntryOk(e, journal) && Committed(journal, [item])
    ensures Block(Grown(e, item), journal) && Grown(e, item).items != [] && Grown(e, item).items[|Grown(e, item).items| - 1] == item
  {
    Extends(Base(e, item), item, journal);
  }

  lemma AcceptedOk(e: Recent, item: Stamped, journal: seq<Stamped>)
    requires EntryOk(e, journal) && Committed(journal, [item]) && item.bytes + ENTRY_BYTES <= ACTOR_BYTES
    ensures var s := Shrunk(Grown(e, item)); EntryOk(s, journal) && s.items != [] && s.items[|s.items| - 1] == item
  {
    GrownOk(e, item, journal);
    ShrunkOk(Grown(e, item), journal);
  }

  lemma AddedOk(e: Recent, item: Stamped, journal: seq<Stamped>)
    requires EntryOk(e, journal) && Committed(journal, [item])
    ensures EntryOk(Added(e, item), journal)
  {
    if item.bytes + ENTRY_BYTES <= ACTOR_BYTES { AcceptedOk(e, item, journal); }
  }

  /** A new item is the newest kept, unless it is too large to keep. */
  lemma NewestKept(e: Recent, item: Stamped, journal: seq<Stamped>)
    requires EntryOk(e, journal) && Committed(journal, [item]) && item.bytes + ENTRY_BYTES <= ACTOR_BYTES
    requires e.items != [] ==> e.items[|e.items| - 1].seqno < item.seqno
    ensures var kept := Added(e, item).items; kept != [] && kept[|kept| - 1] == item
  {
    AcceptedOk(e, item, journal);
  }

  /** The last `n` items. */
  function Last<T>(items: seq<T>, n: nat): seq<T>
    requires n <= |items|
  {
    items[|items| - n..]
  }

  predicate TooMany(items: seq<Stamped>) {
    |items| > ACTOR_EVENTS || ENTRY_BYTES + Sum(items) > ACTOR_BYTES
  }

  /** As many of the newest items as are within the bounds. */
  ghost predicate KeepsMost(all: seq<Stamped>, kept: seq<Stamped>) {
    |kept| <= |all| && kept == Last(all, |kept|) && forall n :: |kept| < n <= |all| ==> TooMany(Last(all, n))
  }

  lemma {:induction false} ShrunkKeepsMost(e: Recent, all: seq<Stamped>)
    requires e.size == ENTRY_BYTES + Sum(e.items) && KeepsMost(all, e.items)
    ensures KeepsMost(all, Shrunk(e).items)
    decreases |e.items|
  {
    if TooLarge(e) && e.items != [] {
      SumFront(e.items);
      NextMost(all, e.items);
      ShrunkKeepsMost(Recent(e.items[1..], e.size - e.items[0].bytes), all);
    }
  }

  lemma NextMost(all: seq<Stamped>, kept: seq<Stamped>)
    requires KeepsMost(all, kept) && kept != [] && TooMany(kept)
    ensures KeepsMost(all, kept[1..])
  {
  }

  /** An item the entry is past changes nothing; one too large to keep empties the entry; any other is
      kept with as many of the items just before it as are within the bounds, and nothing before a
      gap. */
  lemma AddedIsExact(e: Recent, item: Stamped, journal: seq<Stamped>)
    requires EntryOk(e, journal) && Committed(journal, [item])
    ensures var n := Added(e, item);
            var last := if e.items == [] then 0 else e.items[|e.items| - 1].seqno;
            if e.items != [] && item.seqno <= last then n == e
            else if item.bytes + ENTRY_BYTES > ACTOR_BYTES then n.items == []
            else n.items != [] && KeepsMost(if e.items != [] && item.seqno == last + 1 then e.items + [item] else [item], n.items)
  {
    if !(e.items != [] && item.seqno <= e.items[|e.items| - 1].seqno) && item.bytes + ENTRY_BYTES <= ACTOR_BYTES {
      AcceptedOk(e, item, journal);
      GrownOk(e, item, journal);
      var all := Grown(e, item).items;
      assert KeepsMost(all, all);
      ShrunkKeepsMost(Grown(e, item), all);
    }
  }

  lemma AddedNext(e: Recent, items: seq<Stamped>, i: nat, journal: seq<Stamped>)
    requires i < |items| && Committed(journal, items)
    ensures AddedAll(e, items[..i + 1]) == Added(AddedAll(e, items[..i]), items[i])
    ensures Committed(journal, [items[i]])
  {
    assert items[..i + 1][..i] == items[..i] && [items[i]][0] == items[i];
  }

  /** The inner loop of `publish`; it never pops from an empty entry. */
  method Shrink(entry: Recent, ghost journal: seq<Stamped>) returns (e: Recent)
    requires Block(entry, journal) && entry.items != [] && entry.items[|entry.items| - 1].bytes + ENTRY_BYTES <= ACTOR_BYTES
    ensures e == Shrunk(entry)
  {
    e := entry;
    while TooLarge(e)
      invariant Shrunk(e) == Shrunk(entry) && Block(e, journal)
      invariant e.items != [] && e.items[|e.items| - 1] == entry.items[|entry.items| - 1]
      decreases |e.items|
    {
      BlockTail(e, journal);
      assert e.items[..0] == [];
      e := Recent(e.items[1..], e.size - e.items[0].bytes);
    }
  }

  /** The body of `publish`'s loop over the new items. */
  method AddItem(entry: Recent, item: Stamped, ghost journal: seq<Stamped>) returns (e: Recent)
    requires EntryOk(entry, journal) && Committed(journal, [item])
    ensures e == Added(entry, item)
  {
    e := entry;
    if e.items != [] && item.seqno <= e.items[|e.items| - 1].seqno { return; }
    if e.items != [] && item.seqno != e.items[|e.items| - 1].seqno + 1 { e := EMPTY; }
    if item.bytes + ENTRY_BYTES > ACTOR_BYTES { return EMPTY; }
    Extends(e, item, journal);
    e := Shrink(Recent(e.items + [item], e.size + item.bytes), journal);
  }

  method AddItems(entry: Recent, items: seq<Stamped>, ghost journal: seq<Stamped>) returns (e: Recent)
    requires EntryOk(entry, journal) && Committed(journal, items)
    ensures e == AddedAll(entry, items) && EntryOk(e, journal)
  {
    e := entry;
    for i := 0 to |items|
      invariant e == AddedAll(entry, items[..i]) && EntryOk(e, journal)
    {
      AddedNext(entry, items, i, journal);
      AddedOk(e, items[i], journal);
      e := AddItem(e, items[i], journal);
    }
    assert items[..|items|] == items;
  }

  /* ---- the cache ---- */

  function Total(order: seq<string>, recent: map<string, Recent>): int {
    if order == [] then 0
    else Total(order[1..], recent) + if order[0] in recent then recent[order[0]].size else 0
  }

  function Without(order: seq<string>, sid: string): seq<string> {
    if order == [] then [] else if order[0] == sid then order[1..] else [order[0]] + Without(order[1..], sid)
  }

  lemma {:induction false} WithoutMembers(order: seq<string>, sid: string)
    requires Distinct(order)
    ensures Distinct(Without(order, sid)) && |Without(order, sid)| == |order| - if sid in order then 1 else 0
    ensures forall x :: x in Without(order, sid) <==> x in order && x != sid
    decreases |order|
  {
    if order != [] {
      var rest := order[1..];
      assert order == [order[0]] + rest;
      assert forall i :: 0 <= i < |rest| ==> rest[i] == order[i + 1];
      WithoutMembers(rest, sid);
      if order[0] != sid {
        var w := Without(rest, sid);
        assert order[0] !in rest;
        forall i, k | 0 <= i < k < |[order[0]] + w| ensures ([order[0]] + w)[i] != ([order[0]] + w)[k] {
          assert ([order[0]] + w)[k] == w[k - 1];
        }
      }
    }
  }

  /** The others keep their order. */
  lemma {:induction false} WithoutIsExact(order: seq<string>, sid: string, i: nat)
    requires i < |order| && order[i] == sid && sid !in order[..i]
    ensures Without(order, sid) == order[..i] + order[i + 1..]
    decreases |order|
  {
    if i > 0 {
      assert order[0] in order[..i];
      assert order[1..][..i - 1] == order[..i][1..];
      WithoutIsExact(order[1..], sid, i - 1);
      assert order[1..][i..] == order[i + 1..];
      assert [order[0]] + order[1..][..i - 1] == order[..i];
    }
  }

  /** Removing an entry removes its key and its size, and nothing else. */
  lemma {:induction false} WithoutTotal(order: seq<string>, recent: map<string, Recent>, sid: string)
    requires Distinct(order) && sid in order && sid in recent
    ensures Total(Without(order, sid), recent - {sid}) == Total(order, recent) - recent[sid].size
    decreases |order|
  {
    var rest := order[1..];
    assert order == [order[0]] + rest;
    assert forall i :: 0 <= i < |rest| ==> rest[i] == order[i + 1];
    if order[0] == sid {
      TotalSame(rest, recent, recent - {sid});
    } else {
      WithoutTotal(rest, recent, sid);
      assert ([order[0]] + Without(rest, sid))[1..] == Without(rest, sid);
    }
  }

  lemma {:induction false} TotalSame(order: seq<string>, a: map<string, Recent>, b: map<string, Recent>)
    requires forall x :: x in order ==> (x in a <==> x in b) && (x in a ==> a[x] == b[x])
    ensures Total(order, a) == Total(order, b)
  {
    if order != [] { TotalSame(order[1..], a, b); }
  }

  lemma {:induction false} TotalAppend(order: seq<string>, recent: map<string, Recent>, sid: string)
    ensures Total(order + [sid], recent) == Total(order, recent) + if sid in recent then recent[sid].size else 0
    decreases |order|
  {
    if order != [] {
      assert (order + [sid])[1..] == order[1..] + [sid];
      TotalAppend(order[1..], recent, sid);
    } else {
      assert (order + [sid])[1..] == [];
    }
  }

  ghost predicate Listed(order: seq<string>, recent: map<string, Recent>) {
    Distinct(order) && forall sid :: sid in order <==> sid in recent
  }

  ghost predicate Cached(sid: string, recent: map<string, Recent>, readers: map<string, Reader>, journals: map<string, seq<Stamped>>)
    requires sid in recent
  {
    && sid in readers && !readers[sid].deleted && sid in journals
    && recent[sid].items != [] && EntryOk(recent[sid], journals[sid])
  }

  ghost predicate AllCached(recent: map<string, Recent>, readers: map<string, Reader>, journals: map<string, seq<Stamped>>) {
    forall sid :: sid in recent ==> Cached(sid, recent, readers, journals)
  }

  /** Keys agree, sizes add up, and every entry is that of a live reader. */
  ghost predicate Consistent(order: seq<string>, recent: map<string, Recent>, size: int, readers: map<string, Reader>,
                             journals: map<string, seq<Stamped>>) {
    Listed(order, recent) && size == Total(order, recent) && AllCached(recent, readers, journals)
  }

  /** Readers of cached actors may change, but not leave or be marked deleted. */
  lemma ReadersKeep(recent: map<string, Recent>, was: map<string, Reader>, now: map<string, Reader>, journals: map<string, seq<Stamped>>)
    requires AllCached(recent, was, journals)
    requires forall sid :: sid in recent && sid in was ==> sid in now && now[sid].deleted == was[sid].deleted
    ensures AllCached(recent, now, journals)
  {
    forall sid | sid in recent ensures Cached(sid, recent, now, journals) { assert Cached(sid, recent, was, journals); }
  }

  lemma CommitKeeps(recent: map<string, Recent>, readers: map<string, Reader>, journals: map<string, seq<Stamped>>, sid: string, more: seq<Stamped>)
    requires AllCached(recent, readers, journals) && sid in journals
    ensures AllCached(recent, readers, journals[sid := journals[sid] + more])
  {
    forall x | x in recent ensures Cached(x, recent, readers, journals[sid := journals[sid] + more]) {
      assert Cached(x, recent, readers, journals);
    }
  }

  function SizeOf(recent: map<string, Recent>, sid: string): int {
    if sid in recent then recent[sid].size else 0
  }

  lemma DropKeeps(order: seq<string>, recent: map<string, Recent>, size: int, readers: map<string, Reader>,
                  journals: map<string, seq<Stamped>>, sid: string)
    requires Consistent(order, recent, size, readers, journals) && sid in recent
    ensures Consistent(Without(order, sid), recent - {sid}, size - recent[sid].size, readers, journals)
  {
    WithoutMembers(order, sid);
    WithoutTotal(order, recent, sid);
    forall x | x in recent - {sid} ensures Cached(x, recent - {sid}, readers, journals) { assert Cached(x, recent, readers, journals); }
  }

  lemma NothingDropped(order: seq<string>, recent: map<string, Recent>, sid: string)
    requires Listed(order, recent) && sid !in recent
    ensures Without(order, sid) == order && recent - {sid} == recent
  {
    NotThere(order, sid);
  }

  lemma DropFits(order: seq<string>, recent: map<string, Recent>, readers: map<string, Reader>, journals: map<string, seq<Stamped>>, sid: string)
    requires Listed(order, recent) && AllCached(recent, readers, journals)
    ensures |Without(order, sid)| <= |order| && (sid in recent ==> recent[sid].size >= 0)
  {
    WithoutMembers(order, sid);
    if sid in recent { assert Cached(sid, recent, readers, journals); }
  }

  predicate Over(order: seq<string>, recent: map<string, Recent>) {
    |order| > CACHE_ACTORS || Total(order, recent) > CACHE_BYTES
  }

  /** The most recently used entries, as many as are within the bounds. */
  ghost predicate KeepsNewest(all: seq<string>, recent: map<string, Recent>, kept: seq<string>) {
    |kept| <= |all| && kept == Last(all, |kept|) && forall n :: |kept| < n <= |all| ==> Over(Last(all, n), recent)
  }

  function Behind(order: seq<string>, sid: string, e: Recent): seq<string> {
    if e.items == [] then Without(order, sid) else Without(order, sid) + [sid]
  }

  function Filed(recent: map<string, Recent>, sid: string, e: Recent): map<string, Recent> {
    if e.items == [] then recent - {sid} else recent[sid := e]
  }

  /** The entry of an actor is now this one, most recently used, or gone if empty; then the least
      recently used entries go. */
  ghost predicate Files(order: seq<string>, recent: map<string, Recent>, sid: string, e: Recent, order': seq<string>, recent': map<string, Recent>) {
    KeepsNewest(Behind(order, sid, e), Filed(recent, sid, e), order') && Fewer(recent', Filed(recent, sid, e))
  }

  /** The actor has exactly one reader. */
  predicate Alone(readers: map<string, Reader>, sid: string) {
    sid in readers && readers[sid].users == 1
  }

  /** The readers without one of an actor's. */
  function OneLess(readers: map<string, Reader>, sid: string): map<string, Reader> {
    if sid !in readers then readers
    else if Alone(readers, sid) then readers - {sid}
    else if readers[sid].users > 0 then readers[sid := readers[sid].(users := readers[sid].users - 1)]
    else readers
  }

  lemma DropAgain<K, V>(m: map<K, V>, k: K, v: V)
    ensures m - {k} - {k} == m - {k} && (m - {k})[k := v] == m[k := v]
  {
  }

  lemma DropUpdated<K, V>(m: map<K, V>, k: K, v: V)
    ensures m[k := v] - {k} == m - {k}
  {
  }

  /** The high water mark of one actor's readers. */
  ghost predicate Advanced(was: map<string, Reader>, now: map<string, Reader>, sid: string, seqno: nat) {
    now.Keys == was.Keys
    && forall x :: x in now ==> now[x] == was[x].(highWater := if x == sid && was[x].highWater < seqno then seqno else was[x].highWater)
  }

  /** The entry just stored, if any, is the most recently used. */
  predicate Newest(order: seq<string>, stored: Option<string>) {
    stored.Some? ==> order != [] && order[|order| - 1] == stored.value
  }

  lemma NewestIsCached(order: seq<string>, recent: map<string, Recent>, stored: Option<string>)
    requires Listed(order, recent) && Newest(order, stored)
    ensures stored.Some? ==> stored.value in recent
  {
  }

  /** Entries have only been dropped. */
  ghost predicate Fewer(now: map<string, Recent>, was: map<string, Recent>) {
    forall x :: x in now ==> x in was && now[x] == was[x]
  }

  class CommittedPages {
    /** The cached actors, least recently used first. */
    var order: seq<string>
    var recent: map<string, Recent>
    var readers: map<string, Reader>
    var size: int
    var closed: bool
    var nextId: nat
    /** What the store holds. */
    var journals: map<string, seq<Stamped>>

    /** Sizes add up, keys agree, and only actors with a live reader are cached. */
    ghost predicate Sound()
      reads this
    {
      && Consistent(order, recent, size, readers, journals)
      && (closed ==> recent == map[])
    }

    ghost predicate Bounded()
      reads this
    {
      |order| <= CACHE_ACTORS && size <= CACHE_BYTES
    }

    /** Journals are numbered from one, and registrations have ids of their own. */
    ghost predicate Registered()
      reads `journals, `readers, `nextId
    {
      && (forall sid :: sid in journals ==> Numbered(journals[sid]))
      && (forall sid :: sid in readers ==> readers[sid].id < nextId)
    }

    ghost predicate Valid()
      reads this
    {
      Sound() && Bounded() && Registered()
    }

    constructor (journals: map<string, seq<Stamped>>)
      requires forall sid :: sid in journals ==> Numbered(journals[sid])
      ensures Valid() && !closed && recent == map[] && readers == map[] && this.journals == journals
    {
      order, recent, readers, size, closed, nextId := [], map[], map[], 0, false, 0;
      this.journals := journals;
    }

    /** The store appends: the cache need not know. */
    method Commit(sid: string, more: seq<Stamped>)
      requires Valid() && sid in journals && Numbered(journals[sid] + more)
      modifies this`journals
      ensures Valid() && journals == old(journals)[sid := old(journals)[sid] + more]
    {
      CommitKeeps(recent, readers, journals, sid, more);
      journals := journals[sid := journals[sid] + more];
    }

    method Retain(sid: string)
      requires Valid()
      modifies this`readers, this`nextId
      ensures Valid() && sid in readers && readers.Keys == old(readers).Keys + {sid}
      ensures readers[sid] == if sid in old(readers) then old(readers)[sid].(users := old(readers)[sid].users + 1)
                              else Reader(old(nextId), 1, 0, false)
      ensures nextId >= old(nextId) && forall x :: x in old(readers) && x != sid ==> readers[x] == old(readers)[x]
    {
      if sid in readers {
        readers := readers[sid := readers[sid].(users := readers[sid].users + 1)];
        ReadersKeep(recent, old(readers), readers, journals);
      } else {
        Register(sid);
      }
    }

    method Register(sid: string)
      requires Valid() && sid !in readers
      modifies this`readers, this`nextId
      ensures Valid() && readers == old(readers)[sid := Reader(old(nextId), 1, 0, false)]
    {
      readers := readers[sid := Reader(nextId, 1, 0, false)];
      nextId := nextId + 1;
      ReadersKeep(recent, old(readers), readers, journals);
    }

    /** `_drop`. */
    method DropEntry(sid: string)
      requires Sound()
      modifies this`order, this`recent, this`size
      ensures Sound() && recent == old(recent) - {sid} && order == Without(old(order), sid)
      ensures size == old(size) - SizeOf(old(recent), sid)
    {
      if sid in recent {
        DropKeeps(order, recent, size, readers, journals, sid);
        order, recent, size := Without(order, sid), recent - {sid}, size - recent[sid].size;
      } else {
        NothingDropped(order, recent, sid);
      }
    }

    method Invalidate(sid: string)
      requires Valid()
      modifies this`order, this`recent, this`size, this`readers
      ensures Valid() && recent == old(recent) - {sid} && order == Without(old(order), sid)
      ensures readers == if sid in old(readers) then old(readers)[sid := old(readers)[sid].(deleted := true)] else old(readers)
    {
      DropFits(order, recent, readers, journals, sid);
      DropEntry(sid);
      Mark(sid);
    }

    method Mark(sid: string)
      requires Valid() && sid !in recent
      modifies this`readers
      ensures Valid()
      ensures readers == if sid in old(readers) then old(readers)[sid := old(readers)[sid].(deleted := true)] else old(readers)
    {
      if sid in readers { readers := readers[sid := readers[sid].(deleted := true)]; }
      ReadersKeep(recent, old(readers), readers, journals);
    }

    /** `release`: the last reader takes the cached pages with it. */
    method Release(sid: string)
      requires Valid() && (sid in readers ==> readers[sid].users > 0)
      modifies this`order, this`recent, this`size, this`readers
      ensures Valid()
      ensures readers == OneLess(old(readers), sid)
      ensures recent == if Alone(old(readers), sid) then old(recent) - {sid} else old(recent)
      ensures order == if Alone(old(readers), sid) then Without(old(order), sid) else old(order)
    {
      if sid !in readers { return; }
      DropUpdated(readers, sid, readers[sid].(users := readers[sid].users - 1));
      Discount(sid);
      if readers[sid].users == 0 { Unregister(sid); }
    }

    method Discount(sid: string)
      requires Valid() && sid in readers && readers[sid].users > 0
      modifies this`readers
      ensures Valid() && readers == old(readers)[sid := old(readers)[sid].(users := old(readers)[sid].users - 1)]
    {
      readers := readers[sid := readers[sid].(users := readers[sid].users - 1)];
      ReadersKeep(recent, old(readers), readers, journals);
    }

    method Unregister(sid: string)
      requires Valid() && sid in readers
      modifies this`order, this`recent, this`size, this`readers
      ensures Valid() && readers == old(readers) - {sid} && recent == old(recent) - {sid} && order == Without(old(order), sid)
    {
      DropFits(order, recent, readers, journals, sid);
      DropEntry(sid);
      readers := readers - {sid};
      ReadersKeep(recent, old(readers), readers, journals);
    }

    /** `advance`. */
    method Advance(sid: string, seqno: nat)
      requires Valid()
      modifies this`readers
      ensures Valid() && readers.Keys == old(readers).Keys
      ensures Advanced(old(readers), readers, sid, seqno)
    {
      if sid in readers && readers[sid].highWater < seqno {
        readers := readers[sid := readers[sid].(highWater := seqno)];
        ReadersKeep(recent, old(readers), readers, journals);
      }
    }

    /** Store an entry as the most recently used. */
    method Store(sid: string, entry: Recent)
      requires Sound() && !closed && Storable(sid, entry, recent, readers, journals)
      modifies this`order, this`recent, this`size
      ensures Sound() && order == old(order) + [sid] && recent == old(recent)[sid := entry] && size == old(size) + entry.size
    {
      StoreKeeps(order, recent, size, readers, journals, sid, entry);
      order, recent, size := order + [sid], recent[sid := entry], size + entry.size;
    }

    /** The last loop of `publish`: least recently used entries go first, never the one just
        stored. */
    method Evict(ghost stored: Option<string>)
      requires Sound() && Newest(order, stored) && (stored.None? ==> Bounded())
      modifies this`order, this`recent, this`size
      ensures Sound() && Bounded() && Fewer(recent, old(recent)) && KeepsNewest(old(order), old(recent), order)
      ensures stored.Some? ==> stored.value in recent
    {
      AllAreNewest(order, recent);
      while |order| > CACHE_ACTORS || size > CACHE_BYTES
        invariant Sound() && Newest(order, stored) && (stored.None? ==> Bounded())
        invariant KeepsNewest(old(order), old(recent), order) && Fewer(recent, old(recent))
        decreases |order|
      {
        TotalSame(order, recent, old(recent));
        NextNewest(old(order), old(recent), order);
        EvictOldest(stored);
      }
      NewestIsCached(order, recent, stored);
    }

    /** The least recently used entry is not the one just stored. */
    method EvictOldest(ghost stored: Option<string>)
      requires Sound() && !Bounded() && Newest(order, stored)
      modifies this`order, this`recent, this`size
      ensures Sound() && old(order) != [] && order == old(order)[1..] && recent == old(recent) - {old(order)[0]}
      ensures Newest(order, stored) && forall was :: Fewer(old(recent), was) ==> Fewer(recent, was)
    {
      OneFits(order, recent, readers, journals);
      assert order != [] && |order| != 1;
      DropEntry(order[0]);
    }

    /** The entry of an actor before a publish. */
    function EntryOf(sid: string): Recent
      reads this`recent
    {
      if sid in recent then recent[sid] else EMPTY
    }

    /** Put back an entry, or nothing if it became empty, and keep within the bounds. */
    method PutBack(sid: string, entry: Recent)
      requires Valid() && sid !in recent && sid in readers && !readers[sid].deleted && sid in journals && !closed
      requires EntryOk(entry, journals[sid])
      modifies this`order, this`recent, this`size
      ensures Valid() && (entry.items != [] ==> sid in recent)
      ensures Files(old(order), old(recent), sid, entry, order, recent)
    {
      File(sid, entry);
      Evict(if entry.items != [] then Some(sid) else None);
    }

    method File(sid: string, entry: Recent)
      requires Valid() && sid !in recent && sid in readers && !readers[sid].deleted && sid in journals && !closed
      requires EntryOk(entry, journals[sid])
      modifies this`order, this`recent, this`size
      ensures Sound() && Registered() && (if entry.items != [] then Newest(order, Some(sid)) else Bounded())
      ensures order == Behind(old(order), sid, entry) && recent == Filed(old(recent), sid, entry)
    {
      FiledNew(order, recent, sid, entry);
      if entry.items != [] { Store(sid, entry); }
    }

    /** `publish`. */
    method Publish(sid: string, items: seq<Stamped>)
      requires Valid() && sid in journals && Committed(journals[sid], items)
      modifies this`order, this`recent, this`size, this`readers
      ensures Valid() && readers.Keys == old(readers).Keys
      ensures if sid in old(readers) && !old(readers)[sid].deleted && !closed && items != []
              then Files(old(order), old(recent), sid, AddedAll(old(EntryOf(sid)), items), order, recent)
                   && (AddedAll(old(EntryOf(sid)), items).items != [] ==> sid in recent)
                   && Advanced(old(readers), readers, sid, items[|items| - 1].seqno)
              else recent == old(recent) && order == old(order) && readers == old(readers)
    {
      if sid !in readers || readers[sid].deleted || closed || items == [] { return; }
      Advance(sid, items[|items| - 1].seqno);
      Merge(sid, items);
    }

    /** Take an actor's entry out, add the items and put it back. */
    method Merge(sid: string, items: seq<Stamped>)
      requires Valid() && !closed && sid in journals && Committed(journals[sid], items) && sid in readers && !readers[sid].deleted
      modifies this`order, this`recent, this`size
      ensures Valid() && (AddedAll(old(EntryOf(sid)), items).items != [] ==> sid in recent)
      ensures Files(old(order), old(recent), sid, AddedAll(old(EntryOf(sid)), items), order, recent)
    {
      ghost var order0, recent0 := order, recent;
      var entry := TakeOut(sid);
      entry := AddItems(entry, items, journals[sid]);
      PutBack(sid, entry);
      FilesAnew(order0, recent0, sid, entry, order, recent);
    }

    method TakeOut(sid: string) returns (entry: Recent)
      requires Valid() && sid in journals
      modifies this`order, this`recent, this`size
      ensures Valid() && recent == old(recent) - {sid} && order == Without(old(order), sid)
      ensures entry == old(EntryOf(sid)) && EntryOk(entry, journals[sid])
    {
      entry := EntryOf(sid);
      EntryIsOk(sid, entry, recent, readers, journals);
      DropFits(order, recent, readers, journals, sid);
      DropEntry(sid);
    }

    /* ---- reading ---- */

    /** `_cached`: a hit becomes the most recently used. */
    method Lookup(sid: string, after: nat) returns (page: Option<seq<Stamped>>)
      requires Valid()
      modifies this`order
      ensures Valid()
      ensures page.Some? ==> sid in readers && !readers[sid].deleted && sid in journals
      ensures page.Some? ==> page.value != [] && BlockAfter(journals[sid], after, page.value)
      ensures page.None? <==> !(sid in recent && Covers(recent[sid].items, after))
      ensures page.Some? ==> after + |page.value| == recent[sid].items[|recent[sid].items| - 1].seqno && order == Without(old(order), sid) + [sid]
      ensures page.None? ==> order == old(order)
    {
      if sid !in recent || !Covers(recent[sid].items, after) { return None; }
      assert Cached(sid, recent, readers, journals);
      NewerIsBlock(journals[sid], recent[sid].items, after);
      page := Some(Newer(recent[sid].items, after));
      MoveToEnd(sid);
    }

    method MoveToEnd(sid: string)
      requires Valid() && sid in recent
      modifies this`order
      ensures Valid() && order == Without(old(order), sid) + [sid]
    {
      MoveKeeps(order, recent, sid);
      order := Without(order, sid) + [sid];
    }

    /** What a reader makes of a shared fetch that began at some cursor: a page for its own
        cursor, or another round. */
    method Serve(sid: string, after: nat, begin: nat, fetched: seq<Stamped>) returns (page: Option<seq<Stamped>>)
      requires Valid() && sid in journals && BlockAfter(journals[sid], begin, fetched)
      ensures page.Some? ==> BlockAfter(journals[sid], after, page.value)
      ensures begin == after ==> page == Some(fetched)
      ensures page == Some([]) ==> fetched == [] && begin <= after
      ensures page.None? <==> begin != after && (if fetched == [] then begin > after else !(begin <= after < begin + |fetched|))
      ensures page.Some? && fetched != [] ==> after + |page.value| == begin + |fetched|
    {
      if begin == after || (fetched == [] && begin <= after) { return Some(fetched); }
      if Covers(fetched, after) {
        FetchedIsBlock(journals[sid], begin, fetched);
        NewerIsBlock(journals[sid], fetched, after);
        return Some(Newer(fetched, after));
      }
      return None;
    }

    /** The end of `_fetch`: the page is published only for the registration that asked for it. */
    method Fetched(sid: string, id: nat, begin: nat, page: seq<Stamped>)
      requires Valid() && sid in journals && BlockAfter(journals[sid], begin, page)
      modifies this`order, this`recent, this`size, this`readers
      ensures Valid() && readers.Keys == old(readers).Keys
      ensures if sid in old(readers) && old(readers)[sid].id == id && !old(readers)[sid].deleted && !closed && page != []
              then Files(old(order), old(recent), sid, AddedAll(old(EntryOf(sid)), page), order, recent)
                   && Advanced(old(readers), readers, sid, page[|page| - 1].seqno)
              else recent == old(recent) && order == old(order) && readers == old(readers)
    {
      FetchedIsBlock(journals[sid], begin, page);
      if sid in readers && readers[sid].id == id && !readers[sid].deleted && !closed {
        Publish(sid, page);
      }
    }

    method Close()
      requires Valid()
      modifies this`order, this`recent, this`size, this`readers, this`closed
      ensures Valid() && closed && recent == map[] && readers == map[]
    {
      closed, order, recent, size, readers := true, [], map[], 0, map[];
    }
  }

  /** The items reach from at most the cursor's successor to at least it. */
  predicate Covers(items: seq<Stamped>, after: nat) {
    items != [] && items[0].seqno <= after + 1 <= items[|items| - 1].seqno
  }

  function Newer(items: seq<Stamped>, after: nat): seq<Stamped> {
    if items == [] then []
    else if items[|items| - 1].seqno > after then Newer(items[..|items| - 1], after) + [items[|items| - 1]]
    else Newer(items[..|items| - 1], after)
  }

  lemma {:induction false} NothingNewer(items: seq<Stamped>, after: nat)
    requires forall i :: 0 <= i < |items| ==> items[i].seqno <= after
    ensures Newer(items, after) == []
  {
    if items != [] { NothingNewer(items[..|items| - 1], after); }
  }

  lemma TailOf(items: seq<Stamped>, n: nat)
    requires n < |items|
    ensures items[n..] == items[..|items| - 1][n..] + [items[|items| - 1]]
  {
  }

  lemma {:induction false} NewerIsSuffix(items: seq<Stamped>, after: nat)
    requires Contiguous(items) && Covers(items, after)
    ensures Newer(items, after) == items[after + 1 - items[0].seqno..]
    decreases |items|
  {
    var front, last := items[..|items| - 1], items[|items| - 1];
    var n := after + 1 - items[0].seqno;
    if n == |items| - 1 {
      NothingNewer(front, after);
    } else {
      NewerIsSuffix(front, after);
    }
    TailOf(items, n);
  }

  lemma NewerIsBlock(journal: seq<Stamped>, items: seq<Stamped>, after: nat)
    requires Committed(journal, items) && Contiguous(items) && Covers(items, after)
    ensures Newer(items, after) != [] && BlockAfter(journal, after, Newer(items, after))
    ensures after + |Newer(items, after)| == items[|items| - 1].seqno
  {
    NewerIsSuffix(items, after);
    ContiguousIsSlice(journal, items);
    SuffixIsBlock(journal, items, items[0].seqno - 1, after);
  }

  lemma SuffixIsBlock(journal: seq<Stamped>, items: seq<Stamped>, from: nat, after: nat)
    requires from + |items| <= |journal| && items == journal[from..from + |items|] && from <= after < from + |items|
    ensures items[after - from..] != [] && BlockAfter(journal, after, items[after - from..])
    ensures after == from ==> items[after - from..] == items
  {
    assert items[after - from..] == journal[after..from + |items|];
  }

  lemma FetchedIsBlock(journal: seq<Stamped>, begin: nat, page: seq<Stamped>)
    requires Numbered(journal) && BlockAfter(journal, begin, page)
    ensures Committed(journal, page) && Contiguous(page)
    ensures page != [] ==> page[0].seqno == begin + 1 && page[|page| - 1].seqno == begin + |page|
  {
    if page != [] { assert forall i :: 0 <= i < |page| ==> page[i] == journal[begin + i]; }
  }

  lemma MoveKeeps(order: seq<string>, recent: map<string, Recent>, sid: string)
    requires Listed(order, recent) && sid in recent
    ensures Listed(Without(order, sid) + [sid], recent) && |Without(order, sid) + [sid]| == |order|
    ensures Total(Without(order, sid) + [sid], recent) == Total(order, recent)
  {
    WithoutMembers(order, sid);
    WithoutTotal(order, recent, sid);
    TotalSame(Without(order, sid), recent, recent - {sid});
    TotalAppend(Without(order, sid), recent, sid);
  }

  lemma EntryIsOk(sid: string, entry: Recent, recent: map<string, Recent>, readers: map<string, Reader>, journals: map<string, seq<Stamped>>)
    requires AllCached(recent, readers, journals) && sid in journals && entry == if sid in recent then recent[sid] else EMPTY
    ensures EntryOk(entry, journals[sid])
  {
    if sid in recent { assert Cached(sid, recent, readers, journals); }
  }

  ghost predicate Storable(sid: string, entry: Recent, recent: map<string, Recent>, readers: map<string, Reader>,
                           journals: map<string, seq<Stamped>>) {
    && sid !in recent && sid in readers && !readers[sid].deleted && sid in journals
    && entry.items != [] && EntryOk(entry, journals[sid])
  }

  lemma StoreKeeps(order: seq<string>, recent: map<string, Recent>, size: int, readers: map<string, Reader>,
                   journals: map<string, seq<Stamped>>, sid: string, entry: Recent)
    requires Consistent(order, recent, size, readers, journals) && Storable(sid, entry, recent, readers, journals)
    ensures Consistent(order + [sid], recent[sid := entry], size + entry.size, readers, journals)
  {
    var r := recent[sid := entry];
    TotalSame(order, recent, r);
    TotalAppend(order, r, sid);
    forall x | x in r ensures Cached(x, r, readers, journals) { if x != sid { assert Cached(x, recent, readers, journals); } }
  }

  /** One entry alone is always within the bounds. */
  lemma OneFits(order: seq<string>, recent: map<string, Recent>, readers: map<string, Reader>, journals: map<string, seq<Stamped>>)
    requires Listed(order, recent) && AllCached(recent, readers, journals)
    ensures |order| == 0 ==> Total(order, recent) == 0
    ensures |order| == 1 ==> Total(order, recent) <= ACTOR_BYTES
    ensures order != [] ==> Without(order, order[0]) == order[1..]
  {
    if |order| == 1 {
      assert order[1..] == [] && order[0] in recent;
      assert Cached(order[0], recent, readers, journals);
    }
  }

  lemma NextNewest(all: seq<string>, recent: map<string, Recent>, kept: seq<string>)
    requires KeepsNewest(all, recent, kept) && Over(kept, recent) && kept != []
    ensures KeepsNewest(all, recent, kept[1..])
  {
  }

  /** Taking out an entry first changes nothing for filing it. */
  lemma TakenOut(order: seq<string>, recent: map<string, Recent>, sid: string, e: Recent)
    requires Listed(order, recent)
    ensures Behind(Without(order, sid), sid, e) == Behind(order, sid, e) && Filed(recent - {sid}, sid, e) == Filed(recent, sid, e)
  {
    WithoutMembers(order, sid);
    NotThere(Without(order, sid), sid);
    DropAgain(recent, sid, e);
  }

  lemma FilesAnew(order: seq<string>, recent: map<string, Recent>, sid: string, e: Recent, order': seq<string>, recent': map<string, Recent>)
    requires Listed(order, recent) && Files(Without(order, sid), recent - {sid}, sid, e, order', recent')
    ensures Files(order, recent, sid, e, order', recent')
  {
    TakenOut(order, recent, sid, e);
  }

  /** Nothing is taken out of an order that does not list the actor. */
  lemma FiledNew(order: seq<string>, recent: map<string, Recent>, sid: string, e: Recent)
    requires Listed(order, recent) && sid !in recent
    ensures Behind(order, sid, e) == (if e.items == [] then order else order + [sid])
    ensures Filed(recent, sid, e) == (if e.items == [] then recent else recent[sid := e])
  {
    NothingDropped(order, recent, sid);
  }

  lemma AllAreNewest(order: seq<string>, recent: map<string, Recent>)
    ensures KeepsNewest(order, recent, order)
  {
  }

  lemma {:induction false} NotThere(order: seq<string>, sid: string)
    requires sid !in order
    ensures Without(order, sid) == order
  {
    if order != [] {
      assert order == [order[0]] + order[1..];
      NotThere(order[1..], sid);
    }
  }
}
