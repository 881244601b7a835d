/** Collecting session trees for cleanup, and paging through them. */
module Cleanup {
  import opened Basics

  datatype Header = Header(id: string, parent: Option<string>)

  ghost predicate DistinctIds(headers: seq<Header>) {
    forall i, k :: 0 <= i < k < |headers| ==> headers[i].id != headers[k].id
  }

  /** The headers with a given parent, in order. */
  function Children(headers: seq<Header>, id: string): (r: seq<Header>)
    ensures forall h :: h in r <==> h in headers && h.parent == Some(id)
  {
    if headers == [] then []
    else
      var last := headers[|headers| - 1];
      assert headers == headers[..|headers| - 1] + [last];
      if last.parent == Some(id) then Children(headers[..|headers| - 1], id) + [last]
      else Children(headers[..|headers| - 1], id)
  }

  lemma {:induction false} ChildrenDistinct(headers: seq<Header>, id: string)
    requires DistinctIds(headers)
    ensures DistinctIds(Children(headers, id))
    decreases |headers|
  {
    if headers != [] {
      var front, last := headers[..|headers| - 1], headers[|headers| - 1];
      ChildrenDistinct(front, id);
      var c := Children(front, id);
      forall i | 0 <= i < |c| ensures c[i].id != last.id { assert c[i] in front; }
    }
  }

  /** `h` is `n` parents below `root`. */
  ghost predicate Below(headers: seq<Header>, root: Header, h: Header, n: nat)
    decreases n
  {
    if n == 0 then h == root
    else h.parent.Some? && exists p :: p in headers && h.parent == Some(p.id) && Below(headers, root, p, n - 1)
  }

  ghost predicate Descends(headers: seq<Header>, root: Header, h: Header) {
    exists n: nat :: Below(headers, root, h, n)
  }

  /** The tree after some of its members' children were appended: no header twice, the root
      first, and every other member the child of one already expanded. */
  ghost predicate Growing(headers: seq<Header>, root: Header, tree: seq<Header>, done: nat) {
    && done <= |tree| && 0 < |tree| && tree[0] == root && DistinctIds(tree)
    && (forall k :: 0 <= k < |tree| ==> tree[k] in headers && Descends(headers, root, tree[k]))
    && (forall k :: 0 < k < |tree| ==> ParentDone(tree, done, tree[k]))
    && (forall k, h :: 0 <= k < done && h in headers && h.parent == Some(tree[k].id) ==> h in tree)
  }

  ghost predicate ParentDone(tree: seq<Header>, done: nat, h: Header)
    requires done <= |tree|
  {
    exists m :: 0 <= m < done && h.parent == Some(tree[m].id)
  }

  lemma OneBelow(headers: seq<Header>, root: Header, p: Header, h: Header)
    requires p in headers && Descends(headers, root, p) && h.parent == Some(p.id)
    ensures Descends(headers, root, h)
  {
    var n: nat :| Below(headers, root, p, n);
    assert Below(headers, root, h, n + 1);
  }

  /** The children of the next member are all new. */
  lemma NewChildren(headers: seq<Header>, root: Header, tree: seq<Header>, done: nat)
    requires DistinctIds(headers) && root.parent.None? && Growing(headers, root, tree, done) && done < |tree|
    ensures DistinctIds(tree + Children(headers, tree[done].id))
  {
    var c := Children(headers, tree[done].id);
    ChildrenDistinct(headers, tree[done].id);
    forall i, k | 0 <= i < |tree| && 0 <= k < |c| ensures tree[i].id != c[k].id {
      assert c[k] in c && c[k].parent == Some(tree[done].id);
      NoChildYet(headers, root, tree, done, i);
      if tree[i].id == c[k].id { SameHeader(headers, tree[i], c[k]); }
    }
  }

  lemma NoChildYet(headers: seq<Header>, root: Header, tree: seq<Header>, done: nat, i: nat)
    requires root.parent.None? && Growing(headers, root, tree, done) && done < |tree| && i < |tree|
    ensures tree[i].parent != Some(tree[done].id)
  {
    if i > 0 {
      assert ParentDone(tree, done, tree[i]);
      var m :| 0 <= m < done && tree[i].parent == Some(tree[m].id);
      assert tree[m].id != tree[done].id;
    }
  }

  lemma SameHeader(headers: seq<Header>, a: Header, b: Header)
    requires DistinctIds(headers) && a in headers && b in headers && a.id == b.id
    ensures a == b
  {
  }

  lemma Expanded(headers: seq<Header>, root: Header, tree: seq<Header>, done: nat)
    requires DistinctIds(headers) && root.parent.None? && Growing(headers, root, tree, done) && done < |tree|
    ensures Growing(headers, root, tree + Children(headers, tree[done].id), done + 1)
  {
    var c := Children(headers, tree[done].id);
    var t := tree + c;
    NewChildren(headers, root, tree, done);
    forall k | 0 <= k < |t| ensures t[k] in headers && Descends(headers, root, t[k]) {
      if k >= |tree| { assert t[k] in c; OneBelow(headers, root, tree[done], t[k]); }
    }
    forall k | 0 < k < |t| ensures ParentDone(t, done + 1, t[k]) {
      if k < |tree| {
        assert ParentDone(tree, done, tree[k]);
        var m :| 0 <= m < done && tree[k].parent == Some(tree[m].id);
        assert t[m] == tree[m];
      } else {
        assert t[k] in c && t[done] == tree[done];
      }
    }
    forall k, h | 0 <= k < done + 1 && h in headers && h.parent == Some(t[k].id) ensures h in t {
      if k < done { assert t[k] == tree[k]; } else { assert h in c; }
    }
  }

  lemma {:induction false} NoMore(headers: seq<Header>, tree: seq<Header>)
    requires DistinctIds(tree) && forall h :: h in tree ==> h in headers
    ensures |tree| <= |headers|
    decreases |headers|
  {
    if tree != [] {
      var last, front := tree[|tree| - 1], tree[..|tree| - 1];
      assert last in tree;
      var i :| 0 <= i < |headers| && headers[i] == last;
      var rest := headers[..i] + headers[i + 1..];
      forall h | h in front ensures h in rest {
        var k :| 0 <= k < |front| && front[k] == h;
        assert tree[k] == h && h.id != last.id && h in tree;
        var j :| 0 <= j < |headers| && headers[j] == h;
        assert h == if j < i then rest[j] else rest[j - 1];
      }
      NoMore(rest, front);
    }
  }

  lemma {:induction false} ReachedAll(headers: seq<Header>, root: Header, tree: seq<Header>, h: Header, n: nat)
    requires DistinctIds(headers) && Growing(headers, root, tree, |tree|) && h in headers && Below(headers, root, h, n)
    ensures h in tree
    decreases n
  {
    if n > 0 {
      var p :| p in headers && h.parent == Some(p.id) && Below(headers, root, p, n - 1);
      ReachedAll(headers, root, tree, p, n - 1);
      var k :| 0 <= k < |tree| && tree[k] == p;
    } else {
      assert tree[0] == h;
    }
  }

  /** The collection loop of `cleanup_trees`, which extends the list it iterates over: it ends
      for every finite set of headers, parents in a cycle included, and collects the root's
      descendants, each once. */
  method CollectTree(headers: seq<Header>, root: Header) returns (tree: seq<Header>)
    requires DistinctIds(headers) && root in headers && root.parent.None?
    ensures DistinctIds(tree) && tree != [] && tree[0] == root
    ensures forall h :: h in tree <==> h in headers && Descends(headers, root, h)
  {
    tree := [root];
    assert Below(headers, root, root, 0);
    var i := 0;
    while i < |tree|
      invariant Growing(headers, root, tree, i)
      decreases |headers| - i
    {
      NoMore(headers, tree);
      Expanded(headers, root, tree, i);
      tree := tree + Children(headers, tree[i].id);
      i := i + 1;
    }
    forall h | h in headers && Descends(headers, root, h) ensures h in tree {
      var n: nat :| Below(headers, root, h, n);
      ReachedAll(headers, root, tree, h, n);
    }
  }

  /* ---- paging ---- */

  /** The sort key of a root: its creation time and id. */
  datatype Key = Key(created: int, id: int)

  predicate Before(a: Key, b: Key) {
    a.created < b.created || (a.created == b.created && a.id < b.id)
  }

  ghost predicate Sorted(roots: seq<Key>) {
    forall i, k :: 0 <= i < k < |roots| ==> Before(roots[i], roots[k])
  }

  /** The matching roots past a cursor, in order. */
  function Past(roots: seq<Key>, after: Option<Key>): seq<Key> {
    if roots == [] then []
    else
      var last := roots[|roots| - 1];
      if after.None? || Before(after.value, last) then Past(roots[..|roots| - 1], after) + [last]
      else Past(roots[..|roots| - 1], after)
  }

  /** How many roots, from the first, a cursor has passed. */
  ghost predicate At(roots: seq<Key>, after: Option<Key>, n: nat) {
    n <= |roots| && (if n == 0 then after.None? || (roots != [] ==> Before(after.value, roots[0])) else after == Some(roots[n - 1]))
  }

  lemma {:induction false} PastIsSuffix(roots: seq<Key>, after: Option<Key>, n: nat)
    requires Sorted(roots) && At(roots, after, n)
    ensures Past(roots, after) == roots[n..]
    decreases |roots|
  {
    if roots != [] {
      var front, last := roots[..|roots| - 1], roots[|roots| - 1];
      if n == |roots| {
        PassedAll(roots, after);
      } else {
        assert After(roots, after, |roots| - 1) by { NotPassed(roots, after, n, |roots| - 1); }
        if n < |roots| - 1 || n == 0 || |front| > 0 {
          assert At(front, after, n);
          PastIsSuffix(front, after, n);
        }
        assert roots[n..] == front[n..] + [last];
      }
    }
  }

  ghost predicate After(roots: seq<Key>, after: Option<Key>, k: nat)
    requires k < |roots|
  {
    after.None? || Before(after.value, roots[k])
  }

  lemma NotPassed(roots: seq<Key>, after: Option<Key>, n: nat, k: nat)
    requires Sorted(roots) && At(roots, after, n) && n <= k < |roots|
    ensures After(roots, after, k)
  {
    if n == 0 && after.Some? && k > 0 { assert Before(roots[0], roots[k]); }
  }

  lemma {:induction false} PassedAll(roots: seq<Key>, after: Option<Key>)
    requires after.Some? && forall k :: 0 <= k < |roots| ==> !Before(after.value, roots[k])
    ensures Past(roots, after) == []
  {
    if roots != [] { PassedAll(roots[..|roots| - 1], after); }
  }

  /** How an attempt to delete a root ends: `deleted` or not there, busy, revised since it was
      selected, an infrastructure failure, any other failure. */
  datatype Deletion = Gone(deleted: bool) | Busy | Revised | Infrastructure | Broken

  datatype Status = Active | Candidate | Deleted | Absent | Changed | Failed | Unknown

  datatype Outcome = Outcome(root: Key, status: Status)

  /** What one call is asked, and what it meets: which roots are active, how deletions end. */
  datatype Call = Call(dryRun: bool, allowActive: bool, selectFails: bool, active: set<Key>, deletion: Key -> Deletion)

  /** What is reported of one root. */
  function StatusOf(call: Call, root: Key): Status {
    if root in call.active && !call.allowActive then Active
    else if call.dryRun then Candidate
    else
      match call.deletion(root)
      case Gone(deleted) => if deleted then Deleted else Absent
      case Busy => Active
      case Revised => Changed
      case Infrastructure => Unknown
      case Broken => Failed
  }

  /** A deletion is attempted: not on a dry run, nor of an active root unless that is allowed. */
  predicate Attempted(call: Call, root: Key) {
    !call.dryRun && (root in call.active ==> call.allowActive)
  }

  /** What each status tells. */
  ghost predicate Tells(call: Call, root: Key, status: Status) {
    && (status == Deleted <==> Attempted(call, root) && call.deletion(root) == Gone(true))
    && (status == Absent <==> Attempted(call, root) && call.deletion(root) == Gone(false))
    && (status == Changed <==> Attempted(call, root) && call.deletion(root) == Revised)
    && (status == Failed <==> Attempted(call, root) && call.deletion(root) == Broken)
    && (status == Unknown <==> Attempted(call, root) && call.deletion(root) == Infrastructure)
    && (status == Candidate <==> call.dryRun && (root in call.active ==> call.allowActive))
    && (status == Active <==> (root in call.active && !call.allowActive) || (Attempted(call, root) && call.deletion(root) == Busy))
  }

  lemma StatusTells(call: Call, root: Key)
    ensures Tells(call, root, StatusOf(call, root))
  {
  }

  predicate Down(call: Call, root: Key) {
    StatusOf(call, root) == Unknown
  }

  /** A report: the roots with their outcomes, where to go on, and whether an infrastructure
      failure cut the page short.  At the end there is nowhere to go on. */
  datatype Report = Report(results: seq<Outcome>, next: Option<Key>, failed: bool)

  function Outcomes(call: Call, page: seq<Key>): (r: seq<Outcome>)
    ensures |r| == |page|
    ensures forall i :: 0 <= i < |page| ==> r[i] == Outcome(page[i], StatusOf(call, page[i]))
  {
    seq(|page|, i requires 0 <= i < |page| => Outcome(page[i], StatusOf(call, page[i])))
  }

  /** How many leading roots meet no infrastructure failure. */
  function Settled(call: Call, page: seq<Key>): (n: nat)
    ensures n <= |page|
    ensures forall i :: 0 <= i < n ==> !Down(call, page[i])
    ensures n < |page| ==> Down(call, page[n])
  {
    if page == [] || Down(call, page[0]) then 0 else 1 + Settled(call, page[1..])
  }

  function Min(a: nat, b: nat): nat { if a < b then a else b }

  /** A page of candidates: every root up to the first infrastructure failure has its outcome,
      the failing one is listed as unknown, and the cursor stays before it. */
  function Paged(call: Call, page: seq<Key>, more: bool, after: Option<Key>): Report {
    var n := Settled(call, page);
    var cursor := if n == 0 then after else Some(page[n - 1]);
    if n < |page| then Report(Outcomes(call, page[..n + 1]), cursor, true)
    else Report(Outcomes(call, page), if more then cursor else None, false)
  }

  /** The first roots past the cursor, up to the limit; whether one more was selected tells if
      roots are left. */
  function Answer(call: Call, roots: seq<Key>, limit: nat, after: Option<Key>): Report {
    var past := Past(roots, after);
    Paged(call, past[..Min(limit, |past|)], |past| > limit, after)
  }

  /** `Runtime.cleanup`, for one page of the roots that match. */
  method CleanupPage(roots: seq<Key>, limit: nat, after: Option<Key>, call: Call) returns (report: Report)
    requires 1 <= limit <= 1000
    ensures report == if call.selectFails then Report([], after, true) else Answer(call, roots, limit, after)
    ensures forall i :: 0 <= i < |report.results| ==> Tells(call, report.results[i].root, report.results[i].status)
  {
    if call.selectFails { return Report([], after, true); }
    var past := Past(roots, after);
    var candidates := past[..Min(limit + 1, |past|)];
    var page := candidates[..Min(limit, |candidates|)];
    FirstOfFirst(past, limit);
    var results, cursor, failed := HandlePage(page, after, call);
    if failed { return Report(results, cursor, true); }
    report := Report(results, if |candidates| > limit then cursor else None, false);
  }

  /** One candidate more than the limit is selected, to see if roots are left. */
  lemma FirstOfFirst(past: seq<Key>, limit: nat)
    ensures var candidates := past[..Min(limit + 1, |past|)];
            && candidates[..Min(limit, |candidates|)] == past[..Min(limit, |past|)]
            && (|candidates| > limit <==> |past| > limit)
  {
  }

  lemma OutcomesNext(call: Call, page: seq<Key>, i: nat)
    requires i < |page|
    ensures Outcomes(call, page[..i + 1]) == Outcomes(call, page[..i]) + [Outcome(page[i], StatusOf(call, page[i]))]
  {
  }

  /** The loop over the candidates: the cursor moves past each root that is dealt with. */
  method HandlePage(page: seq<Key>, after: Option<Key>, call: Call) returns (results: seq<Outcome>, cursor: Option<Key>, failed: bool)
    ensures failed <==> Settled(call, page) < |page|
    ensures results == Outcomes(call, if failed then page[..Settled(call, page) + 1] else page)
    ensures cursor == if Settled(call, page) == 0 then after else Some(page[Settled(call, page) - 1])
    ensures forall i :: 0 <= i < |results| ==> Tells(call, results[i].root, results[i].status)
  {
    results, cursor, failed := [], after, false;
    for i := 0 to |page|
      invariant results == Outcomes(call, page[..i]) && cursor == (if i == 0 then after else Some(page[i - 1]))
      invariant i <= Settled(call, page)
      invariant forall k :: 0 <= k < |results| ==> Tells(call, results[k].root, results[k].status)
    {
      StatusTells(call, page[i]);
      var status := StatusOf(call, page[i]);
      OutcomesNext(call, page, i);
      results := results + [Outcome(page[i], status)];
      if status == Unknown { return results, cursor, true; }
      cursor := Some(page[i]);
    }
    assert page[..|page|] == page;
  }

  /** One page from a cursor that has passed `n` roots: the next ones have their outcomes, in
      order.  A failure leaves the cursor before the root that failed; otherwise there is a
      cursor to go on from exactly if roots are left. */
  lemma PageAdvances(roots: seq<Key>, limit: nat, after: Option<Key>, n: nat, call: Call) returns (m: nat)
    requires Sorted(roots) && At(roots, after, n) && limit >= 1
    ensures n <= m <= |roots| && m - n <= limit
    ensures forall i :: n <= i < m ==> !Down(call, roots[i])
    ensures !Answer(call, roots, limit, after).failed ==> m - n == Min(limit, |roots| - n)
    ensures var r := Answer(call, roots, limit, after);
            && (r.failed ==> m < |roots| && Down(call, roots[m]) && r.results == Outcomes(call, roots[n..m + 1]) && At(roots, r.next, m))
            && (!r.failed ==> r.results == Outcomes(call, roots[n..m]))
            && (!r.failed && r.next.Some? ==> m < |roots| && At(roots, r.next, m))
            && (!r.failed && r.next.None? ==> m == |roots|)
  {
    PastIsSuffix(roots, after, n);
    var e := n + Min(limit, |roots| - n);
    m := PagedAdvances(roots, n, e, after, call);
    assert roots[n..][..Min(limit, |roots[n..]|)] == roots[n..e];
  }

  lemma PagedAdvances(roots: seq<Key>, n: nat, e: nat, after: Option<Key>, call: Call) returns (m: nat)
    requires n <= e <= |roots| && At(roots, after, n) && (e < |roots| ==> n < e)
    ensures n <= m <= e && forall i :: n <= i < m ==> !Down(call, roots[i])
    ensures !Paged(call, roots[n..e], e < |roots|, after).failed ==> m == e
    ensures var r := Paged(call, roots[n..e], e < |roots|, after);
            && (r.failed ==> m < |roots| && Down(call, roots[m]) && r.results == Outcomes(call, roots[n..m + 1]) && At(roots, r.next, m))
            && (!r.failed ==> r.results == Outcomes(call, roots[n..m]))
            && (!r.failed && r.next.Some? ==> m < |roots| && At(roots, r.next, m))
            && (!r.failed && r.next.None? ==> m == |roots|)
  {
    var page := roots[n..e];
    var k := Settled(call, page);
    m := n + k;
    forall i | n <= i < m ensures !Down(call, roots[i]) { assert page[i - n] == roots[i]; }
    if k < |page| { assert page[..k + 1] == roots[n..m + 1]; }
  }

  /** The roots dealt with by following the cursor through calls, up to the end: those with an
      outcome other than unknown. */
  function Follow(roots: seq<Key>, limit: nat, after: Option<Key>, calls: seq<Call>): (r: (seq<Key>, bool))
    decreases |calls|
  {
    if calls == [] then ([], false)
    else if calls[0].selectFails then Follow(roots, limit, after, calls[1..])
    else
      var report := Answer(calls[0], roots, limit, after);
      if !report.failed && report.next.None? then (DealtWith(report.results), true)
      else
        var rest := Follow(roots, limit, report.next, calls[1..]);
        (DealtWith(report.results) + rest.0, rest.1)
  }

  function DealtWith(results: seq<Outcome>): seq<Key> {
    if results == [] then []
    else
      var front, last := DealtWith(results[..|results| - 1]), results[|results| - 1];
      if last.status == Unknown then front else front + [last.root]
  }

  lemma {:induction false} OutcomesAreDealtWith(call: Call, page: seq<Key>)
    requires forall i :: 0 <= i < |page| ==> !Down(call, page[i])
    ensures DealtWith(Outcomes(call, page)) == page
    decreases |page|
  {
    if page != [] {
      var front := page[..|page| - 1];
      OutcomesAreDealtWith(call, front);
      assert Outcomes(call, page)[..|page| - 1] == Outcomes(call, front);
    }
  }

  lemma UnknownIsNot(call: Call, page: seq<Key>, root: Key)
    requires Down(call, root)
    ensures DealtWith(Outcomes(call, page + [root])) == DealtWith(Outcomes(call, page))
  {
    assert Outcomes(call, page + [root])[..|page|] == Outcomes(call, page);
  }

  /** The roots one page deals with. */
  lemma PageDealsWith(roots: seq<Key>, limit: nat, after: Option<Key>, n: nat, call: Call) returns (m: nat)
    requires Sorted(roots) && At(roots, after, n) && limit >= 1
    ensures n <= m <= |roots|
    ensures var r := Answer(call, roots, limit, after);
            && DealtWith(r.results) == roots[n..m]
            && (r.failed || r.next.Some? ==> At(roots, r.next, m))
            && (!r.failed && r.next.None? ==> m == |roots|)
  {
    m := PageAdvances(roots, limit, after, n, call);
    SettledAreDealtWith(call, roots, n, m);
  }

  lemma SettledAreDealtWith(call: Call, roots: seq<Key>, n: nat, m: nat)
    requires n <= m <= |roots| && forall i :: n <= i < m ==> !Down(call, roots[i])
    ensures DealtWith(Outcomes(call, roots[n..m])) == roots[n..m]
    ensures m < |roots| && Down(call, roots[m]) ==> DealtWith(Outcomes(call, roots[n..m + 1])) == roots[n..m]
  {
    OutcomesAreDealtWith(call, roots[n..m]);
    if m < |roots| && Down(call, roots[m]) {
      UnknownIsNot(call, roots[n..m], roots[m]);
      assert roots[n..m] + [roots[m]] == roots[n..m + 1];
    }
  }

  lemma JoinSlices(roots: seq<Key>, n: nat, k: nat, m: nat)
    requires n <= k <= m <= |roots|
    ensures roots[n..k] + roots[k..m] == roots[n..m]
  {
  }

  /** However often the infrastructure fails, following the cursor deals with the matching roots
      in order, none twice, and all of them once the cursor ends. */
  lemma {:induction false} EveryRootOnce(roots: seq<Key>, limit: nat, after: Option<Key>, n: nat, calls: seq<Call>) returns (m: nat)
    requires Sorted(roots) && At(roots, after, n) && limit >= 1
    ensures n <= m <= |roots| && Follow(roots, limit, after, calls).0 == roots[n..m]
    ensures Follow(roots, limit, after, calls).1 ==> m == |roots|
    decreases |calls|
  {
    m := n;
    if calls != [] {
      if calls[0].selectFails {
        m := EveryRootOnce(roots, limit, after, n, calls[1..]);
      } else {
        m := PageDealsWith(roots, limit, after, n, calls[0]);
        var report := Answer(calls[0], roots, limit, after);
        if report.failed || report.next.Some? {
          var k := m;
          m := EveryRootOnce(roots, limit, report.next, k, calls[1..]);
          JoinSlices(roots, n, k, m);
        }
      }
    }
  }
}
