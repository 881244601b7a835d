/** The dispatchers of a coordinator instance: one per root, four in all. */
module Dispatch {
  type RootId = string
  type TaskId = nat

  const MAX_DISPATCHERS := 4

  /** The single dispatch loop and the dispatchers it starts.  `asked` is the list of busy roots the
      loop's query was sent with; tasks may end while the query is under way. */
  class Dispatcher {
    var dispatchers: map<RootId, TaskId>
    var asked: set<RootId>
    var asking: bool
    var peak: nat
    ghost var running: map<TaskId, RootId>

    ghost predicate Valid()
      reads this
    {
      && (forall r :: r in dispatchers ==> dispatchers[r] in running && running[dispatchers[r]] == r)
      && (forall k :: k in running ==> running[k] in dispatchers && dispatchers[running[k]] == k)
      && |dispatchers| <= MAX_DISPATCHERS && |dispatchers| <= peak <= MAX_DISPATCHERS
      && (asking ==> dispatchers.Keys <= asked && |dispatchers| < MAX_DISPATCHERS)
    }

    /** No two running tasks serve the same root. */
    lemma OnePerRoot(j: TaskId, k: TaskId)
      requires Valid() && j in running && k in running && running[j] == running[k]
      ensures j == k
    {
    }

    constructor ()
      ensures Valid() && dispatchers == map[] && running == map[]
    {
      dispatchers, asked, asking, peak, running := map[], {}, false, 0, map[];
    }

    /** The loop asks for a request of a root that is not busy. */
    method Ask() returns (sent: bool)
      requires Valid() && !asking
      modifies this`asked, this`asking
      ensures Valid() && asking == sent == (|dispatchers| < MAX_DISPATCHERS)
      ensures asked == if sent then dispatchers.Keys else old(asked)
    {
      sent := |dispatchers| < MAX_DISPATCHERS;
      if sent { asked, asking := dispatchers.Keys, true; }
    }

    /** The answer: a root that was not in the list, and a task for it. */
    method Start(root: RootId, task: TaskId)
      requires Valid() && asking && root !in asked && task !in running
      modifies this
      ensures Valid() && !asking && running == old(running)[task := root] && dispatchers == old(dispatchers)[root := task]
      ensures peak == if old(peak) < |dispatchers| then |dispatchers| else old(peak)
    {
      assert root !in dispatchers;
      assert |dispatchers[root := task]| == |dispatchers| + 1 by { AddKey(dispatchers, root, task); }
      dispatchers := dispatchers[root := task];
      running := running[task := root];
      asking := false;
      if peak < |dispatchers| { peak := |dispatchers|; }
    }

    /** Nothing to do, or the query failed. */
    method Nothing()
      requires Valid() && asking
      modifies this`asking
      ensures Valid() && !asking
    {
      asking := false;
    }

    /** A task ends and takes its own entry out. */
    method Finish(root: RootId, task: TaskId)
      requires Valid() && task in running && running[task] == root
      modifies this`dispatchers, this`running
      ensures Valid() && running == old(running) - {task} && dispatchers == old(dispatchers) - {root}
    {
      if root in dispatchers && dispatchers[root] == task {
        DropKey(dispatchers, root);
        dispatchers := dispatchers - {root};
      }
      running := running - {task};
    }
  }

  lemma AddKey(m: map<RootId, TaskId>, r: RootId, k: TaskId)
    requires r !in m
    ensures |m[r := k]| == |m| + 1
  {
    assert m[r := k].Keys == m.Keys + {r};
  }

  lemma DropKey(m: map<RootId, TaskId>, r: RootId)
    requires r in m
    ensures |m - {r}| == |m| - 1
  {
    assert (m - {r}).Keys == m.Keys - {r};
  }
}
