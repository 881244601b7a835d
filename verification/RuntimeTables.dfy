/** The runtime's in-memory tables of one root, updated in place: the loops that stop drains on a
    cancel, on lease loss and on closing, proved against the functions the turn protocol uses. */
module RuntimeTables {
  import opened Basics
  import opened Journal
  import opened TurnProtocol
  import opened TurnSafety

  lemma StopOneTask(m: Process, done: set<ActorId>, a: ActorId, l: TaskId)
    requires TasksOk(m) && done <= m.active.Keys && a in m.active && a !in done && l in m.tasks
    ensures l in StopAll(m, done).tasks && l in StopAll(m, done + {a}).tasks
    ensures l == m.active[a] ==> StopAll(m, done).tasks[l] == m.tasks[l]
    ensures StopAll(m, done + {a}).tasks[l] ==
            if l == m.active[a] then StopAll(m, done).tasks[l].(cancelled := true) else StopAll(m, done).tasks[l]
  {
    assert SlotOk(m, a);
    StopAllTask(m, done, l);
    StopAllTask(m, done + {a}, l);
  }

  lemma StopOneSlot(m: Process, done: set<ActorId>, a: ActorId)
    requires done <= m.active.Keys && a in m.active && a !in done
    ensures var s, n := StopAll(m, done), StopAll(m, done + {a});
      n.generations == s.generations[a := Generation(s, a) + 1] && n.active == s.active - {a}
      && a in s.active && s.active[a] == m.active[a]
  {
  }

  lemma StopOneTasks(m: Process, done: set<ActorId>, a: ActorId)
    requires TasksOk(m) && done <= m.active.Keys && a in m.active && a !in done
    ensures var s, k := StopAll(m, done), m.active[a];
      k in s.tasks && StopAll(m, done + {a}).tasks == s.tasks[k := s.tasks[k].(cancelled := true)]
      && s.tasks[k] == m.tasks[k]
  {
    var s, n, k := StopAll(m, done), StopAll(m, done + {a}), m.active[a];
    assert SlotOk(m, a);
    StopOneTask(m, done, a, k);
    assert n.tasks.Keys == s.tasks.Keys == m.tasks.Keys;
    forall l | l in n.tasks ensures n.tasks[l] == s.tasks[k := s.tasks[k].(cancelled := true)][l] {
      StopOneTask(m, done, a, l);
    }
  }

  /** One more drain is stopped. */
  function StopNext(s: Process, a: ActorId): Process
    requires a in s.active && s.active[a] in s.tasks
  {
    s.(generations := s.generations[a := Generation(s, a) + 1], active := s.active - {a},
       tasks := s.tasks[s.active[a] := s.tasks[s.active[a]].(cancelled := true)])
  }

  lemma StopOne(m: Process, done: set<ActorId>, a: ActorId)
    requires TasksOk(m) && done <= m.active.Keys && a in m.active && a !in done
    ensures var s := StopAll(m, done);
            a in s.active && s.active[a] in s.tasks && StopAll(m, done + {a}) == StopNext(s, a)
  {
    StopOneSlot(m, done, a);
    StopOneTasks(m, done, a);
  }

  /** What a cancel sees of an actor it has not handled yet. */
  lemma NotYetStopped(m: Process, done: set<ActorId>, targets: map<ActorId, seq<TurnId>>, a: ActorId)
    requires TasksOk(m) && done <= m.active.Keys && a !in done && a in targets
    ensures var s := StopAll(m, done);
      && (a in s.active <==> a in m.active)
      && (a in m.active ==>
            s.active[a] in s.tasks
            && (Stopped(m, targets, a) <==> (s.tasks[s.active[a]].phase.Engine? ==> s.tasks[s.active[a]].phase.turn in targets[a])))
  {
    if a in m.active {
      assert SlotOk(m, a);
      StopAllTask(m, done, m.active[a]);
    }
  }

  class Runtime {
    var own: Option<nat>
    var unrecovered: bool
    var generations: map<ActorId, nat>
    var active: map<ActorId, TaskId>
    var tasks: map<TaskId, Task>
    var hold: Option<Hold>
    var closing: bool

    constructor ()
      ensures Memory() == Process(None, false, map[], map[], map[], None, false)
    {
      own, unrecovered, generations, active, tasks, hold, closing := None, false, map[], map[], map[], None, false;
    }

    ghost function Memory(): Process
      reads this
    {
      Process(own, unrecovered, generations, active, tasks, hold, closing)
    }

    method StopDrain(a: ActorId, ghost m: Process, ghost done: set<ActorId>)
      requires TasksOk(m) && done <= m.active.Keys && a in m.active && a !in done
      requires Memory() == StopAll(m, done)
      modifies this
      ensures Memory() == StopAll(m, done + {a})
    {
      StopOne(m, done, a);
      StopTask(a);
    }

    method StopTask(a: ActorId)
      requires a in active && active[a] in tasks
      modifies this
      ensures Memory() == StopNext(old(Memory()), a)
    {
      var task := active[a];
      generations := generations[a := (if a in generations then generations[a] else 0) + 1];
      active := active - {a};
      tasks := tasks[task := tasks[task].(cancelled := true)];
    }

    /** `_cancel_local`: stop the drain of each targeted actor unless it runs another turn. */
    method CancelLocal(targets: map<ActorId, seq<TurnId>>)
      requires TasksOk(Memory())
      modifies this
      ensures Memory() == TurnProtocol.CancelLocal(old(Memory()), targets)
      ensures TasksOk(Memory())
      ensures Slotted(old(Memory())) && StopsTargets(old(Memory()), Memory(), targets)
    {
      CancelIsExact(Memory(), targets);
      StopTargeted(targets);
    }

    /** Its loop. */
    method StopTargeted(targets: map<ActorId, seq<TurnId>>)
      requires TasksOk(Memory())
      modifies this
      ensures Memory() == TurnProtocol.CancelLocal(old(Memory()), targets)
      ensures TasksOk(Memory())
    {
      ghost var m := Memory();
      ghost var done: set<ActorId> := {};
      assert StopAll(m, {}) == m by { assert forall k :: k in m.tasks ==> !StopsTask(m, {}, k); }
      var left := targets.Keys;
      while left != {}
        invariant left <= targets.Keys
        invariant done <= m.active.Keys
        invariant forall a :: a in done <==> a in m.active && Stopped(m, targets, a) && a !in left
        invariant Memory() == StopAll(m, done)
        decreases left
      {
        var a :| a in left;
        NotYetStopped(m, done, targets, a);
        if a in active && (tasks[active[a]].phase.Engine? ==> tasks[active[a]].phase.turn in targets[a]) {
          StopDrain(a, m, done);
          done := done + {a};
        }
        left := left - {a};
      }
      assert done == set a | a in m.active && Stopped(m, targets, a);
      StopAllOk(m, done);
    }

    /** The loop over the active drains. */
    method StopEvery()
      requires TasksOk(Memory())
      modifies this
      ensures Memory() == StopAll(old(Memory()), old(active).Keys)
    {
      ghost var m := Memory();
      ghost var done: set<ActorId> := {};
      assert StopAll(m, {}) == m by { assert forall k :: k in m.tasks ==> !StopsTask(m, {}, k); }
      var left := active.Keys;
      while left != {}
        invariant left <= m.active.Keys && done == m.active.Keys - left
        invariant Memory() == StopAll(m, done)
        decreases left
      {
        var a :| a in left;
        StopDrain(a, m, done);
        done := done + {a};
        left := left - {a};
      }
      assert done == m.active.Keys;
    }

    /** `_invalidate_root_locked`: forget the ownership and stop every active drain. */
    method InvalidateRoot()
      requires TasksOk(Memory())
      modifies this
      ensures Memory() == TurnProtocol.InvalidateRoot(old(Memory()))
      ensures own == None && closing == old(closing) && Slotted(old(Memory())) && StopsEvery(old(Memory()), Memory())
    {
      EveryIsStopped(Memory());
      StopEvery();
      own := None;
    }

    /** The first part of `_close_coordinated`: no drain starts any more, and the active ones are
        stopped, while the ownership is kept to end their turns. */
    method Close()
      requires TasksOk(Memory())
      modifies this
      ensures Memory() == StopAll(old(Memory()), old(active).Keys).(closing := true)
      ensures TasksOk(Memory()) && Quiet(Memory())
      ensures own == old(own) && closing && Slotted(old(Memory())) && StopsEvery(old(Memory()), Memory())
    {
      EveryIsStopped(Memory());
      ClosedMemory(Memory());
      StopEvery();
      closing := true;
    }
  }
}
