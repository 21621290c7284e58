/** RunTaskRegistry and the parts of ActiveRunCancellationControl it drives, as the code that runs
    between suspensions, proved against the state machine of RunLifecycle. */
module RunRegistry {
  import opened RunLifecycle
  import F = FileOperations

  datatype Owner = Unowned | Owned(op: OpId)

  /** Where a suspended coroutine will go on. */
  datatype Point = Waits(wish: Wish) | Inside(section: Section)

  function OwnerOf(lock: Lock): Owner { if lock.Held? then Owned(lock.op) else Unowned }

  function Points(waiting: map<OpId, Wish>, lock: Lock): map<OpId, Point> {
    var waits := map op | op in waiting :: Waits(waiting[op]);
    if lock.Held? then waits[lock.op := Inside(lock.section)] else waits
  }

  lemma PointsChange(waiting: map<OpId, Wish>, op: OpId, section: Section)
    requires op in waiting
    ensures Points(waiting - {op}, Free) == Points(waiting, Free) - {op}
    ensures Points(waiting - {op}, Held(op, section)) == Points(waiting, Free)[op := Inside(section)]
  {
  }

  lemma PointsLeave(waiting: map<OpId, Wish>, op: OpId, section: Section)
    requires op !in waiting
    ensures Points(waiting, Free) == Points(waiting, Held(op, section)) - {op}
  {
  }

  /** The end of the storage check is the end of a joined call: a task is created exactly if the check
      succeeded and the caller was not cancelled before, however often and whenever. */
  lemma StorageCheckJoined(s: State, c: Section, task: TaskId, events: seq<F.Event<(), ()>>)
    requires c.Preparing? && !c.interrupted && task !in s.tasks
    requires F.Possible(F.Begun(), events) && F.Run(F.Begun(), events).point.Left? && F.Throw !in events
    ensures var call := F.Run(F.Begun(), events);
      && !call.worker.Running?
      && (task in EndPreparing(s, c.(interrupted := F.Cancel in events), call.worker.Value?, task).tasks <==>
            call.point.exit.Returned? && !c.detach)
  {
    F.GoesOnExactly(events);
    F.DropsNothing(events);
  }

  class RunTaskRegistry {
    var activeRuns: map<RunId, TaskId>
    var lock: Owner
    var closing: bool
    var shutdownTask: Drain
    var tasks: map<TaskId, Task>
    var suspended: map<OpId, Point>
    ghost var state: State

    ghost predicate Represents(s: State)
      reads this
    {
      && activeRuns == s.active && closing == s.closing && shutdownTask == s.drain && tasks == s.tasks
      && lock == OwnerOf(s.lock) && suspended == Points(s.waiting, s.lock)
    }

    /** The fields are the state's. That the state itself keeps its invariant is StepKeepsInv: every
        method below is one step of the machine. */
    ghost predicate Valid()
      reads this
    {
      Represents(state)
    }

    constructor (ghost durable: map<Intent, nat>)
      ensures Valid() && state == Fresh(durable)
    {
      activeRuns, lock, closing, shutdownTask, tasks, suspended := map[], Unowned, false, NotStarted, map[], map[];
      state := Fresh(durable);
    }

    /** A coroutine waiting for the free lock, seen from the machine. */
    lemma AtTheLock(op: OpId)
      requires Valid() && lock == Unowned && op in suspended && suspended[op].Waits?
      ensures state.lock == Free && op in state.waiting && state.waiting[op] == suspended[op].wish
      ensures suspended == Points(state.waiting, Free)
    {
    }

    /** The lock's owner, seen from the machine. */
    lemma PastTheLock(op: OpId)
      requires Valid() && op in suspended && suspended[op].Inside?
      ensures state.lock == Held(op, suspended[op].section) && suspended == Points(state.waiting, state.lock)
    {
    }

    /** _remove_completed(), over a copy of the entries. */
    method RemoveCompleted(ghost s: State)
      requires ActiveOk(s) && activeRuns == s.active && tasks == s.tasks
      modifies this`activeRuns
      ensures activeRuns == Swept(s)
    {
      var runs := activeRuns.Keys;
      while runs != {}
        invariant runs <= s.active.Keys
        invariant activeRuns.Keys <= s.active.Keys
        invariant forall r :: r in s.active ==>
          (r in activeRuns <==> r in runs || !IsDone(s, s.active[r]))
          && (r in activeRuns ==> activeRuns[r] == s.active[r])
      {
        var run :| run in runs;
        if tasks[activeRuns[run]].done {
          activeRuns := activeRuns - {run};
        }
        runs := runs - {run};
      }
    }

    /** start(), from the moment it has the lock to its first suspension; true when it goes on to
        the storage check. */
    method StartSection(op: OpId) returns (accepted: bool)
      requires Valid() && ActiveOk(state) && lock == Unowned && op in suspended && suspended[op].Waits?
      requires suspended[op].wish.Start?
      modifies this
      ensures Valid() && state == Next(old(state), Enter(op))
      ensures accepted <==> state.lock.Held?
    {
      AtTheLock(op);
      hide Points, ActiveOk;
      var wish := suspended[op].wish;
      ghost var s := state;
      state := Next(s, Enter(op));
      PointsChange(s.waiting, op, Preparing(wish.run, wish.stop, wish.detach, false));
      if closing {
        suspended := suspended - {op};
        return false;
      }
      RemoveCompleted(s);
      if activeRuns != map[] {
        suspended := suspended - {op};
        return false;
      }
      lock := Owned(op);
      suspended := suspended[op := Inside(Preparing(wish.run, wish.stop, wish.detach, false))];
      accepted := true;
    }

    /** The storage check has ended, well or not, and after it start() either registers the task it
        creates or leaves without one. */
    method StartPrepared(op: OpId, eligible: bool, task: TaskId)
      requires Valid() && SectionOk(state) && op in suspended && suspended[op].Inside?
      requires suspended[op].section.Preparing?
      requires task !in tasks
      modifies this
      ensures Valid() && state == Next(old(state), Prepared(eligible, task))
    {
      PastTheLock(op);
      hide Points;
      PointsLeave(state.waiting, op, state.lock.section);
      var c := suspended[op].section;
      state := Next(state, Prepared(eligible, task));
      if eligible && !c.detach && !c.interrupted {
        tasks := tasks[task := Task(c.run, false, false, Control(c.stop, c.detach, Holder.Nobody))];
        activeRuns := activeRuns[c.run := task];
      }
      suspended := suspended - {op};
      lock := Unowned;
    }

    /** discard() up to its storage write. */
    method DiscardSection(op: OpId) returns (accepted: bool)
      requires Valid() && ActiveOk(state) && lock == Unowned && op in suspended && suspended[op].Waits?
      requires suspended[op].wish.Discard?
      modifies this
      ensures Valid() && state == Next(old(state), Enter(op))
      ensures accepted <==> state.lock.Held?
    {
      AtTheLock(op);
      hide Points, ActiveOk;
      var wish := suspended[op].wish;
      ghost var s := state;
      state := Next(s, Enter(op));
      PointsChange(s.waiting, op, Discarding(wish.run));
      if closing {
        suspended := suspended - {op};
        return false;
      }
      RemoveCompleted(s);
      if wish.run in activeRuns {
        suspended := suspended - {op};
        return false;
      }
      lock := Owned(op);
      suspended := suspended[op := Inside(Discarding(wish.run))];
      accepted := true;
    }

    /** request_cancellation() up to the cancellation control's lock; false when the run has no task. */
    method RequestSection(op: OpId) returns (found: bool)
      requires Valid() && ActiveOk(state) && lock == Unowned && op in suspended && suspended[op].Waits?
      requires suspended[op].wish.Cancel?
      modifies this
      ensures Valid() && state == Next(old(state), Enter(op))
      ensures found <==> state.lock.Held?
    {
      AtTheLock(op);
      hide Points, ActiveOk;
      var wish := suspended[op].wish;
      ghost var s := state;
      state := Next(s, Enter(op));
      RemoveCompleted(s);
      if wish.run !in activeRuns {
        PointsChange(s.waiting, op, Discarding(wish.run));
        suspended := suspended - {op};
        return false;
      }
      PointsChange(s.waiting, op, Requesting(wish.run, wish.mode, activeRuns[wish.run]));
      lock := Owned(op);
      suspended := suspended[op := Inside(Requesting(wish.run, wish.mode, activeRuns[wish.run]))];
      found := true;
    }

    /** After the record is durable: the control's flag, its lock, and for a detach task.cancel(). */
    method RequestStored(op: OpId)
      requires Valid() && SectionOk(state) && Enabled(state, Stored) && op in suspended && suspended[op].Inside?
      modifies this
      ensures Valid() && state == Next(old(state), Stored)
    {
      PastTheLock(op);
      hide Points;
      PointsLeave(state.waiting, op, state.lock.section);
      var c := suspended[op].section;
      var task := tasks[c.task];
      state := Next(state, Stored);
      if c.mode == Detach {
        task := task.(control := Control(task.control.stop, true, Holder.Nobody));
        task := task.(cancelled := true);
      } else {
        task := task.(control := Control(true, task.control.detach, Holder.Nobody));
      }
      tasks := tasks[c.task := task];
      suspended := suspended - {op};
      lock := Unowned;
    }

    /** _release(): a completion callback. */
    method ReleaseSection(op: OpId)
      requires Valid() && ActiveOk(state) && lock == Unowned && op in suspended && suspended[op].Waits?
      requires suspended[op].wish.Release?
      modifies this
      ensures Valid() && state == Next(old(state), Enter(op))
    {
      AtTheLock(op);
      hide Points, ActiveOk;
      var wish := suspended[op].wish;
      PointsChange(state.waiting, op, Discarding(wish.run));
      state := Next(state, Enter(op));
      if wish.run in activeRuns && activeRuns[wish.run] == wish.task {
        activeRuns := activeRuns - {wish.run};
      }
      suspended := suspended - {op};
    }

    /** shutdown(): admission is closed before the drain waits for the lock. */
    method BeginShutdown()
      requires Valid()
      modifies this
      ensures Valid() && state == Next(old(state), Shutdown)
    {
      state := Next(state, Shutdown);
      closing := true;
      if shutdownTask == NotStarted {
        shutdownTask := WaitingForLock;
      }
    }

    /** _drain(), from its first lock to the gather: snapshot the registered tasks and cancel each. */
    method DrainSection()
      requires Valid() && ActiveOk(state) && lock == Unowned && shutdownTask == WaitingForLock
      modifies this
      ensures Valid() && state == Next(old(state), BeginDrain)
    {
      ghost var before := tasks;
      var chosen := set r | r in activeRuns :: activeRuns[r];
      var pending := chosen;
      while pending != {}
        invariant pending <= chosen && tasks.Keys == before.Keys && chosen <= tasks.Keys
        invariant forall t ::
          t in before ==> tasks[t] == if t in chosen - pending then before[t].(cancelled := true) else before[t]
        invariant activeRuns == state.active && closing == state.closing && shutdownTask == state.drain
        invariant lock == OwnerOf(state.lock) && suspended == Points(state.waiting, state.lock) && state == old(state)
      {
        var t :| t in pending;
        if !tasks[t].cancelled {
          tasks := tasks[t := tasks[t].(cancelled := true)];
        }
        pending := pending - {t};
      }
      state := Next(state, BeginDrain);
      shutdownTask := Gathering(chosen);
      assert tasks == CancelAll(before, chosen);
    }

    /** _drain(), from its second lock to its end. */
    method ClearSection()
      requires Valid() && ActiveOk(state) && lock == Unowned && shutdownTask == Clearing
      modifies this
      ensures Valid() && state == Next(old(state), Clear)
    {
      state := Next(state, Clear);
      activeRuns := map[];
      shutdownTask := Finished;
    }
  }
}
