/** What every step of the registry does, component by component: which step ends, cancels or creates a
    task, sets a record, enters or removes a registration, takes or frees a lock; and that no step does
    anything else. */
module RunSteps {
  import opened RunLifecycle

  // ---------- tasks ----------

  predicate IsRegistered(s: State, t: TaskId) { exists r :: r in s.active && s.active[r] == t }

  lemma RegisteredMeaning(s: State, t: TaskId)
    ensures t in Registered(s) <==> IsRegistered(s, t)
  {
  }

  /** The steps that do not end or interrupt a section of the registry lock. */
  predicate Outside(e: Event) {
    !e.Enter? && !e.Prepared? && !e.Discarded? && !e.TakeControl? && !e.Stored? && !e.StoreFailed? && !e.Interrupt?
  }

  /** A task ends by completing, and keeps its run. */
  lemma DoneExactly(s: State, e: Event, t: TaskId)
    requires Enabled(s, e) && t in s.tasks
    ensures t in Next(s, e).tasks && Next(s, e).tasks[t].run == s.tasks[t].run
    ensures Next(s, e).tasks[t].done <==> s.tasks[t].done || (e.Complete? && e.task == t)
  {
    hide Next, Enabled;
    if Outside(e) { DoneExactlyOutside(s, e, t); } else { DoneExactlyInside(s, e, t); }
  }

  lemma DoneExactlyOutside(s: State, e: Event, t: TaskId)
    requires Enabled(s, e) && t in s.tasks && Outside(e)
    ensures t in Next(s, e).tasks && Next(s, e).tasks[t].run == s.tasks[t].run
    ensures Next(s, e).tasks[t].done <==> s.tasks[t].done || (e.Complete? && e.task == t)
  {
    hide EnterSection, Swept, Registered, Unused, IsDone;
    hide Flagged, InterruptOwner, EndPreparing;
  }

  lemma DoneExactlyInside(s: State, e: Event, t: TaskId)
    requires Enabled(s, e) && t in s.tasks && !Outside(e)
    ensures t in Next(s, e).tasks && Next(s, e).tasks[t].run == s.tasks[t].run
    ensures Next(s, e).tasks[t].done <==> s.tasks[t].done
  {
    hide EnterSection, Swept, Registered, Unused, IsDone;
    match e
    case Enter(op) => EnterKeepsTasks(s, op);
    case Stored => hide InterruptOwner, EndPreparing, CancelAll;
    case Interrupt(op) => hide Flagged, EndPreparing, CancelAll;
    case Prepared(eligible, task) => hide Flagged, InterruptOwner, CancelAll;
    case _ => hide Flagged, InterruptOwner, EndPreparing;
  }

  /** A task is cancelled by a stored detach of its own, or by the drain if it is registered under some run;
      and no step takes that back. */
  lemma CancelledExactly(s: State, e: Event, t: TaskId)
    requires Enabled(s, e) && t in s.tasks
    ensures t in Next(s, e).tasks
    ensures Next(s, e).tasks[t].cancelled <==>
      || s.tasks[t].cancelled
      || (e.Stored? && StoringFor(s, t) && s.lock.section.mode == Detach)
      || (e.BeginDrain? && IsRegistered(s, t))
  {
    hide Next, Enabled;
    if Outside(e) { CancelledExactlyOutside(s, e, t); } else { CancelledExactlyInside(s, e, t); }
  }

  lemma CancelledExactlyOutside(s: State, e: Event, t: TaskId)
    requires Enabled(s, e) && t in s.tasks && Outside(e)
    ensures t in Next(s, e).tasks
    ensures Next(s, e).tasks[t].cancelled <==> s.tasks[t].cancelled || (e.BeginDrain? && IsRegistered(s, t))
  {
    RegisteredMeaning(s, t);
    hide EnterSection, Swept, Registered, Unused, IsRegistered, IsDone;
    hide Flagged, InterruptOwner, EndPreparing;
  }

  lemma CancelledExactlyInside(s: State, e: Event, t: TaskId)
    requires Enabled(s, e) && t in s.tasks && !Outside(e)
    ensures t in Next(s, e).tasks
    ensures Next(s, e).tasks[t].cancelled <==>
      || s.tasks[t].cancelled
      || (e.Stored? && StoringFor(s, t) && s.lock.section.mode == Detach)
  {
    RegisteredMeaning(s, t);
    hide EnterSection, Swept, Registered, Unused, IsRegistered, IsDone;
    match e
    case Enter(op) => EnterKeepsTasks(s, op);
    case Stored => hide InterruptOwner, EndPreparing, CancelAll;
    case Interrupt(op) => hide Flagged, EndPreparing, CancelAll;
    case Prepared(eligible, task) => hide Flagged, InterruptOwner, CancelAll;
    case _ => hide Flagged, InterruptOwner, EndPreparing;
  }

  /** A task is created by the end of a start's storage check, if it went well, the run was not detached and
      nobody cancelled the caller; it carries the stop that was read before. */
  lemma CreatedExactly(s: State, e: Event, t: TaskId)
    requires Enabled(s, e) && t !in s.tasks
    ensures t in Next(s, e).tasks <==>
      e == Prepared(true, t) && !s.lock.section.detach && !s.lock.section.interrupted
    ensures t in Next(s, e).tasks ==>
      Next(s, e).tasks[t] == Task(s.lock.section.run, false, false, Control(s.lock.section.stop, false, Nobody))
  {
    hide EnterSection, Swept, Registered, Unused, IsDone;
    match e
    case Enter(op) => EnterKeepsTasks(s, op);
    case Stored => hide InterruptOwner, EndPreparing, CancelAll;
    case Interrupt(op) => hide Flagged, EndPreparing, CancelAll;
    case Prepared(eligible, task) => hide Flagged, InterruptOwner, CancelAll;
    case _ => hide Flagged, InterruptOwner, EndPreparing;
  }

  /** Who holds a control's lock afterwards. */
  lemma HolderExactly(s: State, e: Event, t: TaskId)
    requires Enabled(s, e) && t in s.tasks
    ensures t in Next(s, e).tasks
    ensures var lets := e.Stored? || e.StoreFailed? || (e.Interrupt? && e.op !in s.waiting);
      Next(s, e).tasks[t].control.holder ==
        if e.TakeControl? && s.lock.section.task == t then Requester
        else if lets && StoringFor(s, t) then Nobody
        else if e == EnterAdmission(t) then Admission(!HasFlag(s, t, AfterCurrentJob) && !HasFlag(s, t, Detach))
        else if e == ExitAdmission(t) then Nobody
        else s.tasks[t].control.holder
  {
    hide Next, Enabled;
    if Outside(e) { HolderExactlyOutside(s, e, t); } else { HolderExactlyInside(s, e, t); }
  }

  lemma HolderExactlyOutside(s: State, e: Event, t: TaskId)
    requires Enabled(s, e) && t in s.tasks && Outside(e)
    ensures t in Next(s, e).tasks
    ensures
      Next(s, e).tasks[t].control.holder ==
        if e == EnterAdmission(t) then Admission(!HasFlag(s, t, AfterCurrentJob) && !HasFlag(s, t, Detach))
        else if e == ExitAdmission(t) then Nobody
        else s.tasks[t].control.holder
  {
    hide EnterSection, Swept, Registered, Unused, IsDone;
    hide Flagged, InterruptOwner;
  }

  lemma HolderExactlyInside(s: State, e: Event, t: TaskId)
    requires Enabled(s, e) && t in s.tasks && !Outside(e)
    ensures t in Next(s, e).tasks
    ensures var lets := e.Stored? || e.StoreFailed? || (e.Interrupt? && e.op !in s.waiting);
      Next(s, e).tasks[t].control.holder ==
        if e.TakeControl? && s.lock.section.task == t then Requester
        else if lets && StoringFor(s, t) then Nobody
        else s.tasks[t].control.holder
  {
    hide EnterSection, Swept, Registered, Unused, IsDone;
    match e
    case Enter(op) => EnterKeepsTasks(s, op);
    case Stored => hide InterruptOwner;
    case Interrupt(op) => hide Flagged;
    case _ => hide Flagged, InterruptOwner;
  }

  // ---------- records ----------

  /** A record is made by a commit of a write for it, once, with that commit's time. */
  lemma RecordedExactly(s: State, e: Event, intent: Intent)
    requires Enabled(s, e)
    ensures intent in Next(s, e).durable <==> intent in s.durable || (e.Commit? && s.writes[e.op].intent == intent)
    ensures intent in Next(s, e).durable ==>
      Next(s, e).durable[intent] == if intent in s.durable then s.durable[intent] else e.stamp
  {
    hide Next, Enabled;
    if Outside(e) { RecordedExactlyOutside(s, e, intent); } else { RecordedExactlyInside(s, e, intent); }
  }

  lemma RecordedExactlyOutside(s: State, e: Event, intent: Intent)
    requires Enabled(s, e) && Outside(e)
    ensures intent in Next(s, e).durable <==> intent in s.durable || (e.Commit? && s.writes[e.op].intent == intent)
    ensures intent in Next(s, e).durable ==>
      Next(s, e).durable[intent] == if intent in s.durable then s.durable[intent] else e.stamp
  {
    hide EndPreparing, Flagged, Swept, Registered, Unused, IsDone;
    hide EnterSection, InterruptOwner;
  }

  lemma RecordedExactlyInside(s: State, e: Event, intent: Intent)
    requires Enabled(s, e) && !Outside(e)
    ensures intent in Next(s, e).durable <==> intent in s.durable
    ensures intent in Next(s, e).durable ==> Next(s, e).durable[intent] == s.durable[intent]
  {
    hide EndPreparing, Flagged, Swept, Registered, Unused, IsDone;
    match e
    case Enter(op) => hide InterruptOwner;
    case Interrupt(op) => hide EnterSection;
    case Stored => StoredKeepsRecords(s);
    case Prepared(eligible, task) => PreparedKeepsRecords(s, eligible, task);
    case _ => hide EnterSection, InterruptOwner;
  }

  lemma StoredKeepsRecords(s: State)
    requires Enabled(s, Stored)
    ensures Next(s, Stored).durable == s.durable
  {
  }

  lemma PreparedKeepsRecords(s: State, eligible: bool, task: TaskId)
    requires Enabled(s, Prepared(eligible, task))
    ensures Next(s, Prepared(eligible, task)).durable == s.durable
  {
  }

  /** A write is begun for the run and mode of the request that gets the control's lock, is marked when it
      commits, and is forgotten by a request whose write failed. */
  lemma WritesExactly(s: State, e: Event, op: OpId)
    requires Enabled(s, e)
    ensures op in Next(s, e).writes <==>
      || (op in s.writes && !(e.StoreFailed? && s.lock.op == op))
      || (e.TakeControl? && s.lock.op == op)
    ensures op in Next(s, e).writes ==>
      Next(s, e).writes[op] ==
        if e.TakeControl? && s.lock.op == op then Write(Intent(s.lock.section.run, s.lock.section.mode), false)
        else if e.Commit? && e.op == op then Write(s.writes[op].intent, true)
        else s.writes[op]
  {
    hide Registered, Swept, Unused, IsDone, CancelAll;
    match e
    case Enter(_) => hide Flagged, InterruptOwner, EndPreparing;
    case Stored => hide EnterSection, InterruptOwner, EndPreparing;
    case Interrupt(_) => hide EnterSection, Flagged, EndPreparing;
    case Prepared(_, _) => hide EnterSection, Flagged, InterruptOwner;
    case _ => hide EnterSection, Flagged, InterruptOwner, EndPreparing;
  }

  // ---------- callers ----------

  /** A caller waits from its call until it gets the lock or is cancelled; a completion callback waits from the
      end of its task. */
  lemma WaitingExactly(s: State, e: Event, op: OpId)
    requires Enabled(s, e)
    ensures op in Next(s, e).waiting <==>
      || (op in s.waiting && !((e.Enter? || e.Interrupt?) && e.op == op))
      || ((e.Call? || e.Complete?) && e.op == op)
    ensures op in Next(s, e).waiting ==>
      Next(s, e).waiting[op] ==
        if e.Call? && e.op == op then e.wish
        else if e.Complete? && e.op == op then Release(s.tasks[e.task].run, e.task)
        else s.waiting[op]
  {
    hide Next, Enabled;
    if Outside(e) { WaitingExactlyOutside(s, e, op); } else { WaitingExactlyInside(s, e, op); }
  }

  lemma WaitingExactlyOutside(s: State, e: Event, op: OpId)
    requires Enabled(s, e) && Outside(e)
    ensures op in Next(s, e).waiting <==>
      op in s.waiting || ((e.Call? || e.Complete?) && e.op == op)
    ensures op in Next(s, e).waiting ==>
      Next(s, e).waiting[op] ==
        if e.Call? && e.op == op then e.wish
        else if e.Complete? && e.op == op then Release(s.tasks[e.task].run, e.task)
        else s.waiting[op]
  {
    hide Registered, Swept, IsDone, CancelAll, Written;
    hide EnterSection, Flagged, InterruptOwner, EndPreparing;
  }

  lemma WaitingExactlyInside(s: State, e: Event, op: OpId)
    requires Enabled(s, e) && !Outside(e)
    ensures op in Next(s, e).waiting <==>
      op in s.waiting && !((e.Enter? || e.Interrupt?) && e.op == op)
    ensures op in Next(s, e).waiting ==> Next(s, e).waiting[op] == s.waiting[op]
  {
    hide Registered, Swept, IsDone, CancelAll, Written;
    match e
    case Enter(_) => hide Flagged, InterruptOwner, EndPreparing;
    case Stored => StoredKeepsWaiting(s);
    case Interrupt(_) => hide EnterSection, Flagged, EndPreparing;
    case Prepared(_, _) => hide EnterSection, Flagged, InterruptOwner;
    case _ => hide EnterSection, Flagged, InterruptOwner, EndPreparing;
  }

  lemma StoredKeepsWaiting(s: State)
    requires Enabled(s, Stored)
    ensures Next(s, Stored).waiting == s.waiting
  {
  }

  /** No registered task is still running. */
  ghost predicate NothingRuns(s: State) { forall r :: r in s.active ==> IsDone(s, s.active[r]) }

  predicate Runs(s: State, run: RunId) { run in s.active && !IsDone(s, s.active[run]) }

  /** start(), when it gets the lock: it goes on to the storage check exactly if shutdown has not begun and
      nothing runs, whichever Run it is for. */
  lemma StartDecided(s: State, op: OpId)
    requires Enabled(s, Enter(op)) && s.waiting[op].Start?
    ensures var w := s.waiting[op];
      Next(s, Enter(op)).lock ==
        if !s.closing && NothingRuns(s) then Held(op, Preparing(w.run, w.stop, w.detach, false)) else Free
  {
    var t := s.(waiting := s.waiting - {op});
    SweptNothing(t);
    SweptWaiting(s, op);
    assert NothingRuns(t) <==> NothingRuns(s) by { hide Swept; }
    hide Swept, NothingRuns;
  }

  lemma SweptNothing(s: State)
    ensures Swept(s) == map[] <==> NothingRuns(s)
  {
    if NothingRuns(s) {
      assert Swept(s) == map[];
    } else {
      var r :| r in s.active && !IsDone(s, s.active[r]);
      assert r in Swept(s);
    }
  }

  /** discard(), when it gets the lock: it goes on to its write exactly if shutdown has not begun and its own
      Run does not run; another Run does not matter. */
  lemma DiscardDecided(s: State, op: OpId)
    requires Enabled(s, Enter(op)) && s.waiting[op].Discard?
    ensures var run := s.waiting[op].run;
      Next(s, Enter(op)).lock == if !s.closing && !Runs(s, run) then Held(op, Discarding(run)) else Free
  {
  }

  /** request_cancellation(), when it gets the lock: it goes on exactly if its Run runs, with that Run's task,
      also after shutdown has begun. */
  lemma RequestDecided(s: State, op: OpId)
    requires Enabled(s, Enter(op)) && s.waiting[op].Cancel?
    ensures var w := s.waiting[op];
      Next(s, Enter(op)).lock ==
        if Runs(s, w.run) then Held(op, Requesting(w.run, w.mode, s.active[w.run])) else Free
  {
  }

  /** A completion callback gives the lock straight back. */
  lemma ReleaseDecided(s: State, op: OpId)
    requires Enabled(s, Enter(op)) && s.waiting[op].Release?
    ensures Next(s, Enter(op)).lock == Free
  {
  }

  /** What the other steps do to the registry lock. */
  lemma LockExactly(s: State, e: Event)
    requires Enabled(s, e) && !e.Enter?
    ensures Next(s, e).lock ==
      if e.Prepared? || e.Discarded? || e.Stored? || e.StoreFailed? then Free
      else if e.TakeControl? then Held(s.lock.op, Storing(s.lock.section.run, s.lock.section.mode, s.lock.section.task))
      else if e.Interrupt? && e.op !in s.waiting then LockAfterInterrupt(s.lock.op, s.lock.section)
      else s.lock
  {
    hide EnterSection, Registered, Swept, IsDone, CancelAll, Unused;
    match e
    case Stored => hide InterruptOwner, EndPreparing;
    case Interrupt(_) => hide Flagged, EndPreparing;
    case Prepared(_, _) => hide Flagged, InterruptOwner;
    case _ => hide Flagged, InterruptOwner, EndPreparing;
  }

  /** Whoever waits for a worker keeps the lock; a request lets go of it. */
  function LockAfterInterrupt(op: OpId, c: Section): Lock {
    match c
    case Preparing(run, stop, detach, _) => Held(op, Preparing(run, stop, detach, true))
    case Discarding(run) => Held(op, c)
    case Requesting(_, _, _) => Free
    case Storing(_, _, _) => Free
  }

  // ---------- registrations ----------

  /** A run is registered with a task when the task is created. The entry goes when its own completion callback
      gets the lock, when a caller finds it finished, or when the drain clears the registry. */
  lemma RegisteredExactly(s: State, e: Event, r: RunId, t: TaskId)
    requires Inv(s) && Enabled(s, e)
    ensures (r in Next(s, e).active && Next(s, e).active[r] == t) <==>
      if e == Prepared(true, t) && !s.lock.section.detach && !s.lock.section.interrupted then r == s.lock.section.run
      else
        && r in s.active && s.active[r] == t
        && !e.Clear?
        && (e.Enter? && s.waiting[e.op].Release? ==> s.waiting[e.op] != Release(r, t))
        && (e.Enter? && !s.waiting[e.op].Release? && (s.waiting[e.op].Cancel? || !s.closing) ==> !s.tasks[t].done)
  {
    match e
    case Enter(op) => EnteredRegistered(s, op, r, t);
    case Prepared(eligible, task) => PreparedRegistered(s, eligible, task, r, t);
    case _ => OtherRegistered(s, e, r, t);
  }

  lemma EnteredRegistered(s: State, op: OpId, r: RunId, t: TaskId)
    requires Inv(s) && Enabled(s, Enter(op))
    ensures (r in Next(s, Enter(op)).active && Next(s, Enter(op)).active[r] == t) <==>
      && r in s.active && s.active[r] == t
      && (s.waiting[op].Release? ==> s.waiting[op] != Release(r, t))
      && (!s.waiting[op].Release? && (s.waiting[op].Cancel? || !s.closing) ==> !s.tasks[t].done)
  {
    hide CancellationOk, LiveOk, PreparingOk, DiscardingOk, DrainOk, CallbackOk;
    assert r in s.active ==> s.active[r] in s.tasks;
  }

  lemma PreparedRegistered(s: State, eligible: bool, task: TaskId, r: RunId, t: TaskId)
    requires Inv(s) && Enabled(s, Prepared(eligible, task))
    ensures (r in Next(s, Prepared(eligible, task)).active && Next(s, Prepared(eligible, task)).active[r] == t) <==>
      if eligible && task == t && !s.lock.section.detach && !s.lock.section.interrupted then r == s.lock.section.run
      else r in s.active && s.active[r] == t
  {
    hide CancellationOk, LiveOk, DiscardingOk, DrainOk, CallbackOk;
  }

  lemma OtherRegistered(s: State, e: Event, r: RunId, t: TaskId)
    requires Enabled(s, e) && !e.Enter? && !e.Prepared?
    ensures (r in Next(s, e).active && Next(s, e).active[r] == t) <==> r in s.active && s.active[r] == t && !e.Clear?
  {
    hide EnterSection, EndPreparing, Registered, Swept, IsDone, CancelAll, Unused, FlaggedTask, Written;
    match e
    case Stored => hide InterruptOwner;
    case Interrupt(_) => hide Flagged;
    case _ => hide Flagged, InterruptOwner;
  }

  // ---------- shutdown ----------

  /** Admission is closed by shutdown and stays so. */
  lemma ClosingExactly(s: State, e: Event)
    requires Enabled(s, e)
    ensures Next(s, e).closing <==> s.closing || e.Shutdown?
  {
    hide Registered, Swept, IsDone, CancelAll, Unused;
    match e
    case Enter(_) => hide Flagged, InterruptOwner, EndPreparing;
    case Stored => hide EnterSection, InterruptOwner, EndPreparing;
    case Interrupt(_) => hide EnterSection, Flagged, EndPreparing;
    case Prepared(_, _) => hide EnterSection, Flagged, InterruptOwner;
    case _ => hide EnterSection, Flagged, InterruptOwner, EndPreparing;
  }

  /** The drain is begun by the first shutdown, waits for the lock, then for exactly the tasks that were
      registered when it got it, then for the lock again, and is over. */
  lemma DrainExactly(s: State, e: Event)
    requires Enabled(s, e)
    ensures match e
      case Shutdown => Next(s, e).drain == if s.drain.NotStarted? then WaitingForLock else s.drain
      case BeginDrain => Next(s, e).drain.Gathering? && forall t :: t in Next(s, e).drain.tasks <==> IsRegistered(s, t)
      case Gathered => Next(s, e).drain == Clearing
      case Clear => Next(s, e).drain == Finished
      case _ => Next(s, e).drain == s.drain
  {
    hide Swept, IsDone, CancelAll, Unused;
    match e
    case Enter(op) => EnterKeepsTasks(s, op);
    case Stored => hide EnterSection, InterruptOwner, EndPreparing;
    case Interrupt(_) => hide EnterSection, Flagged, EndPreparing;
    case Prepared(_, _) => hide EnterSection, Flagged, InterruptOwner;
    case _ => hide EnterSection, Flagged, InterruptOwner, EndPreparing;
  }
}
