/** When the durable record of a cancellation and the flag on the running task agree. */
module RunAgreement {
  import opened RunLifecycle

  predicate Live(s: State, t: TaskId) { t in s.tasks && !s.tasks[t].done }

  /** The lock's owner is storing this mode for this task. */
  predicate StoringMode(s: State, t: TaskId, mode: Mode) {
    StoringFor(s, t) && s.lock.section.mode == mode
  }

  /** The owner's record is written and the flag is the very next thing it sets. */
  predicate AboutToFlag(s: State, t: TaskId, mode: Mode) {
    StoringMode(s, t, mode) && s.lock.op in s.writes && s.writes[s.lock.op].committed
  }

  /** A task that still runs, a record for its run, and no flag set or about to be. */
  predicate Lacks(s: State, t: TaskId, mode: Mode) {
    Live(s, t) && Recorded(s, s.tasks[t].run, mode) && !ModeFlag(s.tasks[t].control, mode) && !AboutToFlag(s, t, mode)
  }

  // ---------- what makes a task lack its flag, and what ends it ----------

  /** A request is cancelled after its record was written and before it could set the flag. */
  predicate Abandons(s: State, e: Event, t: TaskId, mode: Mode) {
    && e.Interrupt? && e.op !in s.waiting && In(s, e.op) && AboutToFlag(s, t, mode)
    && Live(s, t) && Recorded(s, s.tasks[t].run, mode) && !ModeFlag(s.tasks[t].control, mode)
  }

  /** A write whose caller has gone commits a first record for the run. */
  predicate LateWrite(s: State, e: Event, t: TaskId, mode: Mode) {
    && e.Commit? && e.op in s.writes && Live(s, t)
    && s.writes[e.op].intent == Intent(s.tasks[t].run, mode) && !Recorded(s, s.tasks[t].run, mode)
    && !ModeFlag(s.tasks[t].control, mode) && !(In(s, e.op) && StoringMode(s, t, mode))
  }

  /** A task is created from intents that were read before the record was made. */
  predicate StaleStart(s: State, e: Event, t: TaskId, mode: Mode) {
    && e.Prepared? && e.eligible && e.task == t && IsPreparing(s)
    && !s.lock.section.detach && !s.lock.section.interrupted
    && Recorded(s, s.lock.section.run, mode) && (mode == AfterCurrentJob ==> !s.lock.section.stop)
  }

  predicate Causes(s: State, e: Event, t: TaskId, mode: Mode) {
    Abandons(s, e, t, mode) || LateWrite(s, e, t, mode) || StaleStart(s, e, t, mode)
  }

  /** The task ends, or a new request for it has its own record written. */
  predicate Cures(s: State, e: Event, t: TaskId, mode: Mode) {
    || (e.Complete? && e.task == t)
    || (e.Commit? && In(s, e.op) && StoringMode(s, t, mode))
  }

  /** One step, exactly. */
  lemma StepLacks(s: State, e: Event, t: TaskId, mode: Mode)
    requires Inv(s) && Enabled(s, e)
    ensures Lacks(Next(s, e), t, mode) <==> Causes(s, e, t, mode) || (Lacks(s, t, mode) && !Cures(s, e, t, mode))
  {
    hide RegistryOk, DurableOk, CancelOk;
    match e
    case Enter(op) => EnterLacks(s, op, t, mode);
    case BeginDrain => DrainLacks(s, t, mode);
    case Interrupt(op) => InterruptLacks(s, op, t, mode);
    case Commit(op, stamp) => CommitLacks(s, op, stamp, t, mode);
    case Stored => StoredLacks(s, t, mode);
    case _ => OtherLacks(s, e, t, mode);
  }

  lemma EnterLacks(s: State, op: OpId, t: TaskId, mode: Mode)
    requires Inv(s) && Enabled(s, Enter(op))
    ensures Lacks(Next(s, Enter(op)), t, mode) <==> Lacks(s, t, mode)
  {
    hide Inv, Swept;
    EnterKeepsTasks(s, op);
  }

  lemma DrainLacks(s: State, t: TaskId, mode: Mode)
    requires Enabled(s, BeginDrain)
    ensures Lacks(Next(s, BeginDrain), t, mode) <==> Lacks(s, t, mode)
  {
    hide Registered;
  }

  lemma InterruptLacks(s: State, op: OpId, t: TaskId, mode: Mode)
    requires Inv(s) && Enabled(s, Interrupt(op))
    ensures Lacks(Next(s, Interrupt(op)), t, mode) <==> Abandons(s, Interrupt(op), t, mode) || Lacks(s, t, mode)
  {
    hide Inv;
    if op !in s.waiting {
      if s.lock.section.Storing? {
        AbandonLacks(s, op, t, mode);
      }
    }
  }

  lemma AbandonLacks(s: State, op: OpId, t: TaskId, mode: Mode)
    requires In(s, op) && op !in s.waiting && s.lock.section.Storing? && s.lock.section.task in s.tasks
    ensures Lacks(Next(s, Interrupt(op)), t, mode) <==> Abandons(s, Interrupt(op), t, mode) || Lacks(s, t, mode)
  {
    var n := Next(s, Interrupt(op));
    assert n.lock == Free && n.durable == s.durable && n.tasks.Keys == s.tasks.Keys;
    assert t in s.tasks ==> n.tasks[t] == s.tasks[t].(control := n.tasks[t].control);
    assert t in s.tasks ==> ModeFlag(n.tasks[t].control, mode) == ModeFlag(s.tasks[t].control, mode);
  }

  lemma CommitLacks(s: State, op: OpId, stamp: nat, t: TaskId, mode: Mode)
    requires Inv(s) && Enabled(s, Commit(op, stamp))
    ensures Lacks(Next(s, Commit(op, stamp)), t, mode) <==>
      LateWrite(s, Commit(op, stamp), t, mode) || (Lacks(s, t, mode) && !Cures(s, Commit(op, stamp), t, mode))
  {
    hide RegistryOk, CancelOk, ControlOk;
  }

  lemma StoredLacks(s: State, t: TaskId, mode: Mode)
    requires Inv(s) && Enabled(s, Stored)
    ensures Lacks(Next(s, Stored), t, mode) <==> Lacks(s, t, mode)
  {
    hide RegistryOk, DurableOk, CancelOk;
  }

  lemma OtherLacks(s: State, e: Event, t: TaskId, mode: Mode)
    requires Inv(s) && Enabled(s, e) && !e.Enter? && !e.BeginDrain? && !e.Interrupt? && !e.Commit? && !e.Stored?
    ensures Lacks(Next(s, e), t, mode) <==> StaleStart(s, e, t, mode) || (Lacks(s, t, mode) && !Cures(s, e, t, mode))
  {
    hide Inv;
    match e
    case Prepared(eligible, task) => PreparedLacks(s, eligible, task, t, mode);
    case TakeControl => TakeControlLacks(s, t, mode);
    case StoreFailed => hide Recorded;
    case EnterAdmission(task) => hide Recorded;
    case ExitAdmission(task) => hide Recorded;
    case Complete(task, op) => hide Recorded;
    case _ =>
  }

  lemma PreparedLacks(s: State, eligible: bool, task: TaskId, t: TaskId, mode: Mode)
    requires Enabled(s, Prepared(eligible, task))
    ensures Lacks(Next(s, Prepared(eligible, task)), t, mode) <==>
      StaleStart(s, Prepared(eligible, task), t, mode) || Lacks(s, t, mode)
  {
  }

  lemma TakeControlLacks(s: State, t: TaskId, mode: Mode)
    requires Enabled(s, TakeControl)
    ensures Lacks(Next(s, TakeControl), t, mode) <==> Lacks(s, t, mode)
  {
  }

  ghost predicate Uncured(s: State, events: seq<Event>, t: TaskId, mode: Mode)
    requires Possible(s, events)
    decreases |events|
  {
    events == [] || (!Cures(s, events[0], t, mode) && Uncured(Next(s, events[0]), events[1..], t, mode))
  }

  /** Some step caused it and no later one ended it. */
  ghost predicate Caused(s: State, events: seq<Event>, t: TaskId, mode: Mode)
    requires Possible(s, events)
    decreases |events|
  {
    events != []
    && ((Causes(s, events[0], t, mode) && Uncured(Next(s, events[0]), events[1..], t, mode))
        || Caused(Next(s, events[0]), events[1..], t, mode))
  }

  lemma {:induction false} RunLacks(s: State, events: seq<Event>, t: TaskId, mode: Mode)
    requires Inv(s) && Possible(s, events)
    ensures
      Lacks(Run(s, events), t, mode) <==>
        Caused(s, events, t, mode) || (Lacks(s, t, mode) && Uncured(s, events, t, mode))
    decreases |events|
  {
    hide Inv, Enabled, Next, Lacks, Causes, Cures;
    if events != [] {
      StepLacks(s, events[0], t, mode);
      StepKeepsInv(s, events[0]);
      RunLacks(Next(s, events[0]), events[1..], t, mode);
    }
  }

  /** Record and flag disagree in exactly these runs: a request was abandoned between its record and its
      flag, an abandoned write came late, or a task was started from intents read too early; and since
      then neither has the task ended nor has another request for it been recorded. */
  lemma RecordWithoutFlagExactly(durable: map<Intent, nat>, events: seq<Event>, t: TaskId, mode: Mode)
    requires Possible(Fresh(durable), events)
    ensures Lacks(Run(Fresh(durable), events), t, mode) <==> Caused(Fresh(durable), events, t, mode)
  {
    FreshInv(durable);
    RunLacks(Fresh(durable), events, t, mode);
  }

  // ---------- runs that start each Run once and abandon no request ----------

  /** What the check of the run's state file ensures, and no cancellation of a request that is storing. */
  ghost predicate Careful(s: State, e: Event) {
    && (e.Prepared? && IsPreparing(s) && e.eligible ==>
          forall t :: t in s.tasks ==> s.tasks[t].run != s.lock.section.run)
    && (e.Interrupt? && In(s, e.op) ==> !s.lock.section.Storing?)
  }

  ghost predicate CarefulRun(s: State, events: seq<Event>)
    requires Possible(s, events)
    decreases |events|
  {
    events == [] || (Careful(s, events[0]) && CarefulRun(Next(s, events[0]), events[1..]))
  }

  predicate Untouched(s: State, run: RunId) { forall t :: t in s.tasks ==> s.tasks[t].run != run }

  /** These intents, read for a run that has had no task, are what is recorded. */
  predicate ReadFor(s: State, run: RunId, stop: bool, detach: bool) {
    Untouched(s, run) ==> stop == Recorded(s, run, AfterCurrentJob) && detach == Recorded(s, run, Detach)
  }

  ghost predicate WaitingReads(s: State) {
    forall op :: op in s.waiting && s.waiting[op].Start? ==> ReadFor(s, s.waiting[op].run, s.waiting[op].stop,
                                                                     s.waiting[op].detach)
  }

  predicate PreparingReads(s: State) {
    IsPreparing(s) ==> ReadFor(s, s.lock.section.run, s.lock.section.stop, s.lock.section.detach)
  }

  /** Intents read for a run that has had no task are still what is recorded. */
  ghost predicate ReadOk(s: State) { WaitingReads(s) && PreparingReads(s) }

  /** Each run has had at most one task. */
  ghost predicate StartedOnce(s: State) {
    forall t, u :: t in s.tasks && u in s.tasks && s.tasks[t].run == s.tasks[u].run ==> t == u
  }

  /** Every write still to come belongs to the lock's owner. */
  ghost predicate NoAbandonedWrite(s: State) {
    forall op :: op in s.writes && !s.writes[op].committed ==> In(s, op) && s.lock.section.Storing?
  }

  ghost predicate Steady(s: State) { ReadOk(s) && StartedOnce(s) && NoAbandonedWrite(s) }

  /** Such a step causes no disagreement. */
  lemma CarefulCausesNothing(s: State, e: Event, t: TaskId, mode: Mode)
    requires Inv(s) && Steady(s) && Enabled(s, e) && Careful(s, e)
    ensures !Causes(s, e, t, mode)
  {
    hide RegistryOk, DurableOk, CancelOk;
    if e.Commit? {
      assert In(s, e.op) && s.lock.section.Storing?;
      if Live(s, t) && s.writes[e.op].intent == Intent(s.tasks[t].run, mode) { assert s.lock.section.task == t; }
    }
    if e.Prepared? && e.eligible { assert Untouched(s, s.lock.section.run); }
  }

  lemma CarefulStepSteady(s: State, e: Event)
    requires Inv(s) && Steady(s) && Enabled(s, e) && Careful(s, e)
    ensures Steady(Next(s, e))
  {
    CarefulReads(s, e);
    CarefulStarts(s, e);
    CarefulWrites(s, e);
  }

  lemma CarefulStarts(s: State, e: Event)
    requires Inv(s) && Steady(s) && Enabled(s, e) && Careful(s, e)
    ensures StartedOnce(Next(s, e))
  {
    hide RegistryOk, CancellationOk, EnterSection, Registered, ReadOk, NoAbandonedWrite;
    if e.Enter? {
      EnterKeepsTasks(s, e.op);
    } else if !e.Prepared? {
      SameRuns(s, e);
    }
  }

  /** Only a finished storage check adds a task, and no step changes a task's run. */
  lemma SameRuns(s: State, e: Event)
    requires Enabled(s, e) && !e.Prepared? && !e.Enter?
    ensures Next(s, e).tasks.Keys == s.tasks.Keys
    ensures forall t :: t in s.tasks ==> Next(s, e).tasks[t].run == s.tasks[t].run
  {
    hide Registered, Swept, Unused, IsDone, Written;
    match e
    case Stored => StoredRuns(s);
    case StoreFailed => StoreFailedRuns(s);
    case Interrupt(op) => InterruptRuns(s, op);
    case _ => hide Flagged, InterruptOwner;
  }

  lemma FlaggedRuns(s: State, task: TaskId, mode: Mode)
    requires task in s.tasks
    ensures Flagged(s, task, mode).tasks.Keys == s.tasks.Keys
    ensures forall t :: t in s.tasks ==> Flagged(s, task, mode).tasks[t].run == s.tasks[t].run
  {
  }

  lemma StoredRuns(s: State)
    requires Enabled(s, Stored)
    ensures Next(s, Stored).tasks.Keys == s.tasks.Keys
    ensures forall t :: t in s.tasks ==> Next(s, Stored).tasks[t].run == s.tasks[t].run
  {
    FlaggedRuns(s, s.lock.section.task, s.lock.section.mode);
    hide Flagged;
  }

  lemma StoreFailedRuns(s: State)
    requires Enabled(s, StoreFailed)
    ensures Next(s, StoreFailed).tasks.Keys == s.tasks.Keys
    ensures forall t :: t in s.tasks ==> Next(s, StoreFailed).tasks[t].run == s.tasks[t].run
  {
  }

  /** What the owner's interruption leaves as it is. */
  lemma OwnerKeeps(s: State, c: Section)
    requires s.lock.Held? && s.lock.section == c && (c.Storing? ==> c.task in s.tasks)
    ensures var n := InterruptOwner(s, c);
      && n.tasks.Keys == s.tasks.Keys && (forall t :: t in s.tasks ==> n.tasks[t].run == s.tasks[t].run)
      && n.durable == s.durable && n.waiting == s.waiting
      && (IsPreparing(n) ==> c.Preparing? && n.lock.section.run == c.run
                             && n.lock.section.stop == c.stop && n.lock.section.detach == c.detach)
  {
  }

  lemma InterruptRuns(s: State, op: OpId)
    requires Enabled(s, Interrupt(op))
    ensures Next(s, Interrupt(op)).tasks.Keys == s.tasks.Keys
    ensures forall t :: t in s.tasks ==> Next(s, Interrupt(op)).tasks[t].run == s.tasks[t].run
  {
    if op !in s.waiting { OwnerKeeps(s, s.lock.section); }
    hide InterruptOwner;
  }

  lemma CarefulWrites(s: State, e: Event)
    requires Inv(s) && Steady(s) && Enabled(s, e) && Careful(s, e)
    ensures NoAbandonedWrite(Next(s, e))
  {
    hide RegistryOk, ControlOk, DurableOk, CancelOk, ReadOk, StartedOnce, Swept;
  }

  lemma CarefulReads(s: State, e: Event)
    requires Inv(s) && Steady(s) && Enabled(s, e) && Careful(s, e)
    ensures ReadOk(Next(s, e))
  {
    hide RegistryOk, ControlOk, DurableOk, CancelOk, StartedOnce, Swept, NoAbandonedWrite, ReadOk;
    if e.Enter? {
      EnterReads(s, e.op);
    } else if e.Commit? {
      CommitReads(s, e.op, e.stamp);
    } else if e.Call? {
      CallReads(s, e.op, e.wish);
    } else if e.Prepared? {
      PreparedReads(s, e.eligible, e.task);
    } else {
      SameRuns(s, e);
      QuietReads(s, e);
    }
  }

  /** The same records and the same runs: what was read is as good as before. */
  lemma ReadForStays(s: State, n: State, run: RunId, stop: bool, detach: bool)
    requires ReadFor(s, run, stop, detach) && n.durable == s.durable
    requires n.tasks.Keys >= s.tasks.Keys && forall t :: t in s.tasks ==> n.tasks[t].run == s.tasks[t].run
    ensures ReadFor(n, run, stop, detach)
  {
  }

  lemma EnterKeepsReads(s: State, op: OpId)
    requires Enabled(s, Enter(op))
    ensures op in s.waiting && Next(s, Enter(op)).waiting == s.waiting - {op} && Next(s, Enter(op)).durable == s.durable
    ensures IsPreparing(Next(s, Enter(op))) ==>
      var w, c := s.waiting[op], Next(s, Enter(op)).lock.section;
      w.Start? && c.run == w.run && c.stop == w.stop && c.detach == w.detach
  {
    hide Swept;
  }

  lemma EnterReads(s: State, op: OpId)
    requires ReadOk(s) && Enabled(s, Enter(op))
    ensures ReadOk(Next(s, Enter(op)))
  {
    var n := Next(s, Enter(op));
    EnterKeepsTasks(s, op);
    EnterKeepsReads(s, op);
    hide Next, Enabled, ReadFor;
    forall o | o in n.waiting && n.waiting[o].Start?
      ensures ReadFor(n, n.waiting[o].run, n.waiting[o].stop, n.waiting[o].detach)
    {
      ReadForStays(s, n, s.waiting[o].run, s.waiting[o].stop, s.waiting[o].detach);
    }
    if IsPreparing(n) { ReadForStays(s, n, s.waiting[op].run, s.waiting[op].stop, s.waiting[op].detach); }
  }

  /** A record is made for a run that has a task. */
  lemma CommitReads(s: State, op: OpId, stamp: nat)
    requires Inv(s) && Steady(s) && Enabled(s, Commit(op, stamp))
    ensures ReadOk(Next(s, Commit(op, stamp)))
  {
    hide RegistryOk, ControlOk, DurableOk, CancelOk, StartedOnce;
    var n := Next(s, Commit(op, stamp));
    assert In(s, op) && s.lock.section.Storing?;
    assert !Untouched(s, s.writes[op].intent.run);
    forall o | o in n.waiting && n.waiting[o].Start?
      ensures ReadFor(n, n.waiting[o].run, n.waiting[o].stop, n.waiting[o].detach)
    {
      assert ReadFor(s, s.waiting[o].run, s.waiting[o].stop, s.waiting[o].detach);
    }
  }

  lemma CallReads(s: State, op: OpId, wish: Wish)
    requires ReadOk(s) && Enabled(s, Call(op, wish))
    ensures ReadOk(Next(s, Call(op, wish)))
  {
    hide Unused;
    var n := Next(s, Call(op, wish));
    forall o | o in n.waiting && n.waiting[o].Start?
      ensures ReadFor(n, n.waiting[o].run, n.waiting[o].stop, n.waiting[o].detach)
    {
      if o != op { ReadForStays(s, n, s.waiting[o].run, s.waiting[o].stop, s.waiting[o].detach); }
    }
    if IsPreparing(n) { ReadForStays(s, n, s.lock.section.run, s.lock.section.stop, s.lock.section.detach); }
  }

  lemma PreparedReads(s: State, eligible: bool, task: TaskId)
    requires ReadOk(s) && Enabled(s, Prepared(eligible, task))
    ensures ReadOk(Next(s, Prepared(eligible, task)))
  {
    hide ReadFor;
    var n := Next(s, Prepared(eligible, task));
    forall o | o in n.waiting && n.waiting[o].Start?
      ensures ReadFor(n, n.waiting[o].run, n.waiting[o].stop, n.waiting[o].detach)
    {
      ReadForStays(s, n, s.waiting[o].run, s.waiting[o].stop, s.waiting[o].detach);
    }
  }

  /** The other steps read nothing, record nothing and start nothing. */
  lemma QuietReads(s: State, e: Event)
    requires ReadOk(s) && Enabled(s, e) && !e.Enter? && !e.Commit? && !e.Call? && !e.Prepared?
    requires Next(s, e).tasks.Keys == s.tasks.Keys
    requires forall t :: t in s.tasks ==> Next(s, e).tasks[t].run == s.tasks[t].run
    ensures ReadOk(Next(s, e))
  {
    var n := Next(s, e);
    QuietStep(s, e);
    hide ReadFor, Next, Enabled;
    forall o | o in n.waiting && n.waiting[o].Start?
      ensures ReadFor(n, n.waiting[o].run, n.waiting[o].stop, n.waiting[o].detach)
    {
      ReadForStays(s, n, s.waiting[o].run, s.waiting[o].stop, s.waiting[o].detach);
    }
    if IsPreparing(n) { ReadForStays(s, n, s.lock.section.run, s.lock.section.stop, s.lock.section.detach); }
  }

  lemma QuietStep(s: State, e: Event)
    requires Enabled(s, e) && !e.Enter? && !e.Commit? && !e.Call? && !e.Prepared?
    ensures var n := Next(s, e);
      && n.durable == s.durable
      && (forall o :: o in n.waiting && n.waiting[o].Start? ==> o in s.waiting && n.waiting[o] == s.waiting[o])
      && (IsPreparing(n) ==> IsPreparing(s) && n.lock.section.run == s.lock.section.run
                             && n.lock.section.stop == s.lock.section.stop
                             && n.lock.section.detach == s.lock.section.detach)
  {
    hide Registered, CancelAll, Unused, IsDone, Written;
    match e
    case Stored => hide Flagged;
    case StoreFailed => hide WithHolder;
    case Interrupt(op) => QuietInterrupt(s, op);
    case _ => hide Flagged, InterruptOwner;
  }

  lemma QuietInterrupt(s: State, op: OpId)
    requires Enabled(s, Interrupt(op))
    ensures var n := Next(s, Interrupt(op));
      && n.durable == s.durable
      && (forall o :: o in n.waiting && n.waiting[o].Start? ==> o in s.waiting && n.waiting[o] == s.waiting[o])
      && (IsPreparing(n) ==> IsPreparing(s) && n.lock.section.run == s.lock.section.run
                             && n.lock.section.stop == s.lock.section.stop
                             && n.lock.section.detach == s.lock.section.detach)
  {
    if op !in s.waiting { OwnerKeeps(s, s.lock.section); }
    hide InterruptOwner;
  }

  lemma FreshSteady(durable: map<Intent, nat>)
    ensures Steady(Fresh(durable))
  {
  }

  lemma {:induction false} CarefulRunNeverLacks(s: State, events: seq<Event>, t: TaskId, mode: Mode)
    requires Inv(s) && Steady(s) && Possible(s, events) && CarefulRun(s, events)
    ensures !Caused(s, events, t, mode) && Steady(Run(s, events))
    decreases |events|
  {
    hide Inv, Steady, Enabled, Next, Causes, Cures, Careful;
    if events != [] {
      CarefulCausesNothing(s, events[0], t, mode);
      CarefulStepSteady(s, events[0]);
      StepKeepsInv(s, events[0]);
      CarefulRunNeverLacks(Next(s, events[0]), events[1..], t, mode);
    }
  }

  /** In every such run a live task whose run is recorded carries the flag, or is being flagged right now. */
  lemma RecordMeansFlag(durable: map<Intent, nat>, events: seq<Event>, t: TaskId, mode: Mode)
    requires Possible(Fresh(durable), events) && CarefulRun(Fresh(durable), events)
    ensures var s := Run(Fresh(durable), events);
      Live(s, t) && Recorded(s, s.tasks[t].run, mode) ==> ModeFlag(s.tasks[t].control, mode) || AboutToFlag(s, t, mode)
  {
    FreshInv(durable);
    FreshSteady(durable);
    CarefulRunNeverLacks(Fresh(durable), events, t, mode);
    RunLacks(Fresh(durable), events, t, mode);
  }

  /** So there no admission of a recorded run yields true, whichever task asks. */
  lemma NoAdmissionForRecordedRun(durable: map<Intent, nat>, events: seq<Event>, t: TaskId, mode: Mode)
    requires Possible(Fresh(durable), events) && CarefulRun(Fresh(durable), events)
    requires Enabled(Run(Fresh(durable), events), EnterAdmission(t))
    requires Recorded(Run(Fresh(durable), events), Run(Fresh(durable), events).tasks[t].run, mode)
    ensures Next(Run(Fresh(durable), events), EnterAdmission(t)).tasks[t].control.holder == Admission(false)
  {
    var s := Run(Fresh(durable), events);
    RecordMeansFlag(durable, events, t, mode);
    ReachableInv(durable, events);
    assert ControlOk(s);
    FlaggedAdmission(s, t);
  }

  // ---------- two runs that are not like that ----------

  lemma RunStep(s: State, events: seq<Event>, i: nat)
    requires i < |events| && Enabled(s, events[i]) && Possible(Next(s, events[i]), events[i + 1..])
    ensures Possible(s, events[i..]) && Run(s, events[i..]) == Run(Next(s, events[i]), events[i + 1..])
  {
    assert events[i..][0] == events[i] && events[i..][1..] == events[i + 1..];
  }

  lemma {:induction false} RunOn(s: State, first: seq<Event>, second: seq<Event>)
    requires Possible(s, first) && Possible(Run(s, first), second)
    ensures Possible(s, first + second) && Run(s, first + second) == Run(Run(s, first), second)
    decreases |first|
  {
    if first == [] {
      assert first + second == second;
    } else {
      assert (first + second)[1..] == first[1..] + second;
      RunOn(Next(s, first[0]), first[1..], second);
    }
  }

  lemma Two(s: State, n1: State, n2: State, e1: Event, e2: Event)
    requires Enabled(s, e1) && Next(s, e1) == n1 && Enabled(n1, e2) && Next(n1, e2) == n2
    ensures Possible(s, [e1, e2]) && Run(s, [e1, e2]) == n2
  {
    hide Enabled, Next;
    var e := [e1, e2];
    assert e[2..] == [] && Possible(n2, e[2..]) && Run(n2, e[2..]) == n2;
    RunStep(n1, e, 1);
    RunStep(s, e, 0);
    assert e[0..] == e;
  }

  lemma Three(s: State, n1: State, n2: State, n3: State, e1: Event, e2: Event, e3: Event)
    requires Enabled(s, e1) && Next(s, e1) == n1 && Enabled(n1, e2) && Next(n1, e2) == n2
    requires Enabled(n2, e3) && Next(n2, e3) == n3
    ensures Possible(s, [e1, e2, e3]) && Run(s, [e1, e2, e3]) == n3
  {
    hide Enabled, Next;
    var e := [e1, e2, e3];
    assert e[3..] == [] && Possible(n3, e[3..]) && Run(n3, e[3..]) == n3;
    RunStep(n2, e, 2);
    RunStep(n1, e, 1);
    RunStep(s, e, 0);
    assert e[0..] == e;
  }

  function TaskOf(run: RunId, done: bool, stop: bool, holder: Holder): Task {
    Task(run, done, false, Control(stop, false, holder))
  }

  /** A state in which one Run has had one task. */
  function OneTask(run: RunId, t: Task, lock: Lock, waiting: map<OpId, Wish>, writes: map<OpId, Write>,
                   durable: map<Intent, nat>): State {
    State(map[run := 1], lock, false, NotStarted, map[1 := t], waiting, writes, durable)
  }

  function Started(run: RunId): seq<Event> { [Call(1, Start(run, false, false)), Enter(1), Prepared(true, 1)] }

  function Idle(run: RunId, waiting: map<OpId, Wish>): State {
    OneTask(run, TaskOf(run, false, false, Nobody), Free, waiting, map[], map[])
  }

  lemma StartedRun(run: RunId)
    ensures Possible(Fresh(map[]), Started(run))
    ensures Run(Fresh(map[]), Started(run)) == Idle(run, map[])
  {
    var s := Fresh(map[]);
    var n1 := s.(waiting := map[1 := Start(run, false, false)]);
    var n2 := s.(lock := Held(1, Preparing(run, false, false, false)));
    assert Enabled(s, Call(1, Start(run, false, false))) && Next(s, Call(1, Start(run, false, false))) == n1;
    assert Enabled(n1, Enter(1)) && Next(n1, Enter(1)) == n2;
    assert Enabled(n2, Prepared(true, 1)) && Next(n2, Prepared(true, 1)) == Idle(run, map[]);
    Three(s, n1, n2, Idle(run, map[]), Call(1, Start(run, false, false)), Enter(1), Prepared(true, 1));
  }

  /** Up to the write that a worker thread carries out. */
  function Requested(run: RunId): seq<Event> { [Call(2, Cancel(run, AfterCurrentJob)), Enter(2), TakeControl] }

  function WriteOf(run: RunId, committed: bool): map<OpId, Write> {
    map[2 := Write(Intent(run, AfterCurrentJob), committed)]
  }

  function Writing(run: RunId, waiting: map<OpId, Wish>): State {
    OneTask(run, TaskOf(run, false, false, Requester), Held(2, Storing(run, AfterCurrentJob, 1)), waiting,
            WriteOf(run, false), map[])
  }

  lemma RequestedRun(run: RunId, waiting: map<OpId, Wish>)
    requires 2 !in waiting
    ensures Possible(Idle(run, waiting), Requested(run))
    ensures Run(Idle(run, waiting), Requested(run)) == Writing(run, waiting)
  {
    var s := Idle(run, waiting);
    var wish := Cancel(run, AfterCurrentJob);
    var n1 := Idle(run, waiting[2 := wish]);
    var n2 := s.(lock := Held(2, Requesting(run, AfterCurrentJob, 1)));
    assert Enabled(s, Call(2, wish)) && Next(s, Call(2, wish)) == n1;
    EntersRequest(run, waiting);
    TakesControl(run, waiting);
    hide Enabled, Next, Idle, Writing;
    Three(s, n1, n2, Writing(run, waiting), Call(2, wish), Enter(2), TakeControl);
  }

  lemma EntersRequest(run: RunId, waiting: map<OpId, Wish>)
    requires 2 !in waiting
    ensures var n1 := Idle(run, waiting[2 := Cancel(run, AfterCurrentJob)]);
      && Enabled(n1, Enter(2))
      && Next(n1, Enter(2)) == Idle(run, waiting).(lock := Held(2, Requesting(run, AfterCurrentJob, 1)))
  {
    var n1 := Idle(run, waiting[2 := Cancel(run, AfterCurrentJob)]);
    assert n1.waiting - {2} == waiting;
    assert Swept(n1.(waiting := waiting)) == map[run := 1];
    hide Swept;
  }

  lemma TakesControl(run: RunId, waiting: map<OpId, Wish>)
    ensures var n2 := Idle(run, waiting).(lock := Held(2, Requesting(run, AfterCurrentJob, 1)));
      Enabled(n2, TakeControl) && Next(n2, TakeControl) == Writing(run, waiting)
  {
  }

  /** A request is cancelled while its worker thread writes, and the thread commits afterwards. */
  function AbandonedRequest(run: RunId): seq<Event> { Started(run) + (Requested(run) + [Interrupt(2), Commit(2, 0)]) }

  lemma AbandonedRecord(run: RunId)
    ensures Possible(Fresh(map[]), AbandonedRequest(run))
    ensures Lacks(Run(Fresh(map[]), AbandonedRequest(run)), 1, AfterCurrentJob)
  {
    StartedRun(run);
    RequestedRun(run, map[]);
    AbandonedWrite(run);
    hide Next, Enabled, Lacks, Fresh, Started, Requested, Idle, Writing;
    RunOn(Idle(run, map[]), Requested(run), [Interrupt(2), Commit(2, 0)]);
    RunOn(Fresh(map[]), Started(run), Requested(run) + [Interrupt(2), Commit(2, 0)]);
  }

  lemma AbandonedWrite(run: RunId)
    ensures Possible(Writing(run, map[]), [Interrupt(2), Commit(2, 0)])
    ensures Lacks(Run(Writing(run, map[]), [Interrupt(2), Commit(2, 0)]), 1, AfterCurrentJob)
  {
    var s := Writing(run, map[]);
    var t := TaskOf(run, false, false, Nobody);
    var n1 := OneTask(run, t, Free, map[], WriteOf(run, false), map[]);
    var n2 := OneTask(run, t, Free, map[], WriteOf(run, true), map[Intent(run, AfterCurrentJob) := 0]);
    assert Enabled(s, Interrupt(2)) && Next(s, Interrupt(2)) == n1;
    assert Enabled(n1, Commit(2, 0)) && Next(n1, Commit(2, 0)) == n2;
    assert Lacks(n2, 1, AfterCurrentJob);
    hide Next, Enabled, Lacks;
    Two(s, n1, n2, Interrupt(2), Commit(2, 0));
  }

  /** A second start of the Run reads the intents before the request is stored, and goes on when the
      first task has stopped for it. */
  function RestartedRun(run: RunId): seq<Event> {
    Started(run) + ([Again(run)] + (Requested(run) + (Confirmed() + Last())))
  }

  function Again(run: RunId): Event { Call(3, Start(run, false, false)) }

  function Confirmed(): seq<Event> { [Commit(2, 0), Stored, Complete(1, 4)] }

  function Last(): seq<Event> { [Enter(3), Prepared(true, 2)] }

  function Stopped(run: RunId): State {
    OneTask(run, TaskOf(run, true, true, Nobody), Free, map[3 := Start(run, false, false), 4 := Release(run, 1)],
            WriteOf(run, true), map[Intent(run, AfterCurrentJob) := 0])
  }

  /** The request is stored and the task has stopped for it. */
  lemma ConfirmedRun(run: RunId)
    ensures Possible(Writing(run, map[3 := Start(run, false, false)]), Confirmed())
    ensures Run(Writing(run, map[3 := Start(run, false, false)]), Confirmed()) == Stopped(run)
  {
    var waiting, durable := map[3 := Start(run, false, false)], map[Intent(run, AfterCurrentJob) := 0];
    var s := Writing(run, waiting);
    var n1 := s.(writes := WriteOf(run, true), durable := durable);
    var n2 := OneTask(run, TaskOf(run, false, true, Nobody), Free, waiting, WriteOf(run, true), durable);
    assert Enabled(s, Commit(2, 0)) && Next(s, Commit(2, 0)) == n1;
    ConfirmedStored(run, waiting, durable);
    ConfirmedComplete(run, waiting, durable);
    hide Next, Enabled, Writing, OneTask;
    Three(s, n1, n2, Stopped(run), Commit(2, 0), Event.Stored, Complete(1, 4));
  }

  lemma ConfirmedStored(run: RunId, waiting: map<OpId, Wish>, durable: map<Intent, nat>)
    ensures var n1 := Writing(run, waiting).(writes := WriteOf(run, true), durable := durable);
      && Enabled(n1, Event.Stored)
      && Next(n1, Event.Stored) ==
           OneTask(run, TaskOf(run, false, true, Nobody), Free, waiting, WriteOf(run, true), durable)
  {
  }

  lemma ConfirmedComplete(run: RunId, waiting: map<OpId, Wish>, durable: map<Intent, nat>)
    requires 4 !in waiting
    ensures var n2 := OneTask(run, TaskOf(run, false, true, Nobody), Free, waiting, WriteOf(run, true), durable);
      && Enabled(n2, Complete(1, 4))
      && Next(n2, Complete(1, 4)) ==
           OneTask(run, TaskOf(run, true, true, Nobody), Free, waiting[4 := Release(run, 1)], WriteOf(run, true),
                   durable)
  {
  }

  lemma SweptAway(s: State, run: RunId, t: TaskId)
    requires s.active == map[run := t] && IsDone(s, t)
    ensures Swept(s) == map[]
  {
  }

  /** The second start sweeps the finished task out ... */
  function Restarting(run: RunId): State {
    Stopped(run).(active := map[], lock := Held(3, Preparing(run, false, false, false)),
                  waiting := map[4 := Release(run, 1)])
  }

  lemma EntersAgain(run: RunId)
    ensures Enabled(Stopped(run), Enter(3)) && Next(Stopped(run), Enter(3)) == Restarting(run)
  {
    SweptAway(Stopped(run).(waiting := map[4 := Release(run, 1)]), run, 1);
    hide Swept;
    assert Stopped(run).waiting - {3} == map[4 := Release(run, 1)];
  }

  /** ... and creates a task without a flag. */
  lemma CreatedWithoutFlag(run: RunId)
    ensures Enabled(Restarting(run), Prepared(true, 2))
    ensures var n := Next(Restarting(run), Prepared(true, 2));
      && Lacks(n, 2, AfterCurrentJob)
      && Enabled(n, EnterAdmission(2)) && Next(n, EnterAdmission(2)).tasks[2].control.holder == Admission(true)
  {
    var n := Next(Restarting(run), Prepared(true, 2));
    assert n.tasks[2] == TaskOf(run, false, false, Nobody);
    assert n.lock == Free && n.durable == map[Intent(run, AfterCurrentJob) := 0];
  }

  lemma SecondStart(run: RunId)
    ensures Possible(Stopped(run), Last())
    ensures Run(Stopped(run), Last()) == Next(Restarting(run), Prepared(true, 2))
  {
    EntersAgain(run);
    CreatedWithoutFlag(run);
    hide Next, Enabled, Lacks, Stopped, Restarting;
    Two(Stopped(run), Restarting(run), Next(Restarting(run), Prepared(true, 2)), Enter(3), Prepared(true, 2));
  }

  lemma StartsAgain(run: RunId)
    ensures Possible(Idle(run, map[]), [Again(run)])
    ensures Run(Idle(run, map[]), [Again(run)]) == Idle(run, map[3 := Start(run, false, false)])
  {
    var n := Idle(run, map[3 := Start(run, false, false)]);
    assert Enabled(Idle(run, map[]), Again(run)) && Next(Idle(run, map[]), Again(run)) == n;
    hide Next, Enabled, Idle;
    assert [Again(run)][1..] == [] && Possible(n, []) && Run(n, []) == n;
  }

  /** Stopped after the current job, the Run is admitted again: no request is interrupted in this run. */
  lemma RestartedAdmission(run: RunId)
    ensures Possible(Fresh(map[]), RestartedRun(run))
    ensures var s := Run(Fresh(map[]), RestartedRun(run));
      && Lacks(s, 2, AfterCurrentJob)
      && Enabled(s, EnterAdmission(2)) && Next(s, EnterAdmission(2)).tasks[2].control.holder == Admission(true)
  {
    var waiting := map[3 := Start(run, false, false)];
    StartedRun(run);
    StartsAgain(run);
    RequestedRun(run, waiting);
    ConfirmedRun(run);
    SecondStart(run);
    CreatedWithoutFlag(run);
    hide Next, Enabled, Lacks, Fresh, Started, Requested, Confirmed, Idle, Writing, Stopped, Last, Again;
    RunOn(Writing(run, waiting), Confirmed(), Last());
    RunOn(Idle(run, waiting), Requested(run), Confirmed() + Last());
    RunOn(Idle(run, map[]), [Again(run)], Requested(run) + (Confirmed() + Last()));
    RunOn(Fresh(map[]), Started(run), [Again(run)] + (Requested(run) + (Confirmed() + Last())));
  }
}
