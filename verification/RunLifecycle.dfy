/** Starting, discarding, cancelling and draining Runs in one process, as one state machine.

    A step is the code a coroutine runs between two suspensions. Which waiter gets a free lock next
    is left open, so every fairness policy is covered. */
module RunLifecycle {

  type RunId = string
  type TaskId = nat
  type OpId = nat

  datatype Mode = AfterCurrentJob | Detach

  datatype Intent = Intent(run: RunId, mode: Mode)

  /** Who is inside a cancellation control's lock. */
  datatype Holder = Nobody | Admission(yielded: bool) | Requester

  datatype Control = Control(stop: bool, detach: bool, holder: Holder)

  predicate ModeFlag(c: Control, mode: Mode) { if mode == Detach then c.detach else c.stop }

  /** An execution task; `cancelled` records that cancel() has been called on it. */
  datatype Task = Task(run: RunId, done: bool, cancelled: bool, control: Control)

  /** What a coroutine wants the registry lock for. */
  datatype Wish =
    | Start(run: RunId, stop: bool, detach: bool)  // with the durable intents read beforehand
    | Discard(run: RunId)
    | Cancel(run: RunId, mode: Mode)
    | Release(run: RunId, task: TaskId)            // a completion callback

  /** What the lock's owner is suspended in. */
  datatype Section =
    | Preparing(run: RunId, stop: bool, detach: bool, interrupted: bool)  // storage check
    | Discarding(run: RunId)                                              // storage write
    | Requesting(run: RunId, mode: Mode, task: TaskId)                    // wants the control's lock
    | Storing(run: RunId, mode: Mode, task: TaskId)                       // worker thread is writing

  datatype Lock = Free | Held(op: OpId, section: Section)

  datatype Drain = NotStarted | WaitingForLock | Gathering(tasks: set<TaskId>) | Clearing | Finished

  /** A database write handed to a worker thread; it survives the caller's cancellation. */
  datatype Write = Write(intent: Intent, committed: bool)

  datatype State = State(
    active: map<RunId, TaskId>, lock: Lock, closing: bool, drain: Drain,
    tasks: map<TaskId, Task>, waiting: map<OpId, Wish>, writes: map<OpId, Write>,
    durable: map<Intent, nat>)  // when each intent was first recorded

  datatype Event =
    | Call(op: OpId, wish: Wish)
    | Enter(op: OpId)                                  // takes the free registry lock
    | Prepared(eligible: bool, task: TaskId)           // the storage check has ended
    | Discarded
    | TakeControl
    | Commit(op: OpId, stamp: nat)                     // a worker's transaction commits
    | Stored
    | StoreFailed
    | Interrupt(op: OpId)                              // the caller is cancelled
    | EnterAdmission(task: TaskId)
    | ExitAdmission(task: TaskId)
    | Complete(task: TaskId, op: OpId)                 // the task ends; its callback becomes `op`
    | Shutdown
    | BeginDrain                                       // the drain takes the free registry lock
    | Gathered
    | Clear

  /** _remove_completed */
  function Swept(s: State): map<RunId, TaskId> { map r | r in s.active && !IsDone(s, s.active[r]) :: s.active[r] }

  predicate IsDone(s: State, t: TaskId) { t in s.tasks && s.tasks[t].done }

  predicate In(s: State, op: OpId) { s.lock.Held? && s.lock.op == op }

  predicate Unused(s: State, op: OpId) { op !in s.waiting && op !in s.writes && !In(s, op) }

  predicate Written(s: State, committed: bool) {
    s.lock.Held? && s.lock.section.Storing? && s.lock.section.task in s.tasks
    && s.lock.op in s.writes && s.writes[s.lock.op].committed == committed
  }

  predicate Enabled(s: State, e: Event) {
    match e
    case Call(op, wish) =>
      Unused(s, op) && !wish.Release?
      && (wish.Start? ==> wish.stop == (Intent(wish.run, AfterCurrentJob) in s.durable))
      && (wish.Start? ==> wish.detach == (Intent(wish.run, Detach) in s.durable))
    case Enter(op) => op in s.waiting && s.lock == Free
    case Prepared(_, task) => s.lock.Held? && s.lock.section.Preparing? && task !in s.tasks
    case Discarded => s.lock.Held? && s.lock.section.Discarding?
    case TakeControl =>
      s.lock.Held? && s.lock.section.Requesting? && s.lock.section.task in s.tasks
      && s.tasks[s.lock.section.task].control.holder == Nobody
    case Commit(op, _) => op in s.writes && !s.writes[op].committed
    case Stored => Written(s, true)
    case StoreFailed => Written(s, false)
    case Interrupt(op) =>
      (op in s.waiting && !s.waiting[op].Release?)
      || (In(s, op) && (s.lock.section.Storing? ==> s.lock.section.task in s.tasks))
    case EnterAdmission(task) => task in s.tasks && !s.tasks[task].done && s.tasks[task].control.holder == Nobody
    case ExitAdmission(task) => task in s.tasks && s.tasks[task].control.holder.Admission?
    case Complete(task, op) =>
      task in s.tasks && !s.tasks[task].done && !s.tasks[task].control.holder.Admission? && Unused(s, op)
    case Shutdown => true
    case BeginDrain => s.drain == WaitingForLock && s.lock == Free
    case Gathered => s.drain.Gathering? && forall t :: t in s.drain.tasks ==> IsDone(s, t)
    case Clear => s.drain == Clearing && s.lock == Free
  }

  function Next(s: State, e: Event): State
    requires Enabled(s, e)
  {
    match e
    case Call(op, wish) => s.(waiting := s.waiting[op := wish])
    case Enter(op) => EnterSection(s.(waiting := s.waiting - {op}), op, s.waiting[op])
    case Prepared(eligible, task) => EndPreparing(s, s.lock.section, eligible, task)
    case Discarded => s.(lock := Free)
    case TakeControl =>
      var c := s.lock.section;
      WithHolder(s, c.task, Requester).(lock := Held(s.lock.op, Storing(c.run, c.mode, c.task)),
                                        writes := s.writes[s.lock.op := Write(Intent(c.run, c.mode), false)])
    case Commit(op, stamp) =>
      var intent := s.writes[op].intent;
      s.(writes := s.writes[op := Write(intent, true)],
         durable := if intent in s.durable then s.durable else s.durable[intent := stamp])
    case Stored => Flagged(s, s.lock.section.task, s.lock.section.mode).(lock := Free)
    case StoreFailed => WithHolder(s, s.lock.section.task, Nobody).(lock := Free, writes := s.writes - {s.lock.op})
    case Interrupt(op) => if op in s.waiting then s.(waiting := s.waiting - {op}) else InterruptOwner(s, s.lock.section)
    case EnterAdmission(task) =>
      WithHolder(s, task, Admission(!(s.tasks[task].control.stop || s.tasks[task].control.detach)))
    case ExitAdmission(task) => WithHolder(s, task, Nobody)
    case Complete(task, op) =>
      s.(tasks := s.tasks[task := s.tasks[task].(done := true)],
         waiting := s.waiting[op := Release(s.tasks[task].run, task)])
    case Shutdown => s.(closing := true, drain := if s.drain == NotStarted then WaitingForLock else s.drain)
    case BeginDrain => s.(drain := Gathering(Registered(s)), tasks := CancelAll(s.tasks, Registered(s)))
    case Gathered => s.(drain := Clearing)
    case Clear => s.(active := map[], drain := Finished)
  }

  /** Inside the lock, up to the next suspension. A refused caller gives the lock straight back. */
  function EnterSection(s: State, op: OpId, wish: Wish): State
  {
    match wish
    case Start(run, stop, detach) =>
      if s.closing then s
      else if Swept(s) != map[] then s.(active := Swept(s))
      else s.(active := map[], lock := Held(op, Preparing(run, stop, detach, false)))
    case Discard(run) =>
      if s.closing then s
      else if run in Swept(s) then s.(active := Swept(s))
      else s.(active := Swept(s), lock := Held(op, Discarding(run)))
    case Cancel(run, mode) =>
      if run !in Swept(s) then s.(active := Swept(s))
      else s.(active := Swept(s), lock := Held(op, Requesting(run, mode, s.active[run])))
    case Release(run, task) =>
      if run in s.active && s.active[run] == task then s.(active := s.active - {run}) else s
  }

  /** Creating the task and registering it are one step; a cancelled or ineligible start creates none. */
  function EndPreparing(s: State, c: Section, eligible: bool, task: TaskId): State
    requires c.Preparing?
  {
    if !eligible || c.detach || c.interrupted then s.(lock := Free)
    else s.(lock := Free, tasks := s.tasks[task := Task(c.run, false, false, Control(c.stop, c.detach, Nobody))],
            active := s.active[c.run := task])
  }

  function WithHolder(s: State, task: TaskId, holder: Holder): State
    requires task in s.tasks
  {
    s.(tasks := s.tasks[task := s.tasks[task].(control := s.tasks[task].control.(holder := holder))])
  }

  /** The record is durable: set the flag, free the control's lock and, for a detach, cancel the task. */
  function Flagged(s: State, task: TaskId, mode: Mode): State
    requires task in s.tasks
  {
    s.(tasks := s.tasks[task := FlaggedTask(s.tasks[task], mode)])
  }

  function FlaggedTask(t: Task, mode: Mode): Task {
    match mode
    case AfterCurrentJob => t.(control := Control(true, t.control.detach, Nobody))
    case Detach => t.(control := Control(t.control.stop, true, Nobody), cancelled := true)
  }

  /** A start's storage check is joined before its cancellation is delivered, and so is a discard's
      write. A request that is being stored lets go of both locks while its thread runs on. */
  function InterruptOwner(s: State, c: Section): State
    requires c.Storing? ==> c.task in s.tasks
  {
    match c
    case Preparing(_, _, _, _) => if s.lock.Held? then s.(lock := Held(s.lock.op, c.(interrupted := true))) else s
    case Discarding(_) => s
    case Requesting(_, _, _) => s.(lock := Free)
    case Storing(_, _, task) => WithHolder(s, task, Nobody).(lock := Free)
  }

  function Registered(s: State): set<TaskId> { set r | r in s.active :: s.active[r] }

  function CancelAll(tasks: map<TaskId, Task>, chosen: set<TaskId>): map<TaskId, Task> {
    map t | t in tasks :: if t in chosen then tasks[t].(cancelled := true) else tasks[t]
  }

  // ---------- the invariant ----------

  /** At most one registered run, and its task is that run's. */
  ghost predicate ActiveOk(s: State) {
    && (forall r :: r in s.active ==> s.active[r] in s.tasks && s.tasks[s.active[r]].run == r)
    && (forall r, q :: r in s.active && q in s.active ==> r == q)
  }

  /** Every task that is not done is registered. */
  ghost predicate LiveOk(s: State) {
    forall t :: t in s.tasks && !s.tasks[t].done ==> s.tasks[t].run in s.active && s.active[s.tasks[t].run] == t
  }

  predicate IsPreparing(s: State) { s.lock.Held? && s.lock.section.Preparing? }

  ghost predicate PreparingOk(s: State) { IsPreparing(s) ==> s.active == map[] }

  predicate IsDiscarding(s: State, run: RunId) { s.lock.Held? && s.lock.section == Discarding(run) }

  /** The run whose state is being discarded has no task. */
  ghost predicate DiscardingOk(s: State) { forall run :: IsDiscarding(s, run) ==> run !in s.active }

  predicate Draining(s: State) { s.drain.Gathering? || s.drain.Clearing? || s.drain.Finished? }

  /** From the drain's snapshot on nothing is being started, and what may still run is in the snapshot and
      has been cancelled. */
  ghost predicate DrainOk(s: State) {
    && (s.drain.NotStarted? || s.closing)
    && (Draining(s) ==> !IsPreparing(s))
    && (s.drain.Gathering? ==> forall t :: t in s.tasks && !s.tasks[t].done ==> t in s.drain.tasks)
    && (s.drain.Gathering? ==> forall t :: t in s.tasks && !s.tasks[t].done ==> s.tasks[t].cancelled)
    && (s.drain.Clearing? || s.drain.Finished? ==> forall t :: t in s.tasks ==> s.tasks[t].done)
  }

  predicate StoringFor(s: State, t: TaskId) { s.lock.Held? && s.lock.section.Storing? && s.lock.section.task == t }

  /** A control's lock is held by the request that is storing, or by an admission; an admission
      that yielded true sees no flag set for as long as it is open. */
  ghost predicate ControlOk(s: State) {
    && (forall t :: t in s.tasks ==> (s.tasks[t].control.holder == Requester <==> StoringFor(s, t)))
    && (forall t :: t in s.tasks && s.tasks[t].control.holder == Admission(true) ==>
          !s.tasks[t].control.stop && !s.tasks[t].control.detach)
  }

  ghost predicate SectionOk(s: State) {
    && (s.lock.Held? && (s.lock.section.Storing? || s.lock.section.Requesting?) ==>
          s.lock.section.task in s.tasks && s.tasks[s.lock.section.task].run == s.lock.section.run)
    && (s.lock.Held? && s.lock.section.Storing? ==>
          s.lock.op in s.writes && s.writes[s.lock.op].intent == Intent(s.lock.section.run, s.lock.section.mode))
    && (s.lock.Held? ==> s.lock.op !in s.waiting && (s.lock.op in s.writes ==> s.lock.section.Storing?))
    && (forall op :: op in s.waiting ==> op !in s.writes)
  }

  predicate Recorded(s: State, run: RunId, mode: Mode) { Intent(run, mode) in s.durable }

  /** A flag that is set has its record, and so has everything read from the records. */
  ghost predicate DurableOk(s: State) {
    && (forall t :: t in s.tasks && s.tasks[t].control.stop ==> Recorded(s, s.tasks[t].run, AfterCurrentJob))
    && (forall t :: t in s.tasks && s.tasks[t].control.detach ==> Recorded(s, s.tasks[t].run, Detach))
    && (forall op :: op in s.writes && s.writes[op].committed ==> s.writes[op].intent in s.durable)
    && (forall op :: op in s.waiting && s.waiting[op].Start? && s.waiting[op].stop ==>
          Recorded(s, s.waiting[op].run, AfterCurrentJob))
    && (IsPreparing(s) && s.lock.section.stop ==> Recorded(s, s.lock.section.run, AfterCurrentJob))
  }

  /** cancel() is called on a task only for a recorded detach or by the drain. */
  ghost predicate CancelOk(s: State) {
    forall t :: t in s.tasks && s.tasks[t].cancelled ==> Draining(s) || s.tasks[t].control.detach
  }

  /** A completion callback is only scheduled for a task that is done. */
  ghost predicate CallbackOk(s: State) {
    forall op :: op in s.waiting && s.waiting[op].Release? ==> IsDone(s, s.waiting[op].task)
  }

  ghost predicate RegistryOk(s: State) {
    ActiveOk(s) && LiveOk(s) && PreparingOk(s) && DiscardingOk(s) && DrainOk(s) && CallbackOk(s)
  }

  ghost predicate CancellationOk(s: State) { ControlOk(s) && SectionOk(s) && DurableOk(s) && CancelOk(s) }

  ghost predicate Inv(s: State) { RegistryOk(s) && CancellationOk(s) }

  /** A process start: no tasks, and whatever intents earlier processes recorded. */
  function Fresh(durable: map<Intent, nat>): State {
    State(map[], Free, false, NotStarted, map[], map[], map[], durable)
  }

  lemma FreshInv(durable: map<Intent, nat>)
    ensures Inv(Fresh(durable))
  {
  }

  // ---------- every step keeps it ----------

  /** Sweeping completed tasks out drops no live task. */
  lemma SweptKeeps(s: State)
    requires ActiveOk(s) && LiveOk(s)
    ensures ActiveOk(s.(active := Swept(s))) && LiveOk(s.(active := Swept(s)))
    ensures s.active == map[] ==> Swept(s) == map[]
  {
  }

  /** Entering a section leaves the entries or sweeps them. */
  lemma EntryFrame(s: State, n: State, op: OpId, swept: map<RunId, TaskId>)
    requires RegistryOk(s) && s.lock == Free && swept == Swept(s)
    requires n.tasks == s.tasks && n.drain == s.drain && n.closing == s.closing && n.waiting == s.waiting - {op}
    requires n.active == s.active || n.active == swept
    requires IsPreparing(n) ==> n.active == map[] && !s.closing
    requires forall run :: IsDiscarding(n, run) ==> run !in n.active
    ensures RegistryOk(n)
  {
    SweptKeeps(s);
    hide Swept;
  }

  lemma SweptWaiting(s: State, op: OpId)
    ensures Swept(s.(waiting := s.waiting - {op})) == Swept(s)
  {
  }

  /** A start goes on only over an empty registry. */
  lemma EnterStartKeepsRegistry(s: State, op: OpId)
    requires Inv(s) && Enabled(s, Enter(op)) && s.waiting[op].Start?
    ensures RegistryOk(Next(s, Enter(op)))
  {
    SweptWaiting(s, op);
    hide Swept, RegistryOk, CancellationOk;
    EntryFrame(s, Next(s, Enter(op)), op, Swept(s));
  }

  lemma EnterDiscardKeepsRegistry(s: State, op: OpId)
    requires Inv(s) && Enabled(s, Enter(op)) && s.waiting[op].Discard?
    ensures RegistryOk(Next(s, Enter(op)))
  {
    SweptWaiting(s, op);
    hide Swept, RegistryOk, CancellationOk;
    EntryFrame(s, Next(s, Enter(op)), op, Swept(s));
  }

  lemma EnterCancelKeepsRegistry(s: State, op: OpId)
    requires Inv(s) && Enabled(s, Enter(op)) && s.waiting[op].Cancel?
    ensures RegistryOk(Next(s, Enter(op)))
  {
    SweptWaiting(s, op);
    hide Swept, RegistryOk, CancellationOk;
    EntryFrame(s, Next(s, Enter(op)), op, Swept(s));
  }

  /** A completion callback removes its own task's entry and nobody else's. */
  lemma EnterReleaseKeepsRegistry(s: State, op: OpId)
    requires Inv(s) && Enabled(s, Enter(op)) && s.waiting[op].Release?
    ensures RegistryOk(Next(s, Enter(op)))
  {
  }

  /** Entering a section touches no task, no write and no record. */
  lemma QuietEntry(s: State, n: State, op: OpId)
    requires CancellationOk(s) && s.lock == Free && op in s.waiting
    requires n.tasks == s.tasks && n.writes == s.writes && n.durable == s.durable && n.drain == s.drain
    requires n.waiting == s.waiting - {op}
    requires n.lock.Held? ==> n.lock.op == op && !n.lock.section.Storing?
    requires n.lock.Held? && n.lock.section.Requesting? ==>
      n.lock.section.task in n.tasks && n.tasks[n.lock.section.task].run == n.lock.section.run
    requires IsPreparing(n) && n.lock.section.stop ==> Recorded(s, n.lock.section.run, AfterCurrentJob)
    ensures CancellationOk(n)
  {
  }

  lemma EnterStartKeepsCancellation(s: State, op: OpId)
    requires Inv(s) && Enabled(s, Enter(op)) && s.waiting[op].Start?
    ensures CancellationOk(Next(s, Enter(op)))
  {
    QuietEntry(s, Next(s, Enter(op)), op);
  }

  lemma EnterDiscardKeepsCancellation(s: State, op: OpId)
    requires Inv(s) && Enabled(s, Enter(op)) && s.waiting[op].Discard?
    ensures CancellationOk(Next(s, Enter(op)))
  {
    QuietEntry(s, Next(s, Enter(op)), op);
  }

  lemma EnterCancelKeepsCancellation(s: State, op: OpId)
    requires Inv(s) && Enabled(s, Enter(op)) && s.waiting[op].Cancel?
    ensures CancellationOk(Next(s, Enter(op)))
  {
    QuietEntry(s, Next(s, Enter(op)), op);
  }

  lemma EnterReleaseKeepsCancellation(s: State, op: OpId)
    requires Inv(s) && Enabled(s, Enter(op)) && s.waiting[op].Release?
    ensures CancellationOk(Next(s, Enter(op)))
  {
    QuietEntry(s, Next(s, Enter(op)), op);
  }

  lemma EnterKeeps(s: State, op: OpId)
    requires Inv(s) && Enabled(s, Enter(op))
    ensures Inv(Next(s, Enter(op)))
  {
    match s.waiting[op] {
      case Start(_, _, _) => EnterStartKeepsRegistry(s, op); EnterStartKeepsCancellation(s, op);
      case Discard(_) => EnterDiscardKeepsRegistry(s, op); EnterDiscardKeepsCancellation(s, op);
      case Cancel(_, _) => EnterCancelKeepsRegistry(s, op); EnterCancelKeepsCancellation(s, op);
      case Release(_, _) => EnterReleaseKeepsRegistry(s, op); EnterReleaseKeepsCancellation(s, op);
    }
  }

  lemma Creates(s: State, n: State, c: Section, task: TaskId)
    requires Inv(s) && s.lock.Held? && s.lock.section == c && c.Preparing? && task !in s.tasks && !c.detach
    requires n == s.(lock := Free, tasks := s.tasks[task := Task(c.run, false, false, Control(c.stop, false, Nobody))],
                     active := s.active[c.run := task])
    ensures RegistryOk(n)
  {
  }

  lemma CreatesControlled(s: State, n: State, c: Section, task: TaskId)
    requires Inv(s) && s.lock.Held? && s.lock.section == c && c.Preparing? && task !in s.tasks && !c.detach
    requires n == s.(lock := Free, tasks := s.tasks[task := Task(c.run, false, false, Control(c.stop, false, Nobody))],
                     active := s.active[c.run := task])
    ensures CancellationOk(n)
  {
  }

  lemma PreparedKeeps(s: State, eligible: bool, task: TaskId)
    requires Inv(s) && Enabled(s, Prepared(eligible, task))
    ensures Inv(Next(s, Prepared(eligible, task)))
  {
    hide RegistryOk, CancellationOk;
    var c := s.lock.section;
    if eligible && !c.detach && !c.interrupted {
      Creates(s, Next(s, Prepared(eligible, task)), c, task);
      CreatesControlled(s, Next(s, Prepared(eligible, task)), c, task);
    } else {
      LetsGo(s);
    }
  }

  lemma DiscardedKeeps(s: State)
    requires Inv(s) && Enabled(s, Discarded)
    ensures Inv(Next(s, Discarded))
  {
    hide RegistryOk, CancellationOk;
    LetsGo(s);
  }

  /** Steps that change only flags, lock holders and cancel marks of tasks leave the registry as it is. */
  lemma RegistryFrame(s: State, n: State)
    requires RegistryOk(s)
    requires n.active == s.active && n.drain == s.drain && n.closing == s.closing && n.waiting == s.waiting
    requires n.tasks.Keys == s.tasks.Keys
    requires forall t :: t in s.tasks ==> n.tasks[t].run == s.tasks[t].run && n.tasks[t].done == s.tasks[t].done
    requires forall t :: t in s.tasks && s.tasks[t].cancelled ==> n.tasks[t].cancelled
    requires IsPreparing(n) ==> IsPreparing(s)
    requires forall run :: IsDiscarding(n, run) ==> IsDiscarding(s, run)
    ensures RegistryOk(n)
  {
  }

  lemma TakeControlKeepsRegistry(s: State)
    requires Inv(s) && Enabled(s, TakeControl)
    ensures RegistryOk(Next(s, TakeControl))
  {
    RegistryFrame(s, Next(s, TakeControl));
  }

  lemma TakeControlKeepsCancellation(s: State)
    requires Inv(s) && Enabled(s, TakeControl)
    ensures CancellationOk(Next(s, TakeControl))
  {
  }

  /** Leaving the storing section: the one task's control is free again. */
  lemma SetsFlag(s: State, n: State, t: TaskId, after: Task)
    requires Inv(s) && StoringFor(s, t) && t in s.tasks
    requires n == s.(lock := Free, tasks := s.tasks[t := after])
    requires after.run == s.tasks[t].run && after.done == s.tasks[t].done && after.control.holder == Nobody
    requires s.tasks[t].cancelled ==> after.cancelled
    requires after.control.stop ==> Recorded(s, after.run, AfterCurrentJob)
    requires after.control.detach ==> Recorded(s, after.run, Detach)
    requires after.cancelled ==> after.control.detach || Draining(s)
    ensures Inv(n)
  {
    RegistryFrame(s, n);
    SetsFlagControlled(s, n, t, after);
  }

  lemma SetsFlagControlled(s: State, n: State, t: TaskId, after: Task)
    requires Inv(s) && StoringFor(s, t) && t in s.tasks
    requires n == s.(lock := Free, tasks := s.tasks[t := after])
    requires after.run == s.tasks[t].run && after.control.holder == Nobody
    requires after.control.stop ==> Recorded(s, after.run, AfterCurrentJob)
    requires after.control.detach ==> Recorded(s, after.run, Detach)
    requires after.cancelled ==> after.control.detach || Draining(s)
    ensures CancellationOk(n)
  {
  }

  lemma StoredRecorded(s: State)
    requires Inv(s) && Enabled(s, Stored)
    ensures var t, mode := s.lock.section.task, s.lock.section.mode;
      var after := FlaggedTask(s.tasks[t], mode);
      && StoringFor(s, t)
      && (after.control.stop ==> Recorded(s, after.run, AfterCurrentJob))
      && (after.control.detach ==> Recorded(s, after.run, Detach))
      && (after.cancelled ==> after.control.detach || Draining(s))
  {
    hide RegistryOk, ControlOk, Draining;
  }

  lemma StoredKeeps(s: State)
    requires Inv(s) && Enabled(s, Stored)
    ensures Inv(Next(s, Stored))
  {
    StoredRecorded(s);
    var n, t, mode := Next(s, Stored), s.lock.section.task, s.lock.section.mode;
    assert n == s.(lock := Free, tasks := s.tasks[t := FlaggedTask(s.tasks[t], mode)]);
    hide Next, Enabled, RegistryOk, CancellationOk;
    SetsFlag(s, n, t, FlaggedTask(s.tasks[t], mode));
  }

  lemma StoreFailedKeepsRegistry(s: State)
    requires Inv(s) && Enabled(s, StoreFailed)
    ensures RegistryOk(Next(s, StoreFailed))
  {
    RegistryFrame(s, Next(s, StoreFailed));
  }

  lemma StoreFailedKeepsCancellation(s: State)
    requires Inv(s) && Enabled(s, StoreFailed)
    ensures CancellationOk(Next(s, StoreFailed))
  {
  }

  lemma CallKeeps(s: State, op: OpId, wish: Wish)
    requires Inv(s) && Enabled(s, Call(op, wish))
    ensures Inv(Next(s, Call(op, wish)))
  {
  }

  lemma CommitKeeps(s: State, op: OpId, stamp: nat)
    requires Inv(s) && Enabled(s, Commit(op, stamp))
    ensures Inv(Next(s, Commit(op, stamp)))
  {
    RegistryFrame(s, Next(s, Commit(op, stamp)));
    CommitKeepsRecords(s, op, stamp);
    hide RegistryOk, DurableOk;
  }

  lemma CommitKeepsRecords(s: State, op: OpId, stamp: nat)
    requires Inv(s) && Enabled(s, Commit(op, stamp))
    ensures DurableOk(Next(s, Commit(op, stamp)))
  {
    hide RegistryOk, ControlOk, SectionOk, CancelOk;
  }

  lemma ForgetsWaiter(s: State, op: OpId)
    requires Inv(s) && op in s.waiting
    ensures Inv(s.(waiting := s.waiting - {op}))
  {
  }

  lemma InterruptStoring(s: State, n: State)
    requires Inv(s) && s.lock.Held? && s.lock.section.Storing? && s.lock.section.task in s.tasks
    requires n == WithHolder(s, s.lock.section.task, Nobody).(lock := Free)
    ensures Inv(n)
  {
    SetsFlag(s, n, s.lock.section.task, n.tasks[s.lock.section.task]);
  }

  lemma InterruptKeeps(s: State, op: OpId)
    requires Inv(s) && Enabled(s, Interrupt(op))
    ensures Inv(Next(s, Interrupt(op)))
  {
    hide RegistryOk, CancellationOk;
    if op in s.waiting {
      ForgetsWaiter(s, op);
    } else if s.lock.section.Storing? {
      InterruptStoring(s, Next(s, Interrupt(op)));
    } else if s.lock.section.Requesting? {
      LetsGo(s);
    } else if s.lock.section.Preparing? {
      MarksInterrupted(s);
    }
  }

  lemma MarksInterrupted(s: State)
    requires Inv(s) && s.lock.Held? && s.lock.section.Preparing?
    ensures Inv(s.(lock := Held(s.lock.op, s.lock.section.(interrupted := true))))
  {
    var n := s.(lock := Held(s.lock.op, s.lock.section.(interrupted := true)));
    RegistryFrame(s, n);
    hide RegistryOk;
  }

  lemma LetsGo(s: State)
    requires Inv(s) && s.lock.Held? && !s.lock.section.Storing?
    ensures Inv(s.(lock := Free))
  {
    RegistryFrame(s, s.(lock := Free));
  }

  lemma EnterAdmissionKeepsRegistry(s: State, task: TaskId)
    requires Inv(s) && Enabled(s, EnterAdmission(task))
    ensures RegistryOk(Next(s, EnterAdmission(task)))
  {
  }

  lemma EnterAdmissionKeepsCancellation(s: State, task: TaskId)
    requires Inv(s) && Enabled(s, EnterAdmission(task))
    ensures CancellationOk(Next(s, EnterAdmission(task)))
  {
  }

  lemma ExitAdmissionKeepsRegistry(s: State, task: TaskId)
    requires Inv(s) && Enabled(s, ExitAdmission(task))
    ensures RegistryOk(Next(s, ExitAdmission(task)))
  {
  }

  lemma ExitAdmissionKeepsCancellation(s: State, task: TaskId)
    requires Inv(s) && Enabled(s, ExitAdmission(task))
    ensures CancellationOk(Next(s, ExitAdmission(task)))
  {
  }

  lemma CompleteKeeps(s: State, task: TaskId, op: OpId)
    requires Inv(s) && Enabled(s, Complete(task, op))
    ensures Inv(Next(s, Complete(task, op)))
  {
    CompleteKeepsRegistry(s, task, op);
    CompleteKeepsCancellation(s, task, op);
  }

  lemma CompleteKeepsRegistry(s: State, task: TaskId, op: OpId)
    requires RegistryOk(s) && Enabled(s, Complete(task, op))
    ensures RegistryOk(Next(s, Complete(task, op)))
  {
    hide Registered, Swept;
  }

  lemma CompleteKeepsCancellation(s: State, task: TaskId, op: OpId)
    requires CancellationOk(s) && Enabled(s, Complete(task, op))
    ensures CancellationOk(Next(s, Complete(task, op)))
  {
    CompleteKeepsRecords(s, task, op);
    hide Registered, Swept, DurableOk, CancelOk;
  }

  lemma CompleteKeepsRecords(s: State, task: TaskId, op: OpId)
    requires CancellationOk(s) && Enabled(s, Complete(task, op))
    ensures DurableOk(Next(s, Complete(task, op))) && CancelOk(Next(s, Complete(task, op)))
  {
    hide ControlOk, SectionOk;
  }

  /** The drain takes the lock when no start is being prepared, and every live task is registered,
      so its snapshot covers everything that will ever run. */
  lemma BeginDrainKeeps(s: State)
    requires Inv(s) && Enabled(s, BeginDrain)
    ensures Inv(Next(s, BeginDrain))
  {
    forall t | t in s.tasks && !s.tasks[t].done ensures t in Registered(s) { assert s.active[s.tasks[t].run] == t; }
  }

  lemma GatheredKeeps(s: State)
    requires Inv(s) && Enabled(s, Gathered)
    ensures Inv(Next(s, Gathered))
  {
  }

  lemma ClearKeeps(s: State)
    requires Inv(s) && Enabled(s, Clear)
    ensures Inv(Next(s, Clear))
  {
  }

  lemma ShutdownKeeps(s: State)
    requires Inv(s)
    ensures Inv(Next(s, Shutdown))
  {
  }

  lemma StepKeepsInv(s: State, e: Event)
    requires Inv(s) && Enabled(s, e)
    ensures Inv(Next(s, e))
  {
    hide RegistryOk, CancellationOk, Enabled, Next;
    match e
    case Call(op, wish) => CallKeeps(s, op, wish);
    case Enter(op) => EnterKeeps(s, op);
    case Prepared(eligible, task) => PreparedKeeps(s, eligible, task);
    case Discarded => DiscardedKeeps(s);
    case TakeControl => TakeControlKeepsRegistry(s); TakeControlKeepsCancellation(s);
    case Commit(op, stamp) => CommitKeeps(s, op, stamp);
    case Stored => StoredKeeps(s);
    case StoreFailed => StoreFailedKeepsRegistry(s); StoreFailedKeepsCancellation(s);
    case Interrupt(op) => InterruptKeeps(s, op);
    case EnterAdmission(task) => EnterAdmissionKeepsRegistry(s, task); EnterAdmissionKeepsCancellation(s, task);
    case ExitAdmission(task) => ExitAdmissionKeepsRegistry(s, task); ExitAdmissionKeepsCancellation(s, task);
    case Complete(task, op) => CompleteKeeps(s, task, op);
    case BeginDrain => BeginDrainKeeps(s);
    case Gathered => GatheredKeeps(s);
    case Clear => ClearKeeps(s);
    case Shutdown => ShutdownKeeps(s);
  }

  // ---------- runs ----------

  ghost predicate Possible(s: State, events: seq<Event>)
    decreases |events|
  {
    events == [] || (Enabled(s, events[0]) && Possible(Next(s, events[0]), events[1..]))
  }

  ghost function Run(s: State, events: seq<Event>): State
    requires Possible(s, events)
    decreases |events|
  {
    if events == [] then s else Run(Next(s, events[0]), events[1..])
  }

  lemma {:induction false} RunKeepsInv(s: State, events: seq<Event>)
    requires Inv(s) && Possible(s, events)
    ensures Inv(Run(s, events))
    decreases |events|
  {
    if events != [] {
      StepKeepsInv(s, events[0]);
      RunKeepsInv(Next(s, events[0]), events[1..]);
    }
  }

  /** Every state that a process can get into. */
  lemma ReachableInv(durable: map<Intent, nat>, events: seq<Event>)
    requires Possible(Fresh(durable), events)
    ensures Inv(Run(Fresh(durable), events))
  {
    FreshInv(durable);
    RunKeepsInv(Fresh(durable), events);
  }

  /** At every moment at most one execution task is not done, and it is the registered one. */
  lemma AtMostOneLiveTask(s: State, t: TaskId, u: TaskId)
    requires Inv(s)
    requires t in s.tasks && !s.tasks[t].done && u in s.tasks && !s.tasks[u].done
    ensures t == u && s.active == map[s.tasks[t].run := t]
  {
    assert s.tasks[t].run in s.active && s.tasks[u].run in s.active;
    assert forall r :: r in s.active <==> r == s.tasks[t].run;
  }

  /** A stale completion callback takes nothing away from a newer start of the same run. */
  lemma StaleCallbackRemovesNothing(s: State, op: OpId, run: RunId)
    requires Inv(s) && Enabled(s, Enter(op)) && s.waiting[op].Release?
    requires run in s.active && s.active[run] != s.waiting[op].task
    ensures Next(s, Enter(op)).active == s.active
  {
    assert s.waiting[op].run in s.active ==> s.waiting[op].run == run;
  }

  /** While a discard is writing a run's state, every task of that run is done. */
  lemma DiscardedRunIsQuiet(s: State, run: RunId, t: TaskId)
    requires Inv(s) && IsDiscarding(s, run) && t in s.tasks && s.tasks[t].run == run
    ensures s.tasks[t].done
  {
    assert run !in s.active;
  }

  /** And until the write has ended no step creates a task, ends the section or lets anybody else in. */
  lemma DiscardExcludesStart(s: State, run: RunId, e: Event)
    requires Inv(s) && IsDiscarding(s, run) && Enabled(s, e) && e != Discarded
    ensures IsDiscarding(Next(s, e), run) && Next(s, e).lock.op == s.lock.op && Next(s, e).tasks.Keys == s.tasks.Keys
  {
    hide RegistryOk, ControlOk, DurableOk, CancelOk;
  }

  /** While the drain gathers, every task that has not ended has been cancelled. */
  lemma DrainHasCancelled(durable: map<Intent, nat>, events: seq<Event>, t: TaskId)
    requires Possible(Fresh(durable), events)
    ensures var s := Run(Fresh(durable), events);
      s.drain.Gathering? && t in s.tasks && !s.tasks[t].done ==> s.tasks[t].cancelled
  {
    ReachableInv(durable, events);
    hide Run;
  }

  ghost predicate AllDone(s: State) { forall t :: t in s.tasks ==> s.tasks[t].done }

  lemma EnterKeepsTasks(s: State, op: OpId)
    requires Enabled(s, Enter(op))
    ensures Next(s, Enter(op)).tasks == s.tasks && Next(s, Enter(op)).drain == s.drain
  {
  }

  lemma FinishedMeans(s: State)
    requires Inv(s) && s.drain == Finished
    ensures s.closing && !IsPreparing(s) && AllDone(s)
  {
  }

  lemma NothingStartsAfterShutdown(s: State, e: Event)
    requires Inv(s) && s.drain == Finished && Enabled(s, e)
    ensures Next(s, e).drain == Finished && Next(s, e).tasks.Keys == s.tasks.Keys
  {
    FinishedMeans(s);
    hide Inv, EnterSection, Swept, Registered, IsDone;
    if e.Enter? { EnterKeepsTasks(s, e.op); }
  }

  /** After shutdown has returned every task ever admitted is done, and no later step admits one,
      also when a start had passed the closing check before shutdown began. */
  lemma {:induction false} NothingRunsAfterShutdown(s: State, events: seq<Event>)
    requires Inv(s) && s.drain == Finished && Possible(s, events)
    ensures AllDone(s)
    ensures Run(s, events).drain == Finished && Run(s, events).tasks.Keys == s.tasks.Keys && AllDone(Run(s, events))
    decreases |events|
  {
    if events != [] {
      StepKeepsInv(s, events[0]);
      NothingStartsAfterShutdown(s, events[0]);
      NothingRunsAfterShutdown(Next(s, events[0]), events[1..]);
    }
  }

  predicate HasFlag(s: State, t: TaskId, mode: Mode) { t in s.tasks && ModeFlag(s.tasks[t].control, mode) }

  predicate Flag(s: State, t: TaskId) { HasFlag(s, t, AfterCurrentJob) || HasFlag(s, t, Detach) }

  lemma FlaggedFlags(s: State, task: TaskId, asked: Mode, t: TaskId, mode: Mode)
    requires task in s.tasks && t in s.tasks
    ensures HasFlag(Flagged(s, task, asked), t, mode) <==> HasFlag(s, t, mode) || (t == task && mode == asked)
  {
  }

  /** Each of a task's two flags stays once it is set, and only the step that completes a request of
      that mode for that task sets it. */
  lemma StepKeepsFlag(s: State, e: Event, t: TaskId, mode: Mode)
    requires Enabled(s, e) && t in s.tasks
    ensures HasFlag(Next(s, e), t, mode) <==>
      HasFlag(s, t, mode) || (e.Stored? && StoringFor(s, t) && s.lock.section.mode == mode)
  {
    hide EnterSection, Swept, Registered, IsDone, Unused, Flagged;
    match e
    case Enter(op) => EnterKeepsTasks(s, op);
    case Stored => FlaggedFlags(s, s.lock.section.task, s.lock.section.mode, t, mode);
    case Interrupt(op) => InterruptKeepsFlags(s, op, t, mode);
    case _ => hide Written;
  }

  lemma InterruptKeepsFlags(s: State, op: OpId, t: TaskId, mode: Mode)
    requires Enabled(s, Interrupt(op)) && t in s.tasks
    ensures HasFlag(Next(s, Interrupt(op)), t, mode) <==> HasFlag(s, t, mode)
  {
    hide Unused;
  }

  /** A request completes only between admissions; the step that completes it finds the record of its
      mode already written, sets the flag of its mode and leaves the other one; a detach is the only
      step of it that cancels the task. */
  lemma RequestCompletes(s: State)
    requires Inv(s) && Enabled(s, Stored)
    ensures var t, mode, n := s.lock.section.task, s.lock.section.mode, Next(s, Stored);
      && s.tasks[t].control.holder == Requester
      && HasFlag(n, t, mode) && Recorded(s, s.tasks[t].run, mode)
      && (forall other :: other != mode ==> (HasFlag(n, t, other) <==> HasFlag(s, t, other)))
      && (mode == Detach ==> n.tasks[t].cancelled)
      && (mode == AfterCurrentJob ==> n.tasks[t].cancelled == s.tasks[t].cancelled)
  {
  }

  lemma FlaggedAdmission(s: State, t: TaskId)
    requires Enabled(s, EnterAdmission(t)) && Flag(s, t)
    ensures t in Next(s, EnterAdmission(t)).tasks
    ensures Next(s, EnterAdmission(t)).tasks[t].control.holder == Admission(false)
  {
  }

  lemma StepKeepsAnyFlag(s: State, e: Event, t: TaskId)
    requires Enabled(s, e) && Flag(s, t)
    ensures Flag(Next(s, e), t)
  {
    hide Enabled, Next;
    StepKeepsFlag(s, e, t, AfterCurrentJob);
    StepKeepsFlag(s, e, t, Detach);
  }

  /** Once a flag is set, no admission ever yields true again. */
  lemma {:induction false} NoAdmissionAfterRequest(s: State, events: seq<Event>, t: TaskId, i: nat)
    requires Inv(s) && Possible(s, events) && Flag(s, t)
    requires i < |events| && events[i] == EnterAdmission(t)
    ensures Possible(s, events[..i + 1])
    ensures Run(s, events[..i + 1]).tasks.Keys >= {t}
    ensures Run(s, events[..i + 1]).tasks[t].control.holder == Admission(false)
    decreases |events|
  {
    hide Inv, Enabled, Next, Flag;
    StepKeepsInv(s, events[0]);
    StepKeepsAnyFlag(s, events[0], t);
    var n := Next(s, events[0]);
    if i == 0 {
      FlaggedAdmission(s, t);
      assert events[..1] == [events[0]];
      assert Run(n, []) == n;
      assert events[..1][1..] == [];
    } else {
      assert events[..i + 1][1..] == events[1..][..i];
      NoAdmissionAfterRequest(n, events[1..], t, i - 1);
    }
  }

  /** While an admission that yielded true is open, no request for that task can complete. */
  lemma OpenAdmissionExcludesRequest(s: State, t: TaskId)
    requires Inv(s) && t in s.tasks && s.tasks[t].control.holder == Admission(true)
    ensures !Flag(s, t)
    ensures Enabled(s, Stored) ==> s.lock.section.task != t
  {
  }

  /** An intent is recorded once: its first timestamp never changes. */
  lemma {:induction false} RecordIsCreatedOnce(s: State, events: seq<Event>, intent: Intent)
    requires Possible(s, events) && intent in s.durable
    ensures intent in Run(s, events).durable && Run(s, events).durable[intent] == s.durable[intent]
    decreases |events|
  {
    hide Enabled, Next;
    if events != [] {
      StepKeepsRecord(s, events[0], intent);
      RecordIsCreatedOnce(Next(s, events[0]), events[1..], intent);
    }
  }

  lemma StepKeepsRecord(s: State, e: Event, intent: Intent)
    requires Enabled(s, e) && intent in s.durable
    ensures intent in Next(s, e).durable && Next(s, e).durable[intent] == s.durable[intent]
  {
    hide Unused, IsDone, Written, Registered, Swept, CancelAll;
    match e
    case Enter(op) => hide Flagged, InterruptOwner, EndPreparing;
    case Stored => hide EnterSection, InterruptOwner, EndPreparing;
    case Interrupt(op) => hide EnterSection, Flagged, EndPreparing;
    case Prepared(eligible, task) => hide EnterSection, Flagged, InterruptOwner;
    case _ => hide EnterSection, Flagged, InterruptOwner, EndPreparing;
  }
}
