/** Nothing gets stuck: whoever holds the registry lock can leave it, every waiting caller can get in, and a
    shutdown that was begun can finish; and nobody needs to be cancelled for that. */
module RunProgress {
  import opened RunLifecycle
  import opened RunSteps

  // ---------- going on undisturbed ----------

  /** Nobody is cancelled and no write fails. */
  predicate Undisturbed(e: Event) { !e.Interrupt? && !e.StoreFailed? }

  ghost predicate AllUndisturbed(events: seq<Event>) { forall i :: 0 <= i < |events| ==> Undisturbed(events[i]) }

  ghost predicate CanReach(s: State, n: State) {
    exists events :: AllUndisturbed(events) && Possible(s, events) && Run(s, events) == n
  }

  lemma ReachHere(s: State)
    ensures CanReach(s, s)
  {
    var none: seq<Event> := [];
    assert AllUndisturbed(none) && Possible(s, none) && Run(s, none) == s;
  }

  lemma ReachByStep(s: State, e: Event, n: State)
    requires Enabled(s, e) && Undisturbed(e) && CanReach(Next(s, e), n)
    ensures CanReach(s, n)
  {
    hide Enabled, Next;
    var rest :| AllUndisturbed(rest) && Possible(Next(s, e), rest) && Run(Next(s, e), rest) == n;
    var events := [e] + rest;
    assert events[0] == e && events[1..] == rest;
    assert AllUndisturbed(events) && Possible(s, events) && Run(s, events) == n;
  }

  lemma ReachThrough(s: State, m: State, n: State)
    requires CanReach(s, m) && CanReach(m, n)
    ensures CanReach(s, n)
  {
    var events :| AllUndisturbed(events) && Possible(s, events) && Run(s, events) == m;
    ReachAfter(s, events, n);
  }

  lemma {:induction false} ReachAfter(s: State, events: seq<Event>, n: State)
    requires AllUndisturbed(events) && Possible(s, events) && CanReach(Run(s, events), n)
    ensures CanReach(s, n)
    decreases |events|
  {
    hide Enabled, Next, CanReach;
    if events != [] {
      ReachAfter(Next(s, events[0]), events[1..], n);
      ReachByStep(s, events[0], n);
    }
  }

  lemma FreshNumber(used: set<nat>) returns (n: nat)
    ensures n !in used
  {
    n := Above(used);
  }

  lemma Above(used: set<nat>) returns (n: nat)
    ensures forall x :: x in used ==> x < n
  {
    if used == {} {
      n := 0;
    } else {
      var x :| x in used;
      var m := Above(used - {x});
      n := if x < m then m else x + 1;
      assert forall y :: y in used ==> y == x || y in used - {x};
    }
  }

  lemma UnusedNumber(s: State) returns (op: OpId)
    ensures Unused(s, op)
  {
    op := FreshNumber(s.waiting.Keys + s.writes.Keys + if s.lock.Held? then {s.lock.op} else {});
  }

  // ---------- leaving the lock ----------

  /** What leaving the lock keeps: the drain, the waiting callers, and every end of a task. */
  ghost predicate Kept(s: State, n: State) {
    && n.drain == s.drain && n.waiting == s.waiting
    && forall t :: t in s.tasks ==> t in n.tasks && (s.tasks[t].done ==> n.tasks[t].done)
  }

  lemma KeptBoth(s: State, m: State, n: State)
    requires Kept(s, m) && Kept(m, n)
    ensures Kept(s, n)
  {
  }

  /** How far the owner is from leaving. */
  function Distance(s: State): nat {
    match s.lock
    case Free => 0
    case Held(op, Preparing(_, _, _, _)) => 1
    case Held(op, Discarding(_)) => 1
    case Held(op, Requesting(_, _, t)) => if t in s.tasks && s.tasks[t].control.holder.Admission? then 4 else 3
    case Held(op, Storing(_, _, _)) => if op in s.writes && s.writes[op].committed then 1 else 2
  }

  /** The owner's next step, or that of the admission it waits for. */
  lemma OwnerGoesOn(s: State) returns (e: Event)
    requires Inv(s) && s.lock.Held?
    ensures Enabled(s, e) && Undisturbed(e) && Distance(Next(s, e)) < Distance(s)
    ensures e.Prepared? || e.Discarded? || e.TakeControl? || e.ExitAdmission? || e.Commit? || e.Stored?
  {
    hide LiveOk, PreparingOk, DiscardingOk, DrainOk, CallbackOk, DurableOk, CancelOk, ActiveOk;
    match s.lock.section {
      case Preparing(_, _, _, _) =>
        var task := FreshNumber(s.tasks.Keys);
        e := Prepared(false, task);
      case Discarding(_) => e := Discarded;
      case Requesting(_, _, t) => e := if s.tasks[t].control.holder.Admission? then ExitAdmission(t) else TakeControl;
      case Storing(_, _, _) => e := if s.writes[s.lock.op].committed then Stored else Commit(s.lock.op, 0);
    }
  }

  lemma OwnerStepKept(s: State, e: Event)
    requires Enabled(s, e)
    requires e.Prepared? || e.Discarded? || e.TakeControl? || e.ExitAdmission? || e.Commit? || e.Stored?
    ensures Kept(s, Next(s, e))
  {
    var n := Next(s, e);
    DrainExactly(s, e);
    forall t | t in s.tasks ensures t in n.tasks && (s.tasks[t].done ==> n.tasks[t].done) { DoneExactly(s, e, t); }
    forall op ensures op in n.waiting <==> op in s.waiting { WaitingExactly(s, e, op); }
    forall op | op in s.waiting ensures n.waiting[op] == s.waiting[op] { WaitingExactly(s, e, op); }
    hide Enabled, Next;
    assert n.waiting == s.waiting;
  }

  /** Whoever holds the registry lock can leave it. */
  lemma LockGetsFree(s: State) returns (n: State)
    requires Inv(s)
    ensures Inv(n) && CanReach(s, n) && Kept(s, n) && n.lock == Free
    decreases Distance(s)
  {
    hide Inv, Enabled, Next, CanReach;
    if s.lock == Free {
      n := s;
      ReachHere(s);
    } else {
      var e := OwnerGoesOn(s);
      StepKeepsInv(s, e);
      OwnerStepKept(s, e);
      n := LockGetsFree(Next(s, e));
      ReachByStep(s, e, n);
      hide Distance;
      KeptBoth(s, Next(s, e), n);
    }
  }

  /** Every caller that waits for the lock, at any moment of any run, can get it. */
  lemma CallerGetsIn(durable: map<Intent, nat>, events: seq<Event>, op: OpId)
    requires Possible(Fresh(durable), events) && op in Run(Fresh(durable), events).waiting
    ensures exists n :: CanReach(Run(Fresh(durable), events), n) && Enabled(n, Enter(op))
  {
    hide Inv, CanReach;
    ReachableInv(durable, events);
    var n := LockGetsFree(Run(Fresh(durable), events));
    assert Enabled(n, Enter(op));
  }

  // ---------- finishing a shutdown ----------

  /** The drain waits for tasks that exist. */
  ghost predicate SnapshotKnown(s: State) { s.drain.Gathering? ==> forall t :: t in s.drain.tasks ==> t in s.tasks }

  lemma StepKeepsSnapshot(s: State, e: Event)
    requires Inv(s) && SnapshotKnown(s) && Enabled(s, e)
    ensures SnapshotKnown(Next(s, e))
  {
    var n := Next(s, e);
    DrainExactly(s, e);
    forall t | t in s.tasks ensures t in n.tasks { DoneExactly(s, e, t); }
    assert ActiveOk(s);
    hide Inv, Enabled, Next;
  }

  lemma {:induction false} RunKeepsSnapshot(s: State, events: seq<Event>)
    requires Inv(s) && SnapshotKnown(s) && Possible(s, events)
    ensures SnapshotKnown(Run(s, events))
    decreases |events|
  {
    hide Inv, Enabled, Next, SnapshotKnown;
    if events != [] {
      StepKeepsInv(s, events[0]);
      StepKeepsSnapshot(s, events[0]);
      RunKeepsSnapshot(Next(s, events[0]), events[1..]);
    }
  }

  /** Its tasks that have not ended. */
  ghost function Outstanding(s: State): set<TaskId>
    requires s.drain.Gathering?
  {
    set t | t in s.drain.tasks && !IsDone(s, t)
  }

  /** An open admission can be closed. */
  lemma AdmissionCloses(s: State, t: TaskId) returns (n: State)
    requires Inv(s) && t in s.tasks
    ensures Inv(n) && CanReach(s, n) && n.drain == s.drain && n.tasks.Keys == s.tasks.Keys
    ensures !n.tasks[t].control.holder.Admission?
    ensures forall u :: u in s.tasks ==> n.tasks[u].done == s.tasks[u].done
  {
    hide Inv, CanReach;
    n := s;
    ReachHere(s);
    if s.tasks[t].control.holder.Admission? {
      n := Next(s, ExitAdmission(t));
      StepKeepsInv(s, ExitAdmission(t));
      ReachHere(n);
      ReachByStep(s, ExitAdmission(t), n);
    }
  }

  /** A task that the drain waits for can end. */
  lemma TaskEnds(s: State, t: TaskId) returns (n: State)
    requires Inv(s) && s.drain.Gathering? && SnapshotKnown(s) && t in Outstanding(s)
    ensures Inv(n) && CanReach(s, n) && n.drain == s.drain && SnapshotKnown(n)
    ensures Outstanding(n) == Outstanding(s) - {t}
  {
    var m := AdmissionCloses(s, t);
    hide Inv, CanReach;
    var op := UnusedNumber(m);
    var e := Complete(t, op);
    assert Enabled(m, e) by { hide Unused; }
    n := Next(m, e);
    StepKeepsInv(m, e);
    ReachHere(n);
    ReachByStep(m, e, n);
    ReachThrough(s, m, n);
    assert Outstanding(n) == Outstanding(s) - {t} by { hide Enabled; }
  }

  lemma {:induction false} AllEnd(s: State) returns (n: State)
    requires Inv(s) && s.drain.Gathering? && SnapshotKnown(s)
    ensures Inv(n) && CanReach(s, n) && n.drain == s.drain && Outstanding(n) == {}
    decreases |Outstanding(s)|
  {
    hide Inv, CanReach, SnapshotKnown;
    if Outstanding(s) == {} {
      n := s;
      ReachHere(s);
    } else {
      var t :| t in Outstanding(s);
      var m := TaskEnds(s, t);
      n := AllEnd(m);
      ReachThrough(s, m, n);
    }
  }

  /** The lock gets free, and the drain takes it. */
  lemma DrainBegins(s: State) returns (n: State)
    requires Inv(s) && s.drain == WaitingForLock
    ensures Inv(n) && CanReach(s, n) && n.drain.Gathering? && SnapshotKnown(n)
  {
    hide Inv, CanReach;
    var m := LockGetsFree(s);
    assert SnapshotKnown(m);
    n := Next(m, BeginDrain);
    StepKeepsInv(m, BeginDrain);
    StepKeepsSnapshot(m, BeginDrain);
    ReachHere(n);
    ReachByStep(m, BeginDrain, n);
    ReachThrough(s, m, n);
  }

  lemma DrainGathers(s: State) returns (n: State)
    requires Inv(s) && s.drain.Gathering? && SnapshotKnown(s)
    ensures Inv(n) && CanReach(s, n) && n.drain == Clearing
  {
    hide Inv, CanReach;
    var m := AllEnd(s);
    assert forall t :: t in m.drain.tasks && !IsDone(m, t) ==> t in Outstanding(m);
    n := Next(m, Gathered);
    StepKeepsInv(m, Gathered);
    ReachHere(n);
    ReachByStep(m, Gathered, n);
    ReachThrough(s, m, n);
  }

  lemma DrainClears(s: State) returns (n: State)
    requires Inv(s) && s.drain == Clearing
    ensures CanReach(s, n) && n.drain == Finished
  {
    hide Inv, CanReach;
    var m := LockGetsFree(s);
    n := Next(m, Clear);
    ReachHere(n);
    ReachByStep(m, Clear, n);
    ReachThrough(s, m, n);
  }

  lemma DrainFinishes(s: State) returns (n: State)
    requires Inv(s) && SnapshotKnown(s) && !s.drain.NotStarted?
    ensures CanReach(s, n) && n.drain == Finished
  {
    hide Inv, CanReach, SnapshotKnown;
    ReachHere(s);
    var m := s;
    if m.drain == WaitingForLock { m := DrainBegins(m); }
    if m.drain.Gathering? {
      var gathered := DrainGathers(m);
      ReachThrough(s, m, gathered);
      m := gathered;
    }
    n := m;
    if m.drain == Clearing {
      n := DrainClears(m);
      ReachThrough(s, m, n);
    }
  }

  /** A shutdown that was begun can finish, from every moment of every run. */
  lemma ShutdownCanFinish(durable: map<Intent, nat>, events: seq<Event>)
    requires Possible(Fresh(durable), events) && !Run(Fresh(durable), events).drain.NotStarted?
    ensures exists n :: CanReach(Run(Fresh(durable), events), n) && n.drain == Finished
  {
    hide Inv, CanReach, Run, Possible;
    FreshInv(durable);
    ReachableInv(durable, events);
    RunKeepsSnapshot(Fresh(durable), events);
    var n := DrainFinishes(Run(Fresh(durable), events));
  }
}
