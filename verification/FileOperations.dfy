/** An operation that a worker thread carries out for a coroutine, which joins the worker through any
    number of cancellations before it lets one go on. */
module FileOperations {
  import opened Common

  /** The worker's future. A fault is an exception outside the ordinary errors; a future is withdrawn that
      never got its thread, or whose operation itself raises CancelledError. */
  datatype Worker<+V, +E> = Running | Value(v: V) | Error(e: E) | Fault | Withdrawn

  /** How the call ends: with the worker's outcome, with CancelledError, or closed from outside by an
      exception that no handler stops. */
  datatype Exit<+V, +E> = Returned(v: V) | Raised(e: E) | Faulted | Cancelled | Closed

  /** Awaiting the shielded worker; joining it after a cancellation; gone. */
  datatype Point<+V, +E> = Awaiting | Joining | Left(exit: Exit<V, E>)

  datatype State<+V, +E> = State(worker: Worker<V, E>, point: Point<V, E>, requested: bool)

  datatype Event<+V, +E> =
    | End(outcome: Worker<V, E>)  // the worker thread ends, or its future is withdrawn
    | Cancel                      // somebody cancels the calling task
    | Resume                      // the loop runs the coroutine on
    | Throw                       // an exception that no handler stops strikes the await

  predicate Enabled<V, E>(s: State<V, E>, e: Event<V, E>) {
    match e
    case End(outcome) => s.worker.Running? && !outcome.Running?
    case Cancel => !s.point.Left?
    case Resume => !s.point.Left? && (s.requested || !s.worker.Running?)
    case Throw => !s.point.Left?
  }

  function Next<V, E>(s: State<V, E>, e: Event<V, E>): State<V, E>
    requires Enabled(s, e)
  {
    match e
    case End(outcome) => s.(worker := outcome)
    case Cancel => s.(requested := true)
    case Resume =>
      // a cancellation goes first; a withdrawn future looks like one
      if s.point.Awaiting? then
        if s.requested || s.worker.Withdrawn? then Join(s.(requested := false))
        else s.(point := Left(ExitOf(s.worker)))
      else if !s.requested && s.worker.Fault? then s.(point := Left(Faulted))
      else Join(s.(requested := false))
    case Throw => s.(point := Left(Closed))
  }

  /** The loop's condition, and what comes after the loop. */
  function Join<V, E>(s: State<V, E>): State<V, E> {
    s.(point := if s.worker.Running? then Joining else Left(Cancelled))
  }

  function ExitOf<V, E>(worker: Worker<V, E>): Exit<V, E>
    requires !worker.Running?
  {
    match worker
    case Value(v) => Returned(v)
    case Error(e) => Raised(e)
    case Fault => Faulted
    case Withdrawn => Cancelled
  }

  function Begun<V, E>(): State<V, E> { State(Running, Awaiting, false) }

  ghost predicate Possible<V, E>(s: State<V, E>, events: seq<Event<V, E>>)
    decreases |events|
  {
    events == [] || (Enabled(s, events[0]) && Possible(Next(s, events[0]), events[1..]))
  }

  ghost function Run<V, E>(s: State<V, E>, events: seq<Event<V, E>>): State<V, E>
    requires Possible(s, events)
    decreases |events|
  {
    if events == [] then s else Run(Next(s, events[0]), events[1..])
  }

  /** What has happened so far decides where the call stands: a cancellation never makes it leave before
      the worker has ended and is never lost, and without one the worker's outcome never is. */
  ghost predicate Decided<V, E>(s: State<V, E>, cancelled: bool, thrown: bool) {
    match s.point
    case Awaiting => cancelled == s.requested && !thrown
    case Joining => cancelled && !thrown
    case Left(exit) =>
      if thrown then exit.Closed?
      else
        && !s.worker.Running?
        && (!cancelled ==> exit == ExitOf(s.worker))
        && (cancelled ==> exit.Cancelled? || (exit.Faulted? && s.worker.Fault?))
  }

  lemma StepDecided<V, E>(s: State<V, E>, e: Event<V, E>, cancelled: bool, thrown: bool)
    requires Decided(s, cancelled, thrown) && Enabled(s, e)
    ensures Decided(Next(s, e), cancelled || e.Cancel?, thrown || e.Throw?)
  {
  }

  lemma {:induction false} RunDecided<V, E>(s: State<V, E>, events: seq<Event<V, E>>, cancelled: bool, thrown: bool)
    requires Decided(s, cancelled, thrown) && Possible(s, events)
    ensures Decided(Run(s, events), cancelled || Cancel in events, thrown || Throw in events)
    decreases |events|
  {
    hide Decided, Next, Enabled;
    if events != [] {
      var e, rest := events[0], events[1..];
      StepDecided(s, e, cancelled, thrown);
      RunDecided(Next(s, e), rest, cancelled || e.Cancel?, thrown || e.Throw?);
      assert events == [e] + rest;
    }
  }

  /** Over every run of a call: however often it is cancelled, it does not leave before its worker has
      ended, unless an exception strikes that no handler stops, and then it leaves at once. */
  lemma JoinsWorker<V, E>(events: seq<Event<V, E>>)
    requires Possible(Begun(), events) && Run(Begun(), events).point.Left?
    ensures Run(Begun(), events).worker.Running? ==> Throw in events
    ensures Throw in events <==> Run(Begun(), events).point.exit.Closed?
  {
    RunDecided(Begun(), events, false, false);
  }

  /** Such a run: the worker goes on and nobody waits for it. */
  lemma StruckLeavesEarly<V, E>()
    ensures Possible<V, E>(Begun(), [Cancel, Resume, Cancel, Throw])
    ensures Run<V, E>(Begun(), [Cancel, Resume, Cancel, Throw]) == State(Running, Left(Closed), true)
  {
    var e: seq<Event<V, E>> := [Cancel, Resume, Cancel, Throw];
    var s1 := Next(Begun(), e[0]);
    var s2 := Next(s1, e[1]);
    var s3 := Next(s2, e[2]);
    var s4 := Next(s3, e[3]);
    assert e[1..][1..] == e[2..] && e[2..][1..] == e[3..] && e[3..][1..] == [];
    assert Possible(s3, e[3..]) && Run(s3, e[3..]) == s4;
    assert Possible(s2, e[2..]) && Run(s2, e[2..]) == s4;
    assert Possible(s1, e[1..]) && Run(s1, e[1..]) == s4;
  }

  /** The worker's result or error is dropped only for a cancellation, and a cancellation only for a fault
      of the worker. */
  lemma DropsNothing<V, E>(events: seq<Event<V, E>>)
    requires Possible(Begun(), events) && Run(Begun(), events).point.Left? && Throw !in events
    ensures var s := Run(Begun(), events);
      && !s.worker.Running?
      && (Cancel !in events ==> s.point.exit == ExitOf(s.worker))
      && (Cancel in events ==> s.point.exit.Cancelled? || (s.point.exit.Faulted? && s.worker.Fault?))
  {
    RunDecided(Begun(), events, false, false);
  }

  /** The code after the call runs exactly when the worker succeeded and nobody cancelled the caller. */
  lemma GoesOnExactly<V, E>(events: seq<Event<V, E>>)
    requires Possible(Begun(), events) && Run(Begun(), events).point.Left? && Throw !in events
    ensures var s := Run(Begun(), events);
      && (s.point.exit.Returned? <==> s.worker.Value? && Cancel !in events)
      && (s.point.exit.Returned? ==> s.point.exit.v == s.worker.v)
  {
    DropsNothing(events);
  }

  /** Once the worker has ended the caller can be run on, and then leaves. */
  lemma LeavesAtOnce<V, E>(s: State<V, E>)
    requires !s.point.Left? && !s.worker.Running?
    ensures Enabled(s, Resume) && Next(s, Resume).point.Left?
  {
  }

  /** A call that has left stays as it is. */
  lemma {:induction false} LeftStays<V, E>(s: State<V, E>, events: seq<Event<V, E>>)
    requires s.point.Left? && Possible(s, events)
    ensures Run(s, events).point == s.point
    decreases |events|
  {
    if events != [] { LeftStays(Next(s, events[0]), events[1..]); }
  }

  // ---------- the function itself ----------

  /** How an await ends. */
  datatype Wake = Suspended | Struck | Woken(cancelled: bool)

  /** `await asyncio.shield(worker)`: what happens until the loop runs the coroutine on. */
  method Await<V, E>(worker: Worker<V, E>, events: seq<Event<V, E>>, ghost point: Point<V, E>)
    returns (wake: Wake, now: Worker<V, E>, rest: seq<Event<V, E>>, ghost before: State<V, E>)
    requires !point.Left? && Possible(State(worker, point, false), events)
    ensures var last := Run(State(worker, point, false), events);
      match wake
      case Suspended => last.point == point
      case Struck => last.point == Left(Closed)
      case Woken(cancelled) =>
        && |rest| < |events| && before.worker == now && before.point == point && Enabled(before, Resume)
        && cancelled == (before.requested || now.Withdrawn?)
        && Possible(Next(before, Resume), rest) && Run(Next(before, Resume), rest) == last
  {
    now, rest := worker, events;
    var requested := false;
    before := State(now, point, requested);
    while rest != []
      invariant before == State(now, point, requested)
      invariant |rest| <= |events|
      invariant Possible(before, rest) && Run(before, rest) == Run(State(worker, point, false), events)
      decreases |rest|
    {
      var e := rest[0];
      match e {
        case End(outcome) => now := outcome;
        case Cancel => requested := true;
        case Resume =>
          wake, rest := Woken(requested || now.Withdrawn?), rest[1..];
          return;
        case Throw =>
          LeftStays(Next(before, Throw), rest[1..]);
          wake := Struck;
          return;
      }
      rest := rest[1..];
      before := State(now, point, requested);
    }
    wake := Suspended;
  }

  /** file_operation over what happens to it: how the call has ended, if it has. */
  method FileOperation<V, E>(events: seq<Event<V, E>>) returns (exit: Option<Exit<V, E>>)
    requires Possible(Begun(), events)
    ensures exit == match Run(Begun(), events).point case Left(x) => Some(x) case _ => None
  {
    ghost var last := Run(Begun(), events);
    var wake, worker, rest, before := Await(Running, events, Awaiting);
    if wake.Suspended? {
      return None;
    }
    if wake.Struck? {
      return Some(Closed);
    }
    if !wake.cancelled {
      LeftStays(Next(before, Resume), rest);
      return Some(ExitOf(worker));
    }
    ghost var s := Next(before, Resume);
    while worker.Running?
      invariant Possible(s, rest) && Run(s, rest) == last
      invariant s.worker == worker && !s.requested
      invariant s.point == if worker.Running? then Joining else Left(Cancelled)
      decreases |rest|
    {
      wake, worker, rest, before := Await(worker, rest, Joining);
      if wake.Suspended? {
        return None;
      }
      if wake.Struck? {
        return Some(Closed);
      }
      s := Next(before, Resume);
      if wake.cancelled {
        continue;
      }
      if worker.Error? {
        break;
      }
      if worker.Fault? {
        LeftStays(s, rest);
        return Some(Faulted);
      }
    }
    LeftStays(s, rest);
    return Some(Cancelled);
  }
}
