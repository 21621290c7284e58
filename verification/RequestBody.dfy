/** Request bodies: leasing one of a bounded number of slots, spooling within the byte budget, and
    replaying to the application. */
module RequestBody {
  import opened Common

  type Bytes = seq<bv8>

  // ---------- leases over all interleavings ----------

  type Id = nat

  /** What a request is suspended in, and what it holds there: a lease, an open spool file. */
  datatype Phase =
    | Probing                               // gives receive one turn
    | Admitting                             // spools its body, leased
    | Refusing(leased: bool, open: bool)    // sends 429, 408 or 413
    | Serving(leased: bool, open: bool)     // the application runs
    | Settling(leased: bool, open: bool)    // finally: awaits the cancelled first receive
    | Closing(leased: bool)                 // finally: awaits the closing of the file
    | Ended(leased: bool, open: bool)       // gone; what it still holds is lost

  datatype Leases = Leases(phases: map<Id, Phase>, inflight: int)

  /** What the first receive has reported by the time the probe looks. */
  datatype Probe = Disconnected | EmptyBody | MaybeBody

  /** An error, a cancellation, or what neither `except Exception` nor a cancellation handler stops. */
  datatype Exception = Failure | Cancellation | Fatal

  datatype Event =
    | Arrive(id: Id)
    | Look(id: Id, seen: Probe, fileMade: bool)
    | Admitted(id: Id, outcome: Spooled)
    | Answered(id: Id)                      // the refusal is sent
    | Served(id: Id)
    | Settled(id: Id)
    | FileClosed(id: Id)
    | Raise(id: Id, raised: Exception)      // whatever the request awaits ends in an exception

  predicate Enabled(s: Leases, e: Event) {
    if e.Arrive? then e.id !in s.phases
    else e.id in s.phases && Expects(s.phases[e.id], e)
  }

  predicate Expects(p: Phase, e: Event) {
    match e
    case Arrive(_) => false
    case Look(_, _, _) => p.Probing?
    case Admitted(_, _) => p.Admitting?
    case Answered(_) => p.Refusing?
    case Served(_) => p.Serving?
    case Settled(_) => p.Settling?
    case FileClosed(_) => p.Closing?
    case Raise(_, _) => !p.Ended?
  }

  /** The code between two suspension points. */
  function Step(maximum: nat, s: Leases, e: Event): Leases
    requires Enabled(s, e)
  {
    match e
    case Arrive(id) => At(s, id, Probing)
    case Look(id, seen, fileMade) =>
      if seen.Disconnected? then At(s, id, Settling(false, false))
      else if seen.EmptyBody? then At(s, id, Serving(false, false))
      else if s.inflight >= maximum then At(s, id, Refusing(false, false))
      else At(s.(inflight := s.inflight + 1), id, if fileMade then Admitting else Settling(true, false))
    case Admitted(id, outcome) =>
      match outcome {
        case Complete(_) => At(s, id, Serving(true, true))
        case Gone => At(s, id, Settling(true, true))
        case TooLarge => At(s, id, Refusing(true, true))
        case Expired => At(s, id, Refusing(true, true))
      }
    case Answered(id) => Finally(s, id)
    case Served(id) => Finally(s, id)
    case Settled(id) => AfterFirst(s, id, s.phases[id].leased, s.phases[id].open)
    case FileClosed(id) => Release(s, id, s.phases[id].leased)
    case Raise(id, raised) =>
      match s.phases[id] {
        case Settling(leased, open) =>
          if raised.Fatal? then At(s, id, Ended(leased, open)) else AfterFirst(s, id, leased, open)
        case Closing(leased) => Release(s, id, leased)
        case _ => Finally(s, id)
      }
  }

  function At(s: Leases, id: Id, p: Phase): Leases { s.(phases := s.phases[id := p]) }

  predicate Holds(p: Phase) {
    match p
    case Probing => false
    case Admitting => true
    case _ => p.leased
  }

  predicate HasFile(p: Phase) {
    match p
    case Probing => false
    case Admitting => true
    case Closing(_) => true
    case _ => p.open
  }

  /** The finally block is entered with whatever the request holds. */
  function Finally(s: Leases, id: Id): Leases
    requires id in s.phases
  {
    At(s, id, Settling(Holds(s.phases[id]), HasFile(s.phases[id])))
  }

  function AfterFirst(s: Leases, id: Id, leased: bool, open: bool): Leases {
    if open then At(s, id, Closing(leased)) else Release(s, id, leased)
  }

  function Release(s: Leases, id: Id, leased: bool): Leases {
    Leases(s.phases[id := Ended(false, false)], if leased then s.inflight - 1 else s.inflight)
  }

  function Holders(phases: map<Id, Phase>): set<Id> { set id | id in phases && Holds(phases[id]) }

  ghost predicate Balanced(maximum: nat, s: Leases) { s.inflight == |Holders(s.phases)| && 0 <= s.inflight <= maximum }

  lemma HoldersAt(phases: map<Id, Phase>, id: Id, p: Phase)
    ensures Holders(phases[id := p]) == if Holds(p) then Holders(phases) + {id} else Holders(phases) - {id}
  {
  }

  lemma HoldersOf(phases: map<Id, Phase>, id: Id)
    ensures id in Holders(phases) <==> id in phases && Holds(phases[id])
  {
  }

  /** The counter is the number of leases held, never negative and never above the maximum. */
  lemma NextBalanced(maximum: nat, s: Leases, e: Event)
    requires Balanced(maximum, s) && Enabled(s, e)
    ensures Balanced(maximum, Step(maximum, s, e))
  {
    var n := Step(maximum, s, e);
    StepIsLocal(maximum, s, e);
    HoldersAt(s.phases, e.id, n.phases[e.id]);
    HoldersOf(s.phases, e.id);
    OneMoreOrLess(Holders(s.phases), e.id);
    hide Step, Holders, Enabled, Holds;
  }

  lemma OneMoreOrLess(a: set<Id>, id: Id)
    ensures |a + {id}| == |a| + if id in a then 0 else 1
    ensures |a - {id}| == |a| - if id in a then 1 else 0
  {
    if id in a { assert a + {id} == a; } else { assert a - {id} == a; }
  }

  predicate HoldsIn(s: Leases, id: Id) { id in s.phases && Holds(s.phases[id]) }

  /** One step moves one request, and the counter goes with its lease. */
  lemma StepIsLocal(maximum: nat, s: Leases, e: Event)
    requires Enabled(s, e)
    ensures var n := Step(maximum, s, e);
      && e.id in n.phases && n.phases == s.phases[e.id := n.phases[e.id]]
      && n.inflight == s.inflight + (if HoldsIn(n, e.id) then 1 else 0) - (if HoldsIn(s, e.id) then 1 else 0)
      && (HoldsIn(n, e.id) && !HoldsIn(s, e.id) ==> s.inflight < maximum)
  {
  }

  // ---------- what each step decides ----------

  predicate Full(maximum: nat, s: Leases) { |Holders(s.phases)| >= maximum }

  predicate Looks(e: Event, id: Id, seen: Probe) { e.Look? && e.id == id && e.seen == seen }

  predicate Spools(e: Event, id: Id, outcome: Spooled) { e.Admitted? && e.id == id && e.outcome == outcome }

  predicate InFinally(s: Leases, id: Id) { id in s.phases && (s.phases[id].Settling? || s.phases[id].Closing?) }

  /** A request gets a lease exactly when it may have a body and a slot is free, and only then; it keeps it
      until its finally block has closed its file, or has awaited the first receive if it has none. */
  lemma LeaseExactly(maximum: nat, s: Leases, e: Event, id: Id)
    requires Balanced(maximum, s) && Enabled(s, e)
    ensures HoldsIn(Step(maximum, s, e), id) <==>
      || (Looks(e, id, MaybeBody) && !Full(maximum, s))
      || (HoldsIn(s, id) && !(e.id == id && s.phases[id].Closing?)
          && !(e.id == id && s.phases[id].Settling? && !HasFile(s.phases[id]) && !Strikes(s, e, id)))
  {
    hide Holders;
  }

  /** The application is called exactly for an empty body, without a lease, and for a body spooled whole. */
  lemma ServedExactly(maximum: nat, s: Leases, e: Event, id: Id)
    requires Enabled(s, e)
    ensures var n := Step(maximum, s, e);
      (id in n.phases && n.phases[id].Serving?) <==>
        || Looks(e, id, EmptyBody)
        || (e.Admitted? && e.id == id && e.outcome.Complete?)
        || (id in s.phases && s.phases[id].Serving? && e.id != id)
  {
  }

  /** A refusal is sent exactly when all slots are taken, or the body was too large or too late. */
  lemma RefusedExactly(maximum: nat, s: Leases, e: Event, id: Id)
    requires Balanced(maximum, s) && Enabled(s, e)
    ensures var n := Step(maximum, s, e);
      (id in n.phases && n.phases[id].Refusing?) <==>
        || (Looks(e, id, MaybeBody) && Full(maximum, s))
        || Spools(e, id, TooLarge) || Spools(e, id, Expired)
        || (id in s.phases && s.phases[id].Refusing? && e.id != id)
  {
    hide Holders;
  }

  /** Spooling starts exactly with a lease and a file. */
  lemma SpoolingExactly(maximum: nat, s: Leases, e: Event, id: Id)
    requires Balanced(maximum, s) && Enabled(s, e)
    ensures var n := Step(maximum, s, e);
      (id in n.phases && n.phases[id].Admitting?) <==>
        || (Looks(e, id, MaybeBody) && !Full(maximum, s) && e.fileMade)
        || (id in s.phases && s.phases[id].Admitting? && e.id != id)
  {
    hide Holders;
  }

  /** A file is open from the start of the spooling until the finally block has closed it. */
  lemma FileExactly(maximum: nat, s: Leases, e: Event, id: Id)
    requires Balanced(maximum, s) && Enabled(s, e)
    ensures var n := Step(maximum, s, e);
      (id in n.phases && HasFile(n.phases[id])) <==>
        || (Looks(e, id, MaybeBody) && !Full(maximum, s) && e.fileMade)
        || (id in s.phases && HasFile(s.phases[id]) && !(e.id == id && s.phases[id].Closing?))
  {
    hide Holders;
  }

  /** A request is over exactly after its finally block: after the first await there if it has no file or is
      struck, else after the second one. */
  lemma EndedExactly(maximum: nat, s: Leases, e: Event, id: Id)
    requires Enabled(s, e)
    ensures EndedIn(Step(maximum, s, e), id) <==>
      || EndedIn(s, id)
      || (InFinally(s, id) && e.id == id
          && (s.phases[id].Closing? || !HasFile(s.phases[id]) || e == Raise(id, Fatal)))
  {
  }

  ghost predicate Possible(maximum: nat, s: Leases, events: seq<Event>)
    decreases |events|
  {
    events == [] || (Enabled(s, events[0]) && Possible(maximum, Step(maximum, s, events[0]), events[1..]))
  }

  ghost function After(maximum: nat, s: Leases, events: seq<Event>): Leases
    requires Possible(maximum, s, events)
    decreases |events|
  {
    if events == [] then s else After(maximum, Step(maximum, s, events[0]), events[1..])
  }

  lemma {:induction false} RunBalanced(maximum: nat, s: Leases, events: seq<Event>)
    requires Balanced(maximum, s) && Possible(maximum, s, events)
    ensures Balanced(maximum, After(maximum, s, events))
    decreases |events|
  {
    hide Balanced, Step, Enabled;
    if events != [] {
      NextBalanced(maximum, s, events[0]);
      RunBalanced(maximum, Step(maximum, s, events[0]), events[1..]);
    }
  }

  // ---------- every path of a leased request ----------

  /** How often steps of this request raised the counter. */
  ghost function Taken(maximum: nat, s: Leases, events: seq<Event>, id: Id): nat
    requires Possible(maximum, s, events)
    decreases |events|
  {
    if events == [] then 0
    else
      var n := Step(maximum, s, events[0]);
      (if events[0].id == id && n.inflight > s.inflight then 1 else 0) + Taken(maximum, n, events[1..], id)
  }

  /** How often steps of this request lowered it. */
  ghost function Given(maximum: nat, s: Leases, events: seq<Event>, id: Id): nat
    requires Possible(maximum, s, events)
    decreases |events|
  {
    if events == [] then 0
    else
      var n := Step(maximum, s, events[0]);
      (if events[0].id == id && n.inflight < s.inflight then 1 else 0) + Given(maximum, n, events[1..], id)
  }

  /** Leased and awaiting the first receive, the request is struck by what no handler there stops. */
  predicate Strikes(s: Leases, e: Event, id: Id) {
    e == Raise(id, Fatal) && id in s.phases && s.phases[id].Settling? && s.phases[id].leased
  }

  ghost predicate Struck(maximum: nat, s: Leases, events: seq<Event>, id: Id)
    requires Possible(maximum, s, events)
    decreases |events|
  {
    events != [] && (Strikes(s, events[0], id) || Struck(maximum, Step(maximum, s, events[0]), events[1..], id))
  }

  predicate EndedIn(s: Leases, id: Id) { id in s.phases && s.phases[id].Ended? }

  predicate NotYetIn(s: Leases, id: Id) { id in s.phases ==> s.phases[id].Probing? }

  lemma StepOfOne(maximum: nat, s: Leases, e: Event, id: Id)
    requires Enabled(s, e)
    ensures var n := Step(maximum, s, e);
      && (NotYetIn(n, id) ==> NotYetIn(s, id) && (n.inflight == s.inflight || e.id != id))
      && (!NotYetIn(s, id) ==> !NotYetIn(n, id))
      && (!NotYetIn(s, id) && e.id == id ==> n.inflight <= s.inflight)
      && (EndedIn(s, id) ==> EndedIn(n, id) && n.phases[id] == s.phases[id] && e.id != id && !Strikes(s, e, id))
      && (!EndedIn(s, id) ==> (EndedIn(n, id) && HoldsIn(n, id) <==> Strikes(s, e, id)))
  {
  }

  /** The books of one request over any stretch of a run. */
  lemma {:induction false} Books(maximum: nat, s: Leases, events: seq<Event>, id: Id)
    requires Possible(maximum, s, events)
    ensures
      var n, taken, given := After(maximum, s, events), Taken(maximum, s, events, id), Given(maximum, s, events, id);
      && (if HoldsIn(s, id) then 1 else 0) + taken == given + (if HoldsIn(n, id) then 1 else 0)
      && taken <= (if NotYetIn(s, id) then 1 else 0)
      && (EndedIn(s, id) ==> EndedIn(n, id) && n.phases[id] == s.phases[id] && !Struck(maximum, s, events, id))
      && (!EndedIn(s, id) ==> (EndedIn(n, id) && HoldsIn(n, id) <==> Struck(maximum, s, events, id)))
    decreases |events|
  {
    hide Step, Enabled, NotYetIn, Strikes;
    if events != [] {
      Books(maximum, Step(maximum, s, events[0]), events[1..], id);
      StepOfOne(maximum, s, events[0], id);
      StepIsLocal(maximum, s, events[0]);
    }
  }

  /** A request that has ended has taken at most one lease, and has given it back exactly once, unless
      that one exception struck while it awaited the first receive. */
  lemma ReleasedOnce(maximum: nat, events: seq<Event>, id: Id)
    requires Possible(maximum, Leases(map[], 0), events) && EndedIn(After(maximum, Leases(map[], 0), events), id)
    ensures var s := Leases(map[], 0);
      && Taken(maximum, s, events, id) <= 1
      && (Given(maximum, s, events, id) == Taken(maximum, s, events, id) <==> !Struck(maximum, s, events, id))
  {
    Books(maximum, Leases(map[], 0), events, id);
  }

  /** How many steps a request has before it at most. */
  function Rank(p: Phase): nat {
    match p
    case Probing => 5
    case Admitting => 4
    case Refusing(_, _) => 3
    case Serving(_, _) => 3
    case Settling(_, _) => 2
    case Closing(_) => 1
    case Ended(_, _) => 0
  }

  function Own(events: seq<Event>, id: Id): nat {
    if events == [] then 0 else (if events[0].id == id then 1 else 0) + Own(events[1..], id)
  }

  lemma RankFalls(maximum: nat, s: Leases, e: Event, id: Id)
    requires Enabled(s, e) && id in s.phases
    ensures var n := Step(maximum, s, e);
      id in n.phases && (if e.id == id then Rank(n.phases[id]) < Rank(s.phases[id]) else n.phases[id] == s.phases[id])
  {
  }

  /** Every path ends: a request has at most five steps after it arrived, and until it has ended one
      more is possible. */
  lemma {:induction false} PathsEnd(maximum: nat, s: Leases, events: seq<Event>, id: Id)
    requires Possible(maximum, s, events) && id in s.phases
    ensures var n := After(maximum, s, events);
      && id in n.phases && Own(events, id) + Rank(n.phases[id]) <= Rank(s.phases[id]) <= 5
      && ((exists e: Event :: e.id == id && Enabled(n, e)) <==> !EndedIn(n, id))
    decreases |events|
  {
    if events == [] {
      if !EndedIn(s, id) { assert Enabled(s, Raise(id, Failure)); }
    } else {
      hide Step, Enabled, Rank, EndedIn;
      RankFalls(maximum, s, events[0], id);
      PathsEnd(maximum, Step(maximum, s, events[0]), events[1..], id);
    }
  }

  /** When every request has ended and none was struck, no lease is left. */
  lemma NothingLeaks(maximum: nat, events: seq<Event>)
    requires Possible(maximum, Leases(map[], 0), events)
    requires forall id ::
      id in After(maximum, Leases(map[], 0), events).phases ==> EndedIn(After(maximum, Leases(map[], 0), events), id)
    ensures var s := Leases(map[], 0);
      After(maximum, s, events).inflight == 0 <==> forall id: Id :: !Struck(maximum, s, events, id)
  {
    var s := Leases(map[], 0);
    var n := After(maximum, s, events);
    assert Holders(s.phases) == {};
    RunBalanced(maximum, s, events);
    forall id: Id ensures Struck(maximum, s, events, id) <==> id in Holders(n.phases) {
      Books(maximum, s, events, id);
      HoldersOf(n.phases, id);
    }
    hide Holders, Struck;
    if id :| id in Holders(n.phases) {
      assert Struck(maximum, s, events, id);
    } else {
      assert Holders(n.phases) == {};
    }
  }

  /** Such a run: the application fails, and the finally block is struck at its first await. */
  function StruckRun(id: Id): seq<Event> {
    [Arrive(id), Look(id, MaybeBody, true), Admitted(id, Complete([])), Raise(id, Failure), Raise(id, Fatal)]
  }

  lemma StruckLeaks(maximum: nat, id: Id)
    requires maximum >= 1
    ensures Possible(maximum, Leases(map[], 0), StruckRun(id))
    ensures After(maximum, Leases(map[], 0), StruckRun(id)) == Leases(map[id := Ended(true, true)], 1)
  {
    var e := StruckRun(id);
    var s0 := Leases(map[], 0);
    var s1 := Step(maximum, s0, e[0]);
    var s2 := Step(maximum, s1, e[1]);
    var s3 := Step(maximum, s2, e[2]);
    var s4 := Step(maximum, s3, e[3]);
    var s5 := Step(maximum, s4, e[4]);
    assert s5 == Leases(map[id := Ended(true, true)], 1);
    assert e[1..][1..] == e[2..] && e[2..][1..] == e[3..] && e[3..][1..] == e[4..] && e[4..][1..] == [];
    assert Possible(maximum, s4, e[4..]) && After(maximum, s4, e[4..]) == s5;
    assert Possible(maximum, s3, e[3..]) && After(maximum, s3, e[3..]) == s5;
    assert Possible(maximum, s2, e[2..]) && After(maximum, s2, e[2..]) == s5;
  }

  // ---------- spooling ----------

  datatype Message = Disconnect | Chunk(body: Bytes, more: bool)

  datatype Spooled = Gone | TooLarge | Complete(body: Bytes) | Expired

  /** The bodies of the first n messages, one after the other. */
  function Received(messages: seq<Message>, n: nat): Bytes
    requires n <= |messages|
  {
    if n == 0 then [] else Received(messages, n - 1) + if messages[n - 1].Chunk? then messages[n - 1].body else []
  }

  /** The first n messages are chunks that announce more and stay within the budget. */
  ghost predicate Continuing(messages: seq<Message>, n: nat, maximum: nat)
    requires n <= |messages|
  {
    && (forall i :: 0 <= i < n ==> messages[i].Chunk? && messages[i].more)
    && |Received(messages, n)| <= maximum
  }

  /** The body ends with message n, within the budget. */
  ghost predicate EndsAt(messages: seq<Message>, n: nat, maximum: nat)
    requires n < |messages|
  {
    Continuing(messages, n, maximum) && messages[n].Chunk? && !messages[n].more
    && |Received(messages, n + 1)| <= maximum
  }

  /** Message n is the first to exceed the budget. */
  ghost predicate ExceedsAt(messages: seq<Message>, n: nat, maximum: nat)
    requires n < |messages|
  {
    Continuing(messages, n, maximum) && messages[n].Chunk? && |Received(messages, n + 1)| > maximum
  }

  ghost predicate LeavesAt(messages: seq<Message>, n: nat, maximum: nat)
    requires n < |messages|
  {
    Continuing(messages, n, maximum) && messages[n].Disconnect?
  }

  ghost predicate DecidesAt(messages: seq<Message>, n: nat, maximum: nat)
    requires n < |messages|
  {
    EndsAt(messages, n, maximum) || ExceedsAt(messages, n, maximum) || LeavesAt(messages, n, maximum)
  }

  /** At most one message decides, and in one way. */
  lemma SpoolDecided(messages: seq<Message>, maximum: nat, m: nat, n: nat)
    requires m < |messages| && n < |messages| && DecidesAt(messages, m, maximum) && DecidesAt(messages, n, maximum)
    ensures m == n
    ensures !(EndsAt(messages, n, maximum) && ExceedsAt(messages, n, maximum))
    ensures !(LeavesAt(messages, n, maximum) && (EndsAt(messages, n, maximum) || ExceedsAt(messages, n, maximum)))
  {
    if m < n { DecidesBefore(messages, maximum, m, n); }
    if n < m { DecidesBefore(messages, maximum, n, m); }
  }

  /** Nothing decides before a message up to which the body continues. */
  lemma DecidesBefore(messages: seq<Message>, maximum: nat, m: nat, n: nat)
    requires m < n <= |messages| && Continuing(messages, n, maximum)
    ensures !DecidesAt(messages, m, maximum)
  {
    assert messages[m].Chunk? && messages[m].more;
    ReceivedGrows(messages, m + 1, n);
  }

  lemma {:induction false} ReceivedGrows(messages: seq<Message>, m: nat, n: nat)
    requires m <= n <= |messages|
    ensures |Received(messages, m)| <= |Received(messages, n)|
  {
    if m < n { ReceivedGrows(messages, m, n - 1); }
  }

  /** The admission under its deadline: `inTime` of its awaits end before it. Awaited are each message
      (the first one only if the probe has not seen it), the write of each chunk that fits, and the
      seek at the end, which comes after an excess too. */
  method Spool(messages: seq<Message>, early: bool, inTime: nat, maximum: nat) returns (r: Spooled)
    requires early ==> messages != []
    ensures r.Complete? <==>
      exists n :: 0 <= n < |messages| && EndsAt(messages, n, maximum) && 2 * n + 3 <= Turns(early, inTime)
    ensures r.Complete? ==>
      exists n :: 0 <= n < |messages| && EndsAt(messages, n, maximum) && r.body == Received(messages, n + 1)
    ensures r.TooLarge? <==>
      exists n :: 0 <= n < |messages| && ExceedsAt(messages, n, maximum) && 2 * n + 2 <= Turns(early, inTime)
    ensures r.Gone? <==>
      exists n :: 0 <= n < |messages| && LeavesAt(messages, n, maximum) && 2 * n + 1 <= Turns(early, inTime)
  {
    hide Continuing, EndsAt, ExceedsAt, LeavesAt;
    var body: Bytes := [];
    var size := 0;
    var left := Turns(early, inTime);
    var n := 0;
    ContinuingStart(messages, maximum);
    while n < |messages| && left > 0
      invariant n <= |messages| && left + 2 * n == Turns(early, inTime)
      invariant Continuing(messages, n, maximum)
      invariant body == Received(messages, n) && size == |body|
      decreases |messages| - n
    {
      left := left - 1;
      var message := messages[n];
      ContinuingStep(messages, n, maximum);
      if message.Disconnect? {
        Decided(messages, n, maximum);
        return Gone;
      }
      size := size + |message.body|;
      if size > maximum {
        Decided(messages, n, maximum);
        return if left > 0 then TooLarge else Expired;
      }
      if left == 0 {
        NotBefore(messages, n, maximum);
        return Expired;
      }
      left := left - 1;
      body := body + message.body;
      if !message.more {
        Decided(messages, n, maximum);
        return if left > 0 then Complete(body) else Expired;
      }
      n := n + 1;
    }
    NotBefore(messages, n, maximum);
    return Expired;
  }

  /** The awaits that end in time, counting a first message that is already there. */
  function Turns(early: bool, inTime: nat): nat { inTime + if early then 1 else 0 }

  lemma ContinuingStart(messages: seq<Message>, maximum: nat)
    ensures Continuing(messages, 0, maximum)
  {
  }

  lemma ContinuingStep(messages: seq<Message>, n: nat, maximum: nat)
    requires n < |messages| && Continuing(messages, n, maximum)
    ensures LeavesAt(messages, n, maximum) <==> messages[n].Disconnect?
    ensures
      ExceedsAt(messages, n, maximum) <==> messages[n].Chunk? && |Received(messages, n) + messages[n].body| > maximum
    ensures EndsAt(messages, n, maximum) <==>
      messages[n].Chunk? && !messages[n].more && |Received(messages, n) + messages[n].body| <= maximum
    ensures messages[n].Chunk? ==> Received(messages, n + 1) == Received(messages, n) + messages[n].body
    ensures messages[n].Chunk? && messages[n].more && |Received(messages, n) + messages[n].body| <= maximum ==>
      Continuing(messages, n + 1, maximum)
  {
  }

  lemma Decided(messages: seq<Message>, n: nat, maximum: nat)
    requires n < |messages| && DecidesAt(messages, n, maximum)
    ensures forall m :: 0 <= m < |messages| && EndsAt(messages, m, maximum) ==> m == n
    ensures forall m :: 0 <= m < |messages| && ExceedsAt(messages, m, maximum) ==> m == n
    ensures forall m :: 0 <= m < |messages| && LeavesAt(messages, m, maximum) ==> m == n
    ensures !(EndsAt(messages, n, maximum) && ExceedsAt(messages, n, maximum))
    ensures !(LeavesAt(messages, n, maximum) && (EndsAt(messages, n, maximum) || ExceedsAt(messages, n, maximum)))
  {
    hide EndsAt, ExceedsAt, LeavesAt;
    forall m | 0 <= m < |messages| && m != n
      ensures !EndsAt(messages, m, maximum) && !ExceedsAt(messages, m, maximum) && !LeavesAt(messages, m, maximum)
    {
      if DecidesAt(messages, m, maximum) { SpoolDecided(messages, maximum, m, n); }
    }
    SpoolDecided(messages, maximum, n, n);
  }

  lemma NotBefore(messages: seq<Message>, n: nat, maximum: nat)
    requires n <= |messages| && Continuing(messages, n, maximum)
    ensures forall m :: 0 <= m < |messages| && EndsAt(messages, m, maximum) ==> m >= n
    ensures forall m :: 0 <= m < |messages| && ExceedsAt(messages, m, maximum) ==> m >= n
    ensures forall m :: 0 <= m < |messages| && LeavesAt(messages, m, maximum) ==> m >= n
  {
    hide Continuing, EndsAt, ExceedsAt, LeavesAt;
    forall m | 0 <= m < n
      ensures !EndsAt(messages, m, maximum) && !ExceedsAt(messages, m, maximum) && !LeavesAt(messages, m, maximum)
    {
      DecidesBefore(messages, maximum, m, n);
    }
  }

  // ---------- replay ----------

  const CHUNK: nat := 64 * 1024

  datatype Replayed = Replayed(body: Bytes, more: bool)

  /** The messages that replaying a body delivers. */
  function Messages(body: Bytes): (messages: seq<Replayed>)
    ensures messages != []
    decreases |body|
  {
    if |body| <= CHUNK then [Replayed(body, false)] else [Replayed(body[..CHUNK], true)] + Messages(body[CHUNK..])
  }

  function Joined(messages: seq<Replayed>): Bytes {
    if messages == [] then [] else messages[0].body + Joined(messages[1..])
  }

  /** The application sees exactly the bytes received, in chunks of bounded size, and `more` is false on
      the last message and on no other. */
  lemma {:induction false} ReplayIsExact(body: Bytes)
    ensures Joined(Messages(body)) == body
    ensures forall i :: 0 <= i < |Messages(body)| ==>
      |Messages(body)[i].body| <= CHUNK && (Messages(body)[i].more <==> i < |Messages(body)| - 1)
    decreases |body|
  {
    var messages := Messages(body);
    if |body| > CHUNK {
      ReplayIsExact(body[CHUNK..]);
      assert messages[1..] == Messages(body[CHUNK..]);
      assert body[..CHUNK] + body[CHUNK..] == body;
    } else {
      assert messages[1..] == [];
    }
  }

  /** The closure handed to the application: a file position, a countdown, and a completion flag. */
  class Replay {
    const body: Bytes
    var position: nat
    var remaining: int
    var completed: bool

    constructor (spooled: Bytes)
      ensures body == spooled && Valid() && Pending() == Messages(spooled)
    {
      body, position, remaining, completed := spooled, 0, |spooled|, false;
      new;
      assert body[0..] == spooled;
    }

    ghost predicate Valid()
      reads this
    {
      position <= |body| && remaining == |body| - position && (completed ==> remaining == 0)
    }

    /** What is still to be delivered. */
    ghost function Pending(): seq<Replayed>
      requires Valid()
      reads this
    {
      if completed then [] else Messages(body[position..])
    }

    /** One call of replay, before completion. */
    method Next() returns (message: Replayed)
      requires Valid() && !completed
      modifies this
      ensures Valid()
      ensures old(Pending()) == [message] + Pending()
      ensures completed <==> !message.more
    {
      var end := if |body| - position <= CHUNK then |body| else position + CHUNK;
      var chunk := body[position..end];
      assert body[position..][..end - position] == chunk && body[position..][end - position..] == body[end..];
      if end == |body| { assert body[position..] == chunk; }
      position := end;
      remaining := remaining - |chunk|;
      completed := remaining == 0;
      message := Replayed(chunk, remaining > 0);
    }
  }

  /** The counter as the middleware keeps it, and the code that touches it. */
  class RequestSecurityMiddleware {
    const maximum: nat
    var inflight: int
    ghost var phases: map<Id, Phase>

    constructor (maximum: nat)
      ensures this.maximum == maximum && State() == Leases(map[], 0)
    {
      this.maximum := maximum;
      inflight := 0;
      phases := map[];
    }

    ghost function State(): Leases
      reads this
    {
      Leases(phases, inflight)
    }

    /** From the probe to the first await of the admission, of the refusal, of the application or of
        the finally block; `leased` is the request's own flag. */
    method Look(id: Id, seen: Probe, fileMade: bool) returns (leased: bool, refused: bool)
      requires Enabled(State(), Event.Look(id, seen, fileMade))
      modifies this
      ensures State() == Step(maximum, old(State()), Event.Look(id, seen, fileMade))
      ensures leased <==> Holds(phases[id])
      ensures refused <==> phases[id].Refusing?
    {
      leased, refused := false, false;
      if seen.Disconnected? {
        phases := phases[id := Settling(false, false)];
        return;
      }
      if seen.EmptyBody? {
        phases := phases[id := Serving(false, false)];
        return;
      }
      if inflight >= maximum {
        refused := true;
        phases := phases[id := Refusing(false, false)];
        return;
      }
      inflight := inflight + 1;
      leased := true;
      phases := phases[id := if fileMade then Admitting else Settling(true, false)];
    }

    /** The outer finally after its first await, which suppresses errors and cancellations. */
    method AfterAwaitingFirst(id: Id, leased: bool, open: bool, raised: Option<Exception>)
      requires id in phases && phases[id] == Settling(leased, open)
      modifies this
      ensures State() == Step(maximum, old(State()), if raised.None? then Settled(id) else Raise(id, raised.value))
    {
      if raised == Some(Fatal) {
        phases := phases[id := Ended(leased, open)];
        return;
      }
      if open {
        phases := phases[id := Closing(leased)];
        return;
      }
      if leased {
        inflight := inflight - 1;
      }
      phases := phases[id := Ended(false, false)];
    }

    /** The inner finally, however the closing of the file ended. */
    method AfterClosing(id: Id, leased: bool, raised: Option<Exception>)
      requires id in phases && phases[id] == Closing(leased)
      modifies this
      ensures State() == Step(maximum, old(State()), if raised.None? then FileClosed(id) else Raise(id, raised.value))
    {
      if leased {
        inflight := inflight - 1;
      }
      phases := phases[id := Ended(false, false)];
    }
  }
}
