/** Bounded first-in first-out admission of snapshot reads.

    Gate is what the protocol is for: who holds a slot, who was handed one and has not run again
    yet, and who waits in which order. ReadCapacity is how it is done: one counter, one deque of
    futures and a release that hands the slot on. A step is the code a request runs between two
    suspensions; a suspended request can be resumed, cancelled or timed out at any moment. */
module ReadCapacity {

  type Id = nat

  datatype Phase = Holding | Queued | Granted | Left

  /** The phase of every request that ever arrived, and the queue. `enqueued`, `grants` and
      `withdrawn` record what has happened: every request that ever queued, the grants in order,
      and those that gave up while still queued. */
  datatype Gate = Gate(
    limit: nat, maxWaiters: nat, phase: map<Id, Phase>, queue: seq<Id>,
    enqueued: seq<Id>, grants: seq<Id>, withdrawn: set<Id>)

  datatype Event =
    | Arrive(id: Id)
    | Resume(id: Id, late: bool)  // a granted request runs again, perhaps after its deadline
    | Interrupt(id: Id)           // cancelled or timed out while suspended
    | Finish(id: Id)              // the protected block ends

  /** A slot belongs to a request from its admission or grant until it leaves. */
  predicate Occupies(phase: map<Id, Phase>, id: Id) { id in phase && (phase[id] == Holding || phase[id] == Granted) }

  function Occupants(phase: map<Id, Phase>): set<Id> { set id | id in phase && Occupies(phase, id) }

  function Occupied(g: Gate): nat { |Occupants(g.phase)| }

  predicate Is(g: Gate, id: Id, phase: Phase) { id in g.phase && g.phase[id] == phase }

  predicate Enabled(g: Gate, e: Event) {
    match e
    case Arrive(id) => id !in g.phase
    case Resume(id, _) => Is(g, id, Granted)
    case Interrupt(id) => Is(g, id, Queued) || Is(g, id, Granted)
    case Finish(id) => Is(g, id, Holding)
  }

  /** A slot has come free: the oldest waiter gets it. */
  function PassOn(g: Gate): Gate {
    if g.queue == [] then g
    else g.(phase := g.phase[g.queue[0] := Granted], queue := g.queue[1..], grants := g.grants + [g.queue[0]])
  }

  function Next(g: Gate, e: Event): Gate
    requires Enabled(g, e)
  {
    match e
    case Arrive(id) =>
      if Occupied(g) < g.limit && g.queue == [] then g.(phase := g.phase[id := Holding])
      else if |g.queue| >= g.maxWaiters then g.(phase := g.phase[id := Left])
      else g.(phase := g.phase[id := Queued], queue := g.queue + [id], enqueued := g.enqueued + [id])
    case Resume(id, late) =>
      if late then Vacate(g, id) else g.(phase := g.phase[id := Holding])
    case Interrupt(id) =>
      if g.phase[id] == Granted then Vacate(g, id)
      else g.(phase := g.phase[id := Left], queue := Without(g.queue, id), withdrawn := g.withdrawn + {id})
    case Finish(id) => Vacate(g, id)
  }

  function Vacate(g: Gate, id: Id): Gate { PassOn(g.(phase := g.phase[id := Left])) }

  function Without(q: seq<Id>, id: Id): (r: seq<Id>)
    ensures id !in q ==> r == q
  {
    if q == [] then [] else if q[0] == id then q[1..] else [q[0]] + Without(q[1..], id)
  }

  function Kept(q: seq<Id>, gone: set<Id>): seq<Id> {
    if q == [] then [] else (if q[0] in gone then [] else [q[0]]) + Kept(q[1..], gone)
  }

  // ---------- the invariant ----------

  ghost predicate NoRepeats(q: seq<Id>) { forall i, j :: 0 <= i < j < |q| ==> q[i] != q[j] }

  ghost predicate QueueIsQueued(g: Gate) {
    && NoRepeats(g.queue)
    && (forall id :: id in g.queue ==> Is(g, id, Queued))
    && (forall id :: Is(g, id, Queued) ==> id in g.queue)
  }

  ghost predicate Bounded(g: Gate) {
    && 1 <= g.limit
    && Occupied(g) <= g.limit
    && |g.queue| <= g.maxWaiters
    && (g.queue != [] ==> Occupied(g) == g.limit)
  }

  /** Leaving out those that gave up, the requests in the order they queued are the granted ones,
      in the order of their grants, followed by the ones still waiting. */
  ghost predicate FirstInFirstOut(g: Gate) {
    && Kept(g.enqueued, g.withdrawn) == g.grants + g.queue
    && NoRepeats(g.enqueued)
    && (forall id :: id in g.enqueued ==> id in g.phase)
    && (forall id :: id in g.withdrawn ==> Is(g, id, Left))
  }

  ghost predicate Inv(g: Gate) { QueueIsQueued(g) && Bounded(g) && FirstInFirstOut(g) }

  function Start(limit: nat, maxWaiters: nat): Gate { Gate(limit, maxWaiters, map[], [], [], [], {}) }

  lemma StartInv(limit: nat, maxWaiters: nat)
    requires limit >= 1 && maxWaiters >= 1
    ensures Inv(Start(limit, maxWaiters)) && Occupied(Start(limit, maxWaiters)) == 0
  {
    assert Occupants(map[]) == {};
  }

  /** Changing one request's phase changes the number of slots in use by at most that one slot. */
  lemma PhaseChange(phase: map<Id, Phase>, id: Id, to: Phase)
    ensures |Occupants(phase[id := to])|
      == |Occupants(phase)| - (if Occupies(phase, id) then 1 else 0) + (if to == Holding || to == Granted then 1 else 0)
  {
    var after := phase[id := to];
    assert Occupants(after) - {id} == Occupants(phase) - {id};
    if Occupies(phase, id) { assert |Occupants(phase) - {id}| == |Occupants(phase)| - 1; }
    if Occupies(after, id) { assert |Occupants(after) - {id}| == |Occupants(after)| - 1; }
    if !Occupies(phase, id) { assert Occupants(phase) - {id} == Occupants(phase); }
    if !Occupies(after, id) { assert Occupants(after) - {id} == Occupants(after); }
  }

  lemma {:induction false} WithoutMembers(q: seq<Id>, id: Id)
    requires NoRepeats(q) && id in q
    ensures forall x :: x in Without(q, id) <==> x in q && x != id
    ensures NoRepeats(Without(q, id)) && |Without(q, id)| == |q| - 1
  {
    assert q == [q[0]] + q[1..];
    if q[0] == id {
      assert forall i :: 0 <= i < |q[1..]| ==> q[1..][i] == q[i + 1];
    } else {
      assert NoRepeats(q[1..]);
      WithoutMembers(q[1..], id);
      var r := Without(q[1..], id);
      forall j | 0 <= j < |r| ensures r[j] != q[0] {
        assert r[j] in r;
        var k :| 0 <= k < |q[1..]| && q[1..][k] == r[j];
      }
    }
  }

  lemma {:induction false} KeptSnoc(q: seq<Id>, id: Id, gone: set<Id>)
    requires id !in gone
    ensures Kept(q + [id], gone) == Kept(q, gone) + [id]
  {
    if q == [] {
      assert q + [id] == [id];
    } else {
      assert (q + [id])[0] == q[0] && (q + [id])[1..] == q[1..] + [id];
      KeptSnoc(q[1..], id, gone);
    }
  }

  lemma {:induction false} KeptMembers(q: seq<Id>, gone: set<Id>)
    ensures forall x :: x in Kept(q, gone) <==> x in q && x !in gone
    ensures NoRepeats(q) ==> NoRepeats(Kept(q, gone))
  {
    if q != [] {
      KeptMembers(q[1..], gone);
      assert q == [q[0]] + q[1..];
      if NoRepeats(q) {
        assert NoRepeats(q[1..]);
        var r := Kept(q[1..], gone);
        forall j | 0 <= j < |r| ensures r[j] != q[0] {
          assert r[j] in r;
          var k :| 0 <= k < |q[1..]| && q[1..][k] == r[j];
        }
      }
    }
  }

  lemma {:induction false} KeptWithdraw(q: seq<Id>, id: Id, gone: set<Id>)
    requires NoRepeats(q)
    ensures Kept(q, gone + {id}) == Without(Kept(q, gone), id)
  {
    if q != [] {
      var x, rest := q[0], q[1..];
      var more := gone + {id};
      assert NoRepeats(rest) && x !in rest;
      KeptWithdraw(rest, id, gone);
      var k := Kept(rest, gone);
      assert Kept(rest, more) == Without(k, id);
      if x in gone {
        assert Kept(q, gone) == k && Kept(q, more) == Kept(rest, more);
      } else {
        assert Kept(q, gone) == [x] + k;
        WithoutCons(x, k, id);
        if x == id {
          KeptMembers(rest, gone);
          assert Kept(q, more) == Kept(rest, more);
        } else {
          assert Kept(q, more) == [x] + Kept(rest, more);
        }
      }
    }
  }

  lemma WithoutCons(x: Id, q: seq<Id>, id: Id)
    ensures Without([x] + q, id) == if x == id then q else [x] + Without(q, id)
  {
  }

  lemma {:induction false} WithoutAppend(a: seq<Id>, b: seq<Id>, id: Id)
    requires id !in a
    ensures Without(a + b, id) == a + Without(b, id)
  {
    if a == [] {
      assert a + b == b;
    } else {
      assert (a + b)[0] == a[0] && (a + b)[1..] == a[1..] + b;
      WithoutAppend(a[1..], b, id);
    }
  }

  /** Handing a free slot on restores the invariant. */
  lemma PassOnKeeps(g: Gate)
    requires QueueIsQueued(g) && FirstInFirstOut(g)
    requires 1 <= g.limit && Occupied(g) < g.limit && |g.queue| <= g.maxWaiters
    requires g.queue != [] ==> Occupied(g) == g.limit - 1
    ensures Inv(PassOn(g))
    ensures Occupied(PassOn(g)) == Occupied(g) + if g.queue == [] then 0 else 1
  {
    if g.queue != [] {
      var h := PassOn(g);
      var first, rest := g.queue[0], g.queue[1..];
      assert g.queue == [first] + rest && first in g.queue;
      PhaseChange(g.phase, first, Granted);
      assert Bounded(h);
      assert QueueIsQueued(h) by {
        forall id | id in rest ensures Is(h, id, Queued) { assert id in g.queue; }
        forall id | Is(h, id, Queued) ensures id in rest { assert id in g.queue; }
      }
      assert g.grants + g.queue == h.grants + h.queue;
    }
  }

  lemma VacateKeeps(g: Gate, id: Id)
    requires Inv(g) && Occupies(g.phase, id)
    ensures Inv(Vacate(g, id))
    ensures Occupied(Vacate(g, id)) == Occupied(g) - if g.queue == [] then 1 else 0
  {
    PhaseChange(g.phase, id, Left);
    PassOnKeeps(g.(phase := g.phase[id := Left]));
  }

  /** Every step, interrupted ones included, keeps the invariant. */
  lemma StepKeepsInv(g: Gate, e: Event)
    requires Inv(g) && Enabled(g, e)
    ensures Inv(Next(g, e))
  {
    match e
    case Arrive(id) => ArriveKeeps(g, id);
    case Resume(id, late) =>
      if late { VacateKeeps(g, id); } else { PhaseChange(g.phase, id, Holding); }
    case Finish(id) => VacateKeeps(g, id);
    case Interrupt(id) =>
      if g.phase[id] == Granted { VacateKeeps(g, id); } else { InterruptQueued(g, id); }
  }

  lemma ArriveKeeps(g: Gate, id: Id)
    requires Inv(g) && id !in g.phase
    ensures Inv(Next(g, Arrive(id)))
  {
    PhaseChange(g.phase, id, Holding);
    PhaseChange(g.phase, id, Left);
    if Is(Next(g, Arrive(id)), id, Queued) { EnqueueKeeps(g, id); }
  }

  lemma EnqueueKeeps(g: Gate, id: Id)
    requires Inv(g) && id !in g.phase && Is(Next(g, Arrive(id)), id, Queued)
    ensures Inv(Next(g, Arrive(id)))
  {
    var h := Next(g, Arrive(id));
    PhaseChange(g.phase, id, Queued);
    assert Bounded(h);
    assert QueueIsQueued(h) by {
      assert id !in g.queue;
      forall other | Is(h, other, Queued) ensures other in h.queue {
        if other == id { assert h.queue[|g.queue|] == id; } else { assert Is(g, other, Queued); }
      }
    }
    KeptSnoc(g.enqueued, id, g.withdrawn);
    assert g.grants + (g.queue + [id]) == g.grants + g.queue + [id];
    assert id !in g.enqueued;
    assert NoRepeats(h.enqueued);
  }

  lemma InterruptQueued(g: Gate, id: Id)
    requires Inv(g) && Is(g, id, Queued)
    ensures Inv(Next(g, Interrupt(id)))
  {
    hide QueueIsQueued, Bounded, FirstInFirstOut, Next;
    InterruptedQueue(g, id);
    InterruptedOrder(g, id);
  }

  lemma InterruptedOrder(g: Gate, id: Id)
    requires Inv(g) && Is(g, id, Queued)
    ensures FirstInFirstOut(Next(g, Interrupt(id)))
  {
    assert id in g.queue;
    hide QueueIsQueued, Bounded;
    KeptWithdraw(g.enqueued, id, g.withdrawn);
    KeptMembers(g.enqueued, g.withdrawn);
    NotGrantedYet(g.grants, g.queue, id);
    WithoutAppend(g.grants, g.queue, id);
  }

  lemma InterruptedQueue(g: Gate, id: Id)
    requires Inv(g) && Is(g, id, Queued)
    ensures QueueIsQueued(Next(g, Interrupt(id))) && Bounded(Next(g, Interrupt(id)))
  {
    PhaseChange(g.phase, id, Left);
    WithoutMembers(g.queue, id);
  }

  lemma NotGrantedYet(grants: seq<Id>, queue: seq<Id>, id: Id)
    requires NoRepeats(grants + queue) && id in queue
    ensures id !in grants
  {
    var j :| 0 <= j < |queue| && queue[j] == id;
    assert (grants + queue)[|grants| + j] == id;
    forall i | 0 <= i < |grants| ensures grants[i] != id {
      assert (grants + queue)[i] == grants[i];
    }
  }

  // ---------- what a step decides ----------

  /** Nobody but id is touched. */
  ghost predicate OthersStay(g: Gate, h: Gate, id: Id) {
    && (forall other :: other != id ==> (other in h.phase <==> other in g.phase))
    && (forall other :: other != id && other in g.phase ==> h.phase[other] == g.phase[other])
  }

  /** A claim holds at once exactly if a slot is free, is refused exactly if all are taken and all
      waiting places are too, and otherwise waits behind everybody. */
  lemma ArrivalDecided(g: Gate, id: Id)
    requires Inv(g) && id !in g.phase
    ensures Enabled(g, Arrive(id))
    ensures var h := Next(g, Arrive(id));
      && (Is(h, id, Holding) <==> Occupied(g) < g.limit)
      && (Is(h, id, Left) <==> Occupied(g) == g.limit && |g.queue| == g.maxWaiters)
      && (Is(h, id, Queued) <==> Occupied(g) == g.limit && |g.queue| < g.maxWaiters)
      && h.queue == g.queue + (if Is(h, id, Queued) then [id] else [])
      && Occupied(h) == Occupied(g) + (if Is(h, id, Holding) then 1 else 0)
      && OthersStay(g, h, id) && h.grants == g.grants && h.withdrawn == g.withdrawn
  {
    PhaseChange(g.phase, id, Holding);
    PhaseChange(g.phase, id, Left);
    PhaseChange(g.phase, id, Queued);
  }

  /** A slot is given back when its request finishes, and when a granted one is cancelled, times out or
      runs again too late; the oldest waiter gets it, and the slot is free if there is none. */
  lemma SlotGivenBack(g: Gate, id: Id, e: Event)
    requires Inv(g) && Enabled(g, e) && e.id == id
    requires e.Finish? || (e.Resume? && e.late) || (e.Interrupt? && Is(g, id, Granted))
    ensures var h := Next(g, e);
      && Is(h, id, Left)
      && (g.queue == [] ==>
            Occupied(h) == Occupied(g) - 1 && h.queue == [] && h.grants == g.grants && OthersStay(g, h, id))
      && (g.queue != [] ==> Occupied(h) == g.limit && h.queue == g.queue[1..] && h.grants == g.grants + [g.queue[0]])
      && (g.queue != [] ==> Is(h, g.queue[0], Granted))
      && (forall other :: other != id && other in g.phase && (g.queue != [] ==> other != g.queue[0]) ==>
            Is(h, other, g.phase[other]))
  {
    VacateKeeps(g, id);
    if g.queue != [] { assert g.queue[0] in g.queue && Is(g, g.queue[0], Queued); }
  }

  /** Running again in time, a granted request holds the slot it was granted. */
  lemma GrantedRuns(g: Gate, id: Id)
    requires Inv(g) && Is(g, id, Granted)
    ensures Enabled(g, Resume(id, false))
    ensures var h := Next(g, Resume(id, false));
      && Is(h, id, Holding) && Occupied(h) == Occupied(g)
      && h.queue == g.queue && h.grants == g.grants && OthersStay(g, h, id)
  {
    PhaseChange(g.phase, id, Holding);
  }

  /** A waiter that is cancelled or times out before its grant leaves the queue; the others keep their
      order, and nobody gets a slot by it. */
  lemma WaiterWithdraws(g: Gate, id: Id)
    requires Inv(g) && Is(g, id, Queued)
    ensures Enabled(g, Interrupt(id))
    ensures var h := Next(g, Interrupt(id));
      && Is(h, id, Left) && Occupied(h) == Occupied(g) && h.grants == g.grants && OthersStay(g, h, id)
      && exists i :: 0 <= i < |g.queue| && g.queue[i] == id && h.queue == g.queue[..i] + g.queue[i + 1..]
  {
    PhaseChange(g.phase, id, Left);
    assert id in g.queue;
    var i := WithoutAt(g.queue, id);
  }

  lemma {:induction false} WithoutAt(q: seq<Id>, id: Id) returns (i: nat)
    requires id in q
    ensures i < |q| && q[i] == id && Without(q, id) == q[..i] + q[i + 1..]
  {
    i := 0;
    if q[0] != id {
      i := WithoutAt(q[1..], id);
      CutBehind(q[0], q[1..], i);
      i := i + 1;
      assert q == [q[0]] + q[1..];
    }
  }

  lemma CutBehind<X>(x: X, q: seq<X>, i: nat)
    requires i < |q|
    ensures [x] + (q[..i] + q[i + 1..]) == ([x] + q)[..i + 1] + ([x] + q)[i + 2..]
  {
  }

  // ---------- runs ----------

  ghost predicate Possible(g: Gate, events: seq<Event>)
    decreases |events|
  {
    events == [] || (Enabled(g, events[0]) && Possible(Next(g, events[0]), events[1..]))
  }

  ghost function Run(g: Gate, events: seq<Event>): Gate
    requires Possible(g, events)
    decreases |events|
  {
    if events == [] then g else Run(Next(g, events[0]), events[1..])
  }

  /** In every run, whatever is cancelled or times out and when: the slots in use never exceed the
      limit, nobody waits while a slot is free, the queue stays within its bound, and grants
      follow the queueing order. */
  lemma {:induction false} RunKeepsInv(g: Gate, events: seq<Event>)
    requires Inv(g) && Possible(g, events)
    ensures Inv(Run(g, events))
    decreases |events|
  {
    if events != [] {
      StepKeepsInv(g, events[0]);
      RunKeepsInv(Next(g, events[0]), events[1..]);
    }
  }

  /** A request that is admitted at once overtakes nobody: everyone who ever queued has been
      granted or has given up. */
  lemma NoOvertaking(g: Gate, id: Id)
    requires Inv(g) && Enabled(g, Arrive(id))
    requires Is(Next(g, Arrive(id)), id, Holding)
    ensures forall other :: other in g.enqueued ==> other in g.grants || other in g.withdrawn
  {
    KeptMembers(g.enqueued, g.withdrawn);
    assert g.grants + g.queue == g.grants;
  }

  /** Of two requests that queued and did not give up, the one that queued first is granted first. */
  lemma GrantsFollowQueueing(g: Gate, i: nat, j: nat)
    requires Inv(g) && i < j < |g.enqueued|
    requires g.enqueued[i] !in g.withdrawn && g.enqueued[j] in g.grants
    ensures exists p, q :: 0 <= p < q < |g.grants| && g.grants[p] == g.enqueued[i] && g.grants[q] == g.enqueued[j]
  {
    var line := g.grants + g.queue;
    KeptMembers(g.enqueued, g.withdrawn);
    assert g.enqueued[j] in line;
    var p, q := KeptOrder(g.enqueued, g.withdrawn, i, j);
    var k :| 0 <= k < |g.grants| && g.grants[k] == g.enqueued[j];
    assert line[k] == line[q];
    assert g.grants[p] == g.enqueued[i] && g.grants[q] == g.enqueued[j];
  }

  lemma {:induction false} KeptOrder(s: seq<Id>, gone: set<Id>, i: nat, j: nat) returns (p: nat, q: nat)
    requires i < j < |s| && s[i] !in gone && s[j] !in gone
    ensures p < q < |Kept(s, gone)| && Kept(s, gone)[p] == s[i] && Kept(s, gone)[q] == s[j]
  {
    var shift := if s[0] in gone then 0 else 1;
    if i == 0 {
      p := 0;
      q := KeptAt(s[1..], gone, j - 1);
      q := q + 1;
    } else {
      p, q := KeptOrder(s[1..], gone, i - 1, j - 1);
      p, q := p + shift, q + shift;
    }
  }

  lemma {:induction false} KeptAt(s: seq<Id>, gone: set<Id>, j: nat) returns (q: nat)
    requires j < |s| && s[j] !in gone
    ensures q < |Kept(s, gone)| && Kept(s, gone)[q] == s[j]
  {
    if j == 0 {
      q := 0;
    } else {
      q := KeptAt(s[1..], gone, j - 1);
      q := q + if s[0] in gone then 0 else 1;
    }
  }

  /** No slot is lost: while somebody waits there is a request that will give a slot back, and when
      no request holds or was handed one, nothing is occupied and nobody waits. */
  lemma NoSlotLost(g: Gate)
    requires Inv(g)
    ensures g.queue != [] ==> exists id :: Is(g, id, Holding) || Is(g, id, Granted)
    ensures (forall id :: !Occupies(g.phase, id)) ==> Occupied(g) == 0 && g.queue == []
  {
    if g.queue != [] {
      assert Occupants(g.phase) != {};
      var id :| id in Occupants(g.phase);
      assert Is(g, id, Holding) || Is(g, id, Granted);
    }
    if forall id :: !Occupies(g.phase, id) {
      assert Occupants(g.phase) == {};
    }
  }

  /** Giving a slot back serves the oldest waiter, and only that one. */
  lemma ReleaseServesOldest(g: Gate, id: Id)
    requires Inv(g) && Is(g, id, Holding) && g.queue != []
    ensures var h := Next(g, Finish(id));
      h.queue == g.queue[1..] && Is(h, g.queue[0], Granted) && Is(h, id, Left) && Occupied(h) == g.limit
  {
    VacateKeeps(g, id);
    var first := g.queue[0];
    assert first in g.queue && Is(g, first, Queued);
  }

  /** A request leaves once: after that no event of its own can happen, so it cannot give back a
      slot a second time. */
  lemma {:induction false} LeavingIsFinal(g: Gate, events: seq<Event>, id: Id)
    requires Inv(g) && Possible(g, events) && Is(g, id, Left)
    ensures Is(Run(g, events), id, Left)
    ensures forall i :: 0 <= i < |events| ==> events[i].id != id
    decreases |events|
  {
    if events != [] {
      StepKeepsInv(g, events[0]);
      LeftStaysLeft(g, events[0], id);
      LeavingIsFinal(Next(g, events[0]), events[1..], id);
      assert events == [events[0]] + events[1..];
    }
  }

  lemma LeftStaysLeft(g: Gate, e: Event, id: Id)
    requires Inv(g) && Enabled(g, e) && Is(g, id, Left)
    ensures e.id != id && Is(Next(g, e), id, Left)
  {
    if g.queue != [] {
      var first := g.queue[0];
      assert first in g.queue;
      assert Is(g, first, Queued);
    }
  }

  // ---------- the implementation ----------

  datatype Future = Pending | Done | Cancelled

  datatype Outcome = Admitted | Waiting | Exceeded | Raised

  class ReadCapacity {
    const limit: nat
    const maxWaiters: nat
    var active: int
    var waiters: seq<Id>
    var futures: map<Id, Future>
    ghost var gate: Gate

    /** The counter is the number of slots in use, and a request's future is done exactly from its
        grant on. */
    ghost predicate Represents(g: Gate)
      reads this
    {
      && g.limit == limit && g.maxWaiters == maxWaiters
      && active == Occupied(g)
      && waiters == g.queue
      && (forall id :: Is(g, id, Queued) ==> id in futures && futures[id] == Pending)
      && (forall id :: Is(g, id, Granted) ==> id in futures && futures[id] == Done)
    }

    ghost predicate Valid()
      reads this
    {
      Inv(gate) && Represents(gate)
    }

    constructor (limit: nat, maxWaiters: nat)
      requires limit >= 1 && maxWaiters >= 1
      ensures Valid() && gate == Start(limit, maxWaiters)
    {
      StartInv(limit, maxWaiters);
      this.limit, this.maxWaiters := limit, maxWaiters;
      active, waiters, futures := 0, [], map[];
      gate := Start(limit, maxWaiters);
    }

    /** claim() up to its first suspension. */
    method Claim(id: Id) returns (outcome: Outcome)
      requires Valid() && Enabled(gate, Arrive(id))
      modifies this
      ensures Valid() && gate == Next(old(gate), Arrive(id))
      ensures outcome == Admitted <==> Is(gate, id, Holding)
      ensures outcome == Waiting <==> Is(gate, id, Queued)
      ensures outcome == Exceeded <==> Is(gate, id, Left)
      ensures outcome == Admitted <==> old(active) < limit
      ensures outcome == Exceeded <==> old(active) == limit && |old(waiters)| == maxWaiters
      ensures outcome == Waiting <==> old(active) == limit && |old(waiters)| < maxWaiters
      ensures active == old(active) + (if outcome == Admitted then 1 else 0)
      ensures waiters == old(waiters) + (if outcome == Waiting then [id] else [])
    {
      StepKeepsInv(gate, Arrive(id));
      if active < limit && waiters == [] {
        PhaseChange(gate.phase, id, Holding);
        active := active + 1;
        outcome := Admitted;
      } else if |waiters| >= maxWaiters {
        PhaseChange(gate.phase, id, Left);
        outcome := Exceeded;
      } else {
        PhaseChange(gate.phase, id, Queued);
        futures := futures[id := Pending];
        waiters := waiters + [id];
        outcome := Waiting;
      }
      gate := Next(gate, Arrive(id));
    }

    /** _release(): take the slot back and hand it to the oldest waiter. */
    method Release(id: Id)
      requires Valid() && Occupies(gate.phase, id)
      modifies this
      ensures Valid() && gate == Vacate(old(gate), id)
      ensures old(waiters) == [] ==> active == old(active) - 1 && waiters == [] && futures == old(futures)
      ensures old(waiters) != [] ==>
        active == old(active) && waiters == old(waiters)[1..] && futures == old(futures)[old(waiters)[0] := Done]
    {
      VacateKeeps(gate, id);
      ghost var before := gate;
      gate := Vacate(gate, id);
      active := active - 1;
      if waiters != [] {
        var waiter := waiters[0];
        assert waiter in before.queue;
        waiters := waiters[1..];
        active := active + 1;
        futures := futures[waiter := Done];
      }
    }

    /** The granted request runs again; past its deadline it behaves as timed out. */
    method Resumed(id: Id, late: bool) returns (outcome: Outcome)
      requires Valid() && Enabled(gate, Resume(id, late))
      modifies this
      ensures Valid() && gate == Next(old(gate), Resume(id, late))
      ensures outcome == if late then Exceeded else Admitted
    {
      if late {
        outcome := Interrupted(id, true);
      } else {
        StepKeepsInv(gate, Resume(id, late));
        PhaseChange(gate.phase, id, Holding);
        gate := Next(gate, Resume(id, late));
        outcome := Admitted;
      }
    }

    /** The except clause: a completed waiter already owns a slot and gives it back, a pending one
        leaves the deque. */
    method Interrupted(id: Id, timedOut: bool) returns (outcome: Outcome)
      requires Valid() && Enabled(gate, Interrupt(id))
      modifies this
      ensures Valid() && gate == Next(old(gate), Interrupt(id))
      ensures outcome == if timedOut then Exceeded else Raised
    {
      outcome := if timedOut then Exceeded else Raised;
      if futures[id] == Done {
        Release(id);
      } else {
        StepKeepsInv(gate, Interrupt(id));
        PhaseChange(gate.phase, id, Left);
        waiters := Without(waiters, id);
        futures := futures[id := Cancelled];
        gate := Next(gate, Interrupt(id));
      }
    }

    /** The finally clause after the protected block. */
    method Finished(id: Id)
      requires Valid() && Enabled(gate, Finish(id))
      modifies this
      ensures Valid() && gate == Next(old(gate), Finish(id))
    {
      Release(id);
    }
  }
}
