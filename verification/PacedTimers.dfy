/**
 * Timer delegates that dispatch to one worker thread, each through a gate that skips a tick while
 * its previous message is queued or running. A token stands for a message; a gate is in flight
 * while the worker still holds its token.
 */
module PacedTimers {
  import opened Common

  /** Ticks come from the timer thread; the worker takes, finishes and, at its exit, cancels. */
  datatype Event =
    | Tick(gate: nat, now: int, stuckTimeout: int, memory: bool)
    | Take
    | Finish
    | CancelAll

  function Live(queue: seq<nat>, running: Option<nat>): seq<nat> {
    if running.None? then queue else [running.value] + queue
  }

  predicate Distinct(s: seq<nat>) {
    forall i, j | 0 <= i < j < |s| :: s[i] != s[j]
  }

  class Worker {
    const capacity: nat
    var queue: seq<nat>
    var running: Option<nat>
    /** Tokens are numbered as they are made. */
    var next: nat
    /** How often a dispatch found the queue full. */
    var fullHits: nat

    constructor (capacity: nat)
      ensures this.capacity == capacity && queue == [] && running == None && next == 0 && fullHits == 0
    {
      this.capacity := capacity;
      queue, running, next, fullHits := [], None, 0, 0;
    }

    ghost function Held(): seq<nat>
      reads this
    {
      Live(queue, running)
    }

    /** `DispatchDelegate`: a message that is not accepted is destroyed, and its token with it. */
    method Dispatch(token: nat, memory: bool) returns (accepted: bool)
      modifies this`queue, this`fullHits
      ensures accepted == (memory && old(|queue|) < capacity)
      ensures queue == if accepted then old(queue) + [token] else old(queue)
      ensures fullHits == if memory && old(|queue|) >= capacity then old(fullHits) + 1 else old(fullHits)
    {
      accepted := memory && |queue| < capacity;
      if accepted {
        queue := queue + [token];
      } else if memory {
        fullHits := fullHits + 1;
      }
    }

    method TakeNext()
      modifies this`queue, this`running
      ensures old(running.None? && queue != []) ==> running == Some(old(queue[0])) && queue == old(queue[1..])
      ensures !old(running.None? && queue != []) ==> running == old(running) && queue == old(queue)
    {
      if running.None? && queue != [] {
        running, queue := Some(queue[0]), queue[1..];
      }
    }
  }

  class PacedDispatch {
    var inFlight: Option<nat>
    var pending: bool
    var dispatchTime: int
    var stuckReports: nat

    constructor ()
      ensures inFlight == None && !pending && stuckReports == 0
    {
      inFlight, pending, dispatchTime, stuckReports := None, false, 0, 0;
    }

    /** `TryFire` with the dispatch of `TimerDelegate::operator()`. */
    method TryFire(worker: Worker, now: int, stuckTimeout: int, memory: bool) returns (attempted: bool)
      modifies this, worker`queue, worker`next, worker`fullHits
      ensures attempted <==> !old(inFlight.Some? && inFlight.value in worker.Held())
      ensures !attempted ==>
        && inFlight == old(inFlight) && worker.queue == old(worker.queue) && worker.next == old(worker.next)
        && worker.fullHits == old(worker.fullHits) && pending && dispatchTime == old(dispatchTime)
        && stuckReports == old(stuckReports) + if stuckTimeout > 0 && now - dispatchTime > stuckTimeout then 1 else 0
      ensures attempted ==>
        && inFlight == Some(old(worker.next)) && worker.next == old(worker.next) + 1 && !pending && dispatchTime == now
        && stuckReports == old(stuckReports)
        && worker.queue == (if memory && old(|worker.queue|) < worker.capacity then
                            old(worker.queue) + [old(worker.next)] else old(worker.queue))
        && worker.fullHits == old(worker.fullHits) + if memory && old(|worker.queue|) >= worker.capacity then 1 else 0
    {
      if inFlight.Some? && (inFlight.value in worker.queue || worker.running == inFlight) {
        if stuckTimeout > 0 && now - dispatchTime > stuckTimeout {
          stuckReports := stuckReports + 1;
        }
        pending := true;
        return false;
      }
      pending := false;
      var token := worker.next;
      worker.next := worker.next + 1;
      inFlight := Some(token);
      dispatchTime := now;
      var accepted := worker.Dispatch(token, memory);
      attempted := true;
    }
  }

  ghost function Slots(gates: seq<PacedDispatch>): seq<Option<nat>>
    reads gates
  {
    seq(|gates|, i requires 0 <= i < |gates| reads gates => gates[i].inFlight)
  }

  /** The messages the worker holds are all different, and each belongs to a gate; tokens are
      numbered below `next`. */
  ghost predicate Paced(slots: seq<Option<nat>>, live: seq<nat>, next: nat) {
    && Distinct(live)
    && (forall t | t in live :: t < next && Some(t) in slots)
    && (forall i | 0 <= i < |slots| && slots[i].Some? :: slots[i].value < next)
  }

  ghost function Tokens(slots: seq<Option<nat>>): set<nat> {
    if slots == [] then {}
    else Tokens(slots[1..]) + if slots[0].Some? then {slots[0].value} else {}
  }

  lemma {:induction false} TokensOfSlots(slots: seq<Option<nat>>)
    ensures |Tokens(slots)| <= |slots|
    ensures forall t :: t in Tokens(slots) <==> Some(t) in slots
  {
    if slots != [] {
      TokensOfSlots(slots[1..]);
      assert slots == [slots[0]] + slots[1..];
    }
  }

  ghost function Elements(s: seq<nat>): set<nat> {
    set t | t in s
  }

  lemma {:induction false} DistinctSize(s: seq<nat>)
    requires Distinct(s)
    ensures |Elements(s)| == |s|
  {
    if s != [] {
      DistinctSize(s[1..]);
      assert s[0] !in Elements(s[1..]);
      assert Elements(s) == Elements(s[1..]) + {s[0]};
    }
  }

  lemma SubsetSize(a: set<nat>, b: set<nat>)
    requires a <= b
    ensures |a| <= |b|
  {
    assert b == a + (b - a);
  }

  /** The worker never holds more messages than there are gates. */
  lemma AtMostOnePerGate(slots: seq<Option<nat>>, live: seq<nat>, next: nat)
    requires Paced(slots, live, next)
    ensures |live| <= |slots|
  {
    TokensOfSlots(slots);
    DistinctSize(live);
    forall t | t in live
      ensures t in Tokens(slots)
    {
      assert Some(t) in slots;
    }
    SubsetSize(Elements(live), Tokens(slots));
  }

  /** While a gate is not in flight, it holds fewer. */
  lemma RoomForIdleGate(slots: seq<Option<nat>>, live: seq<nat>, next: nat, i: nat)
    requires Paced(slots, live, next) && i < |slots| && (slots[i].Some? ==> slots[i].value !in live)
    ensures |live| < |slots|
  {
    var others := slots[..i] + slots[i + 1..];
    forall t | t in live
      ensures Some(t) in others
    {
      var j :| 0 <= j < |slots| && slots[j] == Some(t);
      assert others[if j < i then j else j - 1] == Some(t);
    }
    AtMostOnePerGate(others, live, next);
  }

  lemma FiredPaced(slots: seq<Option<nat>>, queue: seq<nat>, running: Option<nat>, next: nat, i: nat)
    requires Paced(slots, Live(queue, running), next) && i < |slots|
    requires slots[i].Some? ==> slots[i].value !in Live(queue, running)
    ensures Paced(slots[i := Some(next)], Live(queue, running), next + 1)
    ensures Paced(slots[i := Some(next)], Live(queue + [next], running), next + 1)
  {
    var slots' := slots[i := Some(next)];
    var live := Live(queue, running);
    forall t | t in live
      ensures Some(t) in slots'
    {
      var j :| 0 <= j < |slots| && slots[j] == Some(t);
      assert slots'[j] == Some(t);
    }
    assert slots'[i] == Some(next);
    assert Live(queue + [next], running) == live + [next];
  }

  lemma TakenPaced(slots: seq<Option<nat>>, queue: seq<nat>, next: nat)
    requires Paced(slots, Live(queue, None), next) && queue != []
    ensures Live(queue[1..], Some(queue[0])) == queue
  {
  }

  lemma FinishedPaced(slots: seq<Option<nat>>, queue: seq<nat>, running: Option<nat>, next: nat)
    requires Paced(slots, Live(queue, running), next)
    ensures Paced(slots, Live(queue, None), next)
  {
    if running.Some? {
      assert Live(queue, None) == Live(queue, running)[1..];
    }
  }

  /** Timer delegates whose only worker this is, and which are its only producers. */
  class TimerGates {
    const gates: seq<PacedDispatch>
    const worker: Worker

    constructor (gates: seq<PacedDispatch>, worker: Worker)
      requires forall i, j | 0 <= i < j < |gates| :: gates[i] != gates[j]
      requires worker.queue == [] && worker.running == None && forall g | g in gates :: g.inFlight == None
      ensures this.gates == gates && this.worker == worker && Valid()
    {
      this.gates, this.worker := gates, worker;
    }

    ghost predicate Valid()
      reads this, worker, gates
    {
      && (forall i, j | 0 <= i < j < |gates| :: gates[i] != gates[j])
      && Paced(Slots(gates), worker.Held(), worker.next)
    }

    method TickGate(i: nat, now: int, stuckTimeout: int, memory: bool) returns (attempted: bool)
      requires Valid() && i < |gates|
      modifies worker, gates
      ensures Valid()
      ensures attempted <==> !old(gates[i].inFlight.Some? && gates[i].inFlight.value in worker.Held())
      ensures worker.running == old(worker.running) && worker.next == old(worker.next) + if attempted then 1 else 0
      ensures worker.queue == if attempted && memory && old(|worker.queue|) < worker.capacity
                              then old(worker.queue) + [old(worker.next)]
                              else old(worker.queue)
      ensures worker.fullHits
           == old(worker.fullHits) + if attempted && memory && old(|worker.queue|) >= worker.capacity then 1 else 0
      ensures worker.capacity >= |gates| && attempted ==> old(|worker.queue|) < worker.capacity
      ensures forall j | 0 <= j < |gates| && j != i :: gates[j].inFlight == old(gates[j].inFlight)
    {
      ghost var slots := Slots(gates);
      assert slots[i] == gates[i].inFlight;
      if slots[i].Some? ==> slots[i].value !in worker.Held() {
        FiredPaced(slots, worker.queue, worker.running, worker.next, i);
        RoomForIdleGate(slots, worker.Held(), worker.next, i);
      }
      attempted := gates[i].TryFire(worker, now, stuckTimeout, memory);
      assert Slots(gates) == if attempted then slots[i := gates[i].inFlight] else slots;
    }

    /** A tick, or a step of the worker. */
    method Handle(e: Event)
      requires Valid()
      modifies worker, gates
      ensures Valid()
      ensures e.Take? ==>
        if old(worker.running.None? && worker.queue != [])
        then worker.running == Some(old(worker.queue[0])) && worker.queue == old(worker.queue[1..])
        else worker.running == old(worker.running) && worker.queue == old(worker.queue)
      ensures e.Finish? ==> worker.running == None && worker.queue == old(worker.queue)
      ensures e.CancelAll? ==> worker.queue == [] && worker.running == old(worker.running)
      ensures e.Tick? && e.gate < |gates| ==>
        var g := gates[e.gate];
        var idle := !old(g.inFlight.Some? && g.inFlight.value in worker.Held());
        && worker.running == old(worker.running)
        && worker.queue == (if idle && e.memory && old(|worker.queue|) < worker.capacity
                            then old(worker.queue) + [old(worker.next)]
                            else old(worker.queue))
        && worker.fullHits
           == old(worker.fullHits) + (if idle && e.memory && old(|worker.queue|) >= worker.capacity then 1 else 0)
      ensures e.Tick? && e.gate >= |gates| ==>
              worker.queue == old(worker.queue) && worker.running == old(worker.running)
      ensures worker.capacity >= |gates| ==> worker.fullHits == old(worker.fullHits)
    {
      match e
      case Tick(i, now, stuckTimeout, memory) =>
        if i < |gates| {
          var attempted := TickGate(i, now, stuckTimeout, memory);
        }
      case Take =>
        if worker.running.None? && worker.queue != [] {
          TakenPaced(Slots(gates), worker.queue, worker.next);
        }
        worker.TakeNext();
      case Finish =>
        FinishedPaced(Slots(gates), worker.queue, worker.running, worker.next);
        worker.running := None;
      case CancelAll =>
        worker.queue := [];
    }

    /** In every run of ticks and worker steps the messages queued and running never outnumber the
        delegates; a queue of that capacity never meets its full policy. */
    method Run(events: seq<Event>)
      requires Valid()
      modifies worker, gates
      ensures Valid() && |worker.Held()| <= |gates|
      ensures worker.capacity >= |gates| ==> worker.fullHits == old(worker.fullHits)
    {
      for n := 0 to |events|
        invariant Valid()
        invariant worker.capacity >= |gates| ==> worker.fullHits == old(worker.fullHits)
      {
        Handle(events[n]);
      }
      AtMostOnePerGate(Slots(gates), worker.Held(), worker.next);
    }

    /** A smaller queue does meet it: if every delegate ticks before the worker takes anything,
        the last ones find the queue full. */
    method Flood()
      requires Valid() && worker.queue == [] && worker.running == None && worker.capacity < |gates|
      modifies worker, gates
      ensures Valid() && worker.fullHits > old(worker.fullHits)
    {
      assert forall j | 0 <= j < |gates| :: gates[j].inFlight.Some? ==> gates[j].inFlight.value < worker.next by {
        assert forall j | 0 <= j < |gates| :: Slots(gates)[j] == gates[j].inFlight;
      }
      for i := 0 to worker.capacity
        invariant Valid() && worker.running == None && |worker.queue| == i && worker.fullHits == old(worker.fullHits)
        invariant forall j | i <= j < |gates| :: gates[j].inFlight == old(gates[j].inFlight)
        invariant worker.next >= old(worker.next) && forall t | t in worker.queue :: t >= old(worker.next)
      {
        var attempted := TickGate(i, 0, 0, true);
      }
      var attempted := TickGate(worker.capacity, 0, 0, true);
    }
  }
}
