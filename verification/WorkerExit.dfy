/**
 * Whether `ExitThread` returns. It waits for room for its exit message and then for the loop to end;
 * a loop that waits with a timeout can end on the exit flag before the message is queued, and then
 * nobody makes room any more.
 */
module WorkerExit {
  import opened Common
  import opened WorkerThread

  /** The exit message finds the queue full, and the loop is not going to receive again. */
  predicate Blocked(u: Setup, s: World) {
    s.exiter == ExitSet && Full(u, s) && (u.capacity == 0 || s.worker == Stopped || s.worker.TimedOut?)
  }

  /** The exit message is allocated. */
  ghost predicate Allocates(events: seq<Event>) {
    forall e | e in events :: e != QueueExit(false)
  }

  ghost predicate ReturnsAfter(u: Setup, events: seq<Event>, more: seq<Event>) {
    Exec(u, START, events + more).exiter == Over
  }

  /** Some continuation, in which the allocation of the exit message does not fail, ends the call. */
  ghost predicate CanReturn(u: Setup, events: seq<Event>) {
    exists more :: Allocates(more) && ReturnsAfter(u, events, more)
  }

  lemma BlockedStep(u: Setup, s: World, e: Event)
    requires Blocked(u, s) && ExitWaits(s) && e != QueueExit(false)
    ensures Blocked(u, Step(u, s, e))
  {
    hide Drained;
    assert s.exitFlag;
    if e.Receive? && u.capacity == 0 {
      ReceivedLeavesExit(s);
    }
  }

  lemma ReceivedLeavesExit(s: World)
    ensures Received(s).exiter == s.exiter
  {
  }

  lemma {:induction false} StaysBlocked(u: Setup, events: seq<Event>, more: seq<Event>)
    requires Blocked(u, Exec(u, START, events)) && Allocates(more)
    ensures Blocked(u, Exec(u, START, events + more))
  {
    if more == [] {
      assert events + more == events;
    } else {
      var n := |more| - 1;
      assert forall e | e in more[..n] :: e in more;
      StaysBlocked(u, events, more[..n]);
      RunsExitWaits(u, events + more[..n]);
      assert more[n] in more;
      ExecAppend(u, events, more);
      BlockedStep(u, Exec(u, START, events + more[..n]), more[n]);
    }
  }

  /** A loop that is not through makes room, or comes closer to it. */
  lemma RoomCloser(u: Setup, s: World)
    requires Marked(u, s) && s.exiter == ExitSet && Full(u, s) && !Blocked(u, s)
    requires |s.high| + |s.normal| <= u.capacity
    ensures var t := Step(u, s, LoopStep(s.worker));
            t.exiter == ExitSet && (!Full(u, t) || (!Blocked(u, t) && Rank(t.worker) < Rank(s.worker)))
  {
  }

  /** The loop alone makes room for the exit message. */
  lemma {:induction false} RoomComes(u: Setup, events: seq<Event>) returns (more: seq<Event>)
    requires Exec(u, START, events).exiter == ExitSet && !Blocked(u, Exec(u, START, events))
    ensures forall e | e in more :: OfLoop(e)
    ensures Exec(u, START, events + more).exiter == ExitSet && !Full(u, Exec(u, START, events + more))
    decreases Rank(Exec(u, START, events).worker)
  {
    hide Step, Exec, Rank, Marked;
    var s := Exec(u, START, events);
    if !Full(u, s) {
      more := [];
      assert events + more == events;
    } else {
      var e := LoopStep(s.worker);
      RunsOrderly(u, events);
      QueueIsBounded(u, events);
      RoomCloser(u, s);
      ExecOne(u, events, e);
      if !Full(u, Exec(u, START, events + [e])) {
        more := [e];
      } else {
        var rest := RoomComes(u, events + [e]);
        more := [e] + rest;
        assert events + more == events + [e] + rest;
      }
    }
  }

  lemma QueuesExit(u: Setup, events: seq<Event>)
    requires Exec(u, START, events).exiter == ExitSet && !Full(u, Exec(u, START, events))
    ensures var s := Exec(u, START, events + [QueueExit(true)]);
            s.exiter == AwaitingStop && s.exitAt.Some? && !s.selfExit
  {
    RunsOrderly(u, events);
    ExecOne(u, events, QueueExit(true));
  }

  lemma LoopAllocates(room: seq<Event>, rest: seq<Event>)
    requires (forall e | e in room :: OfLoop(e)) && (forall e | e in rest :: OfLoop(e))
    ensures Allocates(room + [QueueExit(true)] + rest + [Destroy])
  {
  }

  lemma UnblockedReturns(u: Setup, events: seq<Event>) returns (more: seq<Event>)
    requires Exec(u, START, events).exiter == ExitSet && !Blocked(u, Exec(u, START, events))
    ensures Allocates(more) && ReturnsAfter(u, events, more)
  {
    hide *;
    var room := RoomComes(u, events);
    QueuesExit(u, events + room);
    var rest := ExitReturns(u, events + room + [QueueExit(true)]);
    more := room + [QueueExit(true)] + rest + [Destroy];
    LoopAllocates(room, rest);
    assert events + more == events + room + [QueueExit(true)] + rest + [Destroy];
    EndsReturned(u, events, more);
  }

  lemma EndsReturned(u: Setup, events: seq<Event>, more: seq<Event>)
    requires Exec(u, START, events + more).exiter == Over
    ensures ReturnsAfter(u, events, more)
  {
  }

  /** `ExitThread` that has set its flags and allocated its exit message can return if, and only if, it
      does not find the queue full with a loop that has ended or has just timed out. */
  lemma ReturnsIffNotBlocked(u: Setup, events: seq<Event>)
    requires Exec(u, START, events).exiter == ExitSet
    ensures CanReturn(u, events) <==> !Blocked(u, Exec(u, START, events))
  {
    if Blocked(u, Exec(u, START, events)) {
      forall more | Allocates(more)
        ensures !ReturnsAfter(u, events, more)
      {
        StaysBlocked(u, events, more);
      }
    } else {
      var more := UnblockedReturns(u, events);
    }
  }

  /** `Receive` has timed out, the exit flag is not read yet, and `n` messages were accepted since. */
  ghost predicate Filled(s: World, n: nat) {
    && s.created && s.exiter == NotExiting && s.worker.TimedOut? && s.high == [] && |s.normal| == n
  }

  lemma {:induction false} Fills(u: Setup, n: nat) returns (events: seq<Event>)
    requires u.finiteWaits && n <= u.capacity
    ensures Filled(Exec(u, START, events), n) && |events| == n + 1
    ensures events[0] == Expire && forall i | 0 < i < |events| :: events[i] == Send(NORMAL)
  {
    if n == 0 {
      events := [Expire];
    } else {
      var before := Fills(u, n - 1);
      events := before + [Send(NORMAL)];
      ExecOne(u, before, Send(NORMAL));
    }
  }

  /** With finite waits `ExitThread` can wait forever, under either policy: `Receive` times out, the queue
      fills, `ExitThread` sets its flags, the loop reads the exit flag and ends, and the exit message
      finds no room. */
  lemma FullQueueBlocksExit(u: Setup, discard: bool) returns (events: seq<Event>)
    requires u.finiteWaits
    ensures Blocked(u, Exec(u, START, events)) && Exec(u, START, events).worker == Stopped
    ensures |events| == u.capacity + 4 && events[0] == Expire
    ensures forall i | 0 < i <= u.capacity :: events[i] == Send(NORMAL)
    ensures events[u.capacity + 1..] == [SetDiscard(discard), SetExit, CheckExit]
  {
    var filled := Fills(u, u.capacity);
    ExecOne(u, filled, SetDiscard(discard));
    ExecOne(u, filled + [SetDiscard(discard)], SetExit);
    ExecOne(u, filled + [SetDiscard(discard)] + [SetExit], CheckExit);
    events := filled + [SetDiscard(discard)] + [SetExit] + [CheckExit];
  }

  /** `ExitThread` can return from every run if, and only if, the loop waits without a timeout. */
  lemma AlwaysReturnsIffWaitsAreInfinite(u: Setup)
    requires u.capacity > 0
    ensures (forall events | Exec(u, START, events).exiter == ExitSet :: CanReturn(u, events)) <==> !u.finiteWaits
  {
    if u.finiteWaits {
      var events := FullQueueBlocksExit(u, true);
      ReturnsIffNotBlocked(u, events);
    } else {
      forall events | Exec(u, START, events).exiter == ExitSet
        ensures CanReturn(u, events)
      {
        RunsOrderly(u, events);
        ReturnsIffNotBlocked(u, events);
      }
    }
  }

  /** The exit message could not be allocated, and `ExitThread` waits for the loop. */
  ghost predicate Messageless(s: World) {
    (s.exiter == AwaitingStop || s.exiter == Over) && s.exitAt.None? && !s.selfExit
  }

  lemma MessagelessStep(u: Setup, s: World, e: Event)
    requires Messageless(s) && Marked(u, s)
    ensures Messageless(Step(u, s, e))
  {
    hide Drained;
  }

  lemma {:induction false} StaysMessageless(u: Setup, events: seq<Event>, more: seq<Event>)
    requires Messageless(Exec(u, START, events))
    ensures Messageless(Exec(u, START, events + more))
  {
    if more == [] {
      assert events + more == events;
    } else {
      var n := |more| - 1;
      StaysMessageless(u, events, more[..n]);
      RunsOrderly(u, events + more[..n]);
      ExecAppend(u, events, more);
      MessagelessStep(u, Exec(u, START, events + more[..n]), more[n]);
    }
  }

  /** The loop's next step, if its waits time out. */
  function NextStep(s: World): Event {
    if s.worker == Looping && s.high == [] && s.normal == [] then Expire else LoopStep(s.worker)
  }

  /** What the loop has still to do before a wait of it times out with the exit flag up. */
  function Distance(s: World): nat {
    3 * (|s.high| + |s.normal|)
    + match s.worker
      case Stopped => 0
      case TimedOut(_) => 1
      case Looping => 2
      case Invoking(_) => 3
      case Holding(_) => 4
  }

  lemma TimeoutCloser(u: Setup, s: World)
    requires u.finiteWaits && s.exiter == AwaitingStop && s.exitFlag && s.worker != Stopped
    ensures var t := Step(u, s, NextStep(s)); t.exiter == AwaitingStop && t.exitFlag && Distance(t) < Distance(s)
  {
  }

  lemma {:induction false} TimesOut(u: Setup, events: seq<Event>) returns (more: seq<Event>)
    requires u.finiteWaits && Exec(u, START, events).exiter == AwaitingStop
    ensures Exec(u, START, events + more).exiter == AwaitingStop && Exec(u, START, events + more).worker == Stopped
    decreases Distance(Exec(u, START, events))
  {
    hide Step, Exec, Distance;
    var s := Exec(u, START, events);
    if s.worker == Stopped {
      more := [];
      assert events + more == events;
    } else {
      RunsExitWaits(u, events);
      TimeoutCloser(u, s);
      ExecOne(u, events, NextStep(s));
      var rest := TimesOut(u, events + [NextStep(s)]);
      more := [NextStep(s)] + rest;
      assert events + more == events + [NextStep(s)] + rest;
    }
  }

  /** Without memory for the exit message it is the other way round: `ExitThread` can return if, and
      only if, the loop's waits time out, since nothing else shows the loop the exit flag. */
  lemma WithoutMessageReturnsIffWaitsAreFinite(u: Setup, events: seq<Event>)
    requires Exec(u, START, events).exiter == AwaitingStop && Exec(u, START, events).exitAt.None?
    ensures (exists more :: ReturnsAfter(u, events, more)) <==> u.finiteWaits
  {
    RunsOrderly(u, events);
    if u.finiteWaits {
      var more := TimesOut(u, events);
      ExecOne(u, events + more, Destroy);
      assert events + (more + [Destroy]) == events + more + [Destroy];
      assert ReturnsAfter(u, events, more + [Destroy]);
    } else {
      forall more
        ensures !ReturnsAfter(u, events, more)
      {
        StaysMessageless(u, events, more);
        RunsOrderly(u, events + more);
      }
    }
  }
}
