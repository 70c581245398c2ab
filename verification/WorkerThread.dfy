/**
 * A worker thread with its message queue: senders, the worker's receive loop and one `ExitThread`
 * call, from outside or from the worker's own callback. The queue is two lanes: HIGH messages
 * leave before waiting NORMAL ones, each lane is first in, first out, and the exit message is a
 * NORMAL one. Sends, the steps of the loop and the steps of `ExitThread` interleave in any order:
 * `Receive` returning, the read of the exit flag after a timeout and the read of the discard flag
 * before an invocation are steps of their own. A step that is not possible now changes nothing.
 */
module WorkerThread {
  import opened Common

  datatype Priority = NORMAL | HIGH

  /** Messages are numbered in the order the queue accepts them. */
  datatype Msg = Msg(id: nat, priority: Priority)

  /** The exit message remembers how many messages were accepted before it. */
  datatype Item = Job(m: Msg) | ExitItem(after: nat)

  /** `finiteWaits`: a watchdog or an idle handler makes `Receive` time out. */
  datatype Setup = Setup(capacity: nat, finiteWaits: bool)

  /** `TimedOut`: `Receive` returned empty-handed when `at` messages had been accepted, and the exit
      flag has not been read yet. `Holding`: a received message whose discard check is still to
      come. `Invoking`: past that check, until the callback has returned. */
  datatype Worker = Looping | TimedOut(at: nat) | Holding(m: Msg) | Invoking(m: Msg) | Stopped
  datatype Exiter = NotExiting | DiscardSet | ExitSet | AwaitingStop | Over

  /** A message is accepted, and later taken: it passes the discard check, or it is cancelled. */
  datatype Obs = Accept(m: Msg) | Take(m: Msg, invoked: bool)

  datatype World = World(
    created: bool,
    high: seq<Item>,
    normal: seq<Item>,
    worker: Worker,
    exiter: Exiter,
    discard: bool,
    exitFlag: bool,
    selfExit: bool,
    accepted: nat,                 // messages accepted so far
    calledAt: Option<nat>,         // how many were accepted when ExitThread was called from outside
    exitAt: Option<nat>,           // how many were accepted when the exit message was queued
    stopAt: Option<nat>,           // how many were accepted when the wait before the loop's end was over
    log: seq<Obs>)

  datatype Event =
    | Send(priority: Priority)
    | SetDiscard(discard: bool)    // ExitThread from another thread, step by step
    | SetExit
    | QueueExit(haveMemory: bool)
    | Destroy
    | Receive
    | CheckDiscard
    | Expire
    | CheckExit
    | Complete
    | SelfExit(discard: bool)      // ExitThread from the running callback

  const START := World(true, [], [], Looping, NotExiting, false, false, false, 0, None, None, None, [])

  /** The queue is drained: every message left is cancelled. */
  function Drained(log: seq<Obs>, items: seq<Item>): seq<Obs>
    decreases items
  {
    if items == [] then log
    else Drained(if items[0].Job? then log + [Take(items[0].m, false)] else log, items[1..])
  }

  function Torn(s: World): World {
    s.(created := false, high := [], normal := [], log := Drained(Drained(s.log, s.high), s.normal))
  }

  predicate Full(u: Setup, s: World) {
    |s.high| + |s.normal| >= u.capacity
  }

  function Sent(s: World, p: Priority): World {
    var m := Msg(s.accepted, p);
    var t := s.(accepted := s.accepted + 1, log := s.log + [Accept(m)]);
    if p.HIGH? then t.(high := s.high + [Job(m)]) else t.(normal := s.normal + [Job(m)])
  }

  function Halted(s: World, at: nat): World {
    s.(worker := Stopped, stopAt := Some(at))
  }

  /** What the loop does with what `Receive` returned. */
  function Handled(s: World, item: Item): World {
    match item
    case Job(m) => s.(worker := Holding(m))
    case ExitItem(_) => Halted(s, s.accepted)
  }

  function Received(s: World): World {
    if s.high != [] then Handled(s.(high := s.high[1..]), s.high[0])
    else if s.normal != [] then Handled(s.(normal := s.normal[1..]), s.normal[0])
    else s
  }

  /** The read of the discard flag. */
  function Checked(s: World, m: Msg): World {
    s.(worker := if s.discard then Looping else Invoking(m), log := s.log + [Take(m, !s.discard)])
  }

  function Called(s: World, discard: bool): World {
    s.(exiter := DiscardSet, discard := discard, calledAt := Some(s.accepted))
  }

  function ExitQueued(s: World): World {
    s.(exiter := AwaitingStop, normal := s.normal + [ExitItem(s.accepted)], exitAt := Some(s.accepted))
  }

  function SelfExiting(s: World, discard: bool): World {
    s.(exiter := Over, discard := discard, exitFlag := true, selfExit := true)
  }

  function Step(u: Setup, s: World, e: Event): World {
    match e
    case Send(p) => if s.created && !Full(u, s) then Sent(s, p) else s
    case SetDiscard(d) => if s.created && s.exiter == NotExiting then Called(s, d) else s
    case SetExit => if s.exiter == DiscardSet then s.(exiter := ExitSet, exitFlag := true) else s
    case QueueExit(haveMemory) =>
      if s.exiter != ExitSet || (haveMemory && Full(u, s)) then s
      else if haveMemory then ExitQueued(s)
      else s.(exiter := AwaitingStop)
    case Destroy => if s.exiter == AwaitingStop && s.worker == Stopped then Torn(s).(exiter := Over) else s
    case Receive => if s.worker == Looping then Received(s) else s
    case CheckDiscard => if s.worker.Holding? then Checked(s, s.worker.m) else s
    case Expire =>
      if s.worker == Looping && u.finiteWaits && s.high == [] && s.normal == [] then s.(worker := TimedOut(s.accepted))
      else s
    case CheckExit =>
      if !s.worker.TimedOut? then s
      else if s.exitFlag then Halted(s, s.worker.at)
      else s.(worker := Looping)
    case Complete =>
      if !s.worker.Invoking? then s
      else if s.selfExit then Halted(s, s.accepted)
      else s.(worker := Looping)
    case SelfExit(d) =>
      if s.worker.Invoking? && s.created && s.exiter == NotExiting then Torn(SelfExiting(s, d)) else s
  }

  function Exec(u: Setup, s: World, events: seq<Event>): World {
    if events == [] then s else Step(u, Exec(u, s, events[..|events| - 1]), events[|events| - 1])
  }

  /** The messages of one priority, in the order they were accepted. */
  ghost function Accepted(log: seq<Obs>, p: Priority): seq<Msg> {
    if log == [] then []
    else
      var o := log[|log| - 1];
      Accepted(log[..|log| - 1], p) + if o.Accept? && o.m.priority == p then [o.m] else []
  }

  /** The messages of one priority, in the order they left the queue. */
  ghost function Taken(log: seq<Obs>, p: Priority): seq<Msg> {
    if log == [] then []
    else
      var o := log[|log| - 1];
      Taken(log[..|log| - 1], p) + if o.Take? && o.m.priority == p then [o.m] else []
  }

  ghost function Jobs(items: seq<Item>): seq<Msg> {
    if items == [] then [] else (if items[0].Job? then [items[0].m] else []) + Jobs(items[1..])
  }

  ghost predicate AllJobs(items: seq<Item>) {
    forall i | 0 <= i < |items| :: items[i].Job?
  }

  ghost predicate AllOf(items: seq<Item>, p: Priority) {
    forall i | 0 <= i < |items| && items[i].Job? :: items[i].m.priority == p
  }

  lemma LogAppend(log: seq<Obs>, o: Obs, p: Priority)
    ensures Accepted(log + [o], p) == Accepted(log, p) + if o.Accept? && o.m.priority == p then [o.m] else []
    ensures Taken(log + [o], p) == Taken(log, p) + if o.Take? && o.m.priority == p then [o.m] else []
  {
    assert (log + [o])[..|log|] == log;
  }

  lemma {:induction false} JobsAppend(items: seq<Item>, x: Item)
    ensures Jobs(items + [x]) == Jobs(items) + if x.Job? then [x.m] else []
  {
    if items == [] {
      assert [x][1..] == [];
    } else {
      JobsAppend(items[1..], x);
      assert (items + [x])[1..] == items[1..] + [x];
    }
  }

  /** What draining does to the messages of priority `p`: the drained lane's leave, in order. */
  ghost predicate DrainedTo(log: seq<Obs>, log': seq<Obs>, jobs: seq<Msg>, p: Priority) {
    Accepted(log', p) == Accepted(log, p) && Taken(log', p) == Taken(log, p) + jobs
  }

  lemma DrainedThen(log: seq<Obs>, m: Msg, log': seq<Obs>, jobs: seq<Msg>, p: Priority)
    requires DrainedTo(log + [Take(m, false)], log', jobs, p)
    ensures DrainedTo(log, log', (if m.priority == p then [m] else []) + jobs, p)
  {
    LogAppend(log, Take(m, false), p);
    assert Taken(log, p) + [m] + jobs == Taken(log, p) + ([m] + jobs);
    assert [] + jobs == jobs;
  }

  lemma DrainedNothing(log: seq<Obs>, p: Priority)
    ensures DrainedTo(log, log, [], p)
  {
  }

  lemma {:induction false} DrainTakes(log: seq<Obs>, items: seq<Item>, p: Priority, q: Priority)
    requires AllOf(items, q)
    ensures DrainedTo(log, Drained(log, items), if p == q then Jobs(items) else [], p)
    decreases items
  {
    hide DrainedTo;
    if items == [] {
      DrainedNothing(log, p);
    } else {
      if items[0].Job? {
        var rest := if p == q then Jobs(items[1..]) else [];
        DrainTakes(log + [Take(items[0].m, false)], items[1..], p, q);
        DrainedThen(log, items[0].m, Drained(log, items), rest, p);
        assert p != q ==> [] + rest == [];
      } else {
        DrainTakes(log, items[1..], p, q);
        assert [] + Jobs(items[1..]) == Jobs(items[1..]);
      }
    }
  }

  /** A lane holds, in order, exactly what was accepted for it and has not been taken yet. */
  ghost predicate Lane(items: seq<Item>, log: seq<Obs>, p: Priority) {
    AllOf(items, p) && Accepted(log, p) == Taken(log, p) + Jobs(items)
  }

  function Held(worker: Worker, p: Priority): seq<Item> {
    if worker.Holding? && worker.m.priority == p then [Job(worker.m)] else []
  }

  /** The messages of a lane that are not taken yet: the one in the worker's hands, and the queue. */
  function Waiting(s: World, p: Priority): seq<Item> {
    Held(s.worker, p) + if p.HIGH? then s.high else s.normal
  }

  /** A lane whose first message is perhaps in the worker's hands. */
  ghost predicate LaneFrom(worker: Worker, items: seq<Item>, log: seq<Obs>, p: Priority) {
    AllOf(items, p) && Lane(Held(worker, p) + items, log, p)
  }

  ghost predicate Lanes(s: World) {
    LaneFrom(s.worker, s.high, s.log, HIGH) && LaneFrom(s.worker, s.normal, s.log, NORMAL) && AllJobs(s.high)
  }

  lemma Assoc(a: seq<Item>, b: seq<Item>, x: Item)
    ensures a + b + [x] == a + (b + [x])
  {
  }

  lemma SentLane(worker: Worker, items: seq<Item>, log: seq<Obs>, m: Msg, p: Priority)
    requires LaneFrom(worker, items, log, p)
    ensures m.priority == p ==> LaneFrom(worker, items + [Job(m)], log + [Accept(m)], p)
    ensures m.priority != p ==> LaneFrom(worker, items, log + [Accept(m)], p)
  {
    var all := Held(worker, p) + items;
    LogAppend(log, Accept(m), p);
    JobsAppend(all, Job(m));
    Assoc(Held(worker, p), items, Job(m));
    assert Taken(log, p) + Jobs(all) + [m] == Taken(log, p) + (Jobs(all) + [m]);
  }

  lemma QueuedLane(worker: Worker, items: seq<Item>, log: seq<Obs>, after: nat, p: Priority)
    requires LaneFrom(worker, items, log, p)
    ensures LaneFrom(worker, items + [ExitItem(after)], log, p)
  {
    JobsAppend(Held(worker, p) + items, ExitItem(after));
    Assoc(Held(worker, p), items, ExitItem(after));
  }

  /** Receiving moves the first message into the worker's hands. */
  lemma ReceivedLane(items: seq<Item>, log: seq<Obs>, p: Priority)
    requires LaneFrom(Looping, items, log, p) && items != [] && items[0].Job?
    ensures LaneFrom(Holding(items[0].m), items[1..], log, p)
  {
    assert Held(Holding(items[0].m), p) + items[1..] == Held(Looping, p) + items;
  }

  lemma TakenLane(worker: Worker, items: seq<Item>, log: seq<Obs>, invoked: bool, p: Priority, worker': Worker)
    requires LaneFrom(worker, items, log, p) && worker.Holding? && !worker'.Holding?
    ensures LaneFrom(worker', items, log + [Take(worker.m, invoked)], p)
  {
    var m, all := worker.m, Held(worker, p) + items;
    LogAppend(log, Take(m, invoked), p);
    if m.priority == p {
      assert all[0] == Job(m) && all[1..] == items && Held(worker', p) + items == items;
      assert Taken(log, p) + ([m] + Jobs(items)) == Taken(log, p) + [m] + Jobs(items);
    }
  }

  /** Only who holds what matters. */
  lemma SameHands(worker: Worker, items: seq<Item>, log: seq<Obs>, p: Priority, worker': Worker)
    requires LaneFrom(worker, items, log, p) && Held(worker', p) == Held(worker, p)
    ensures LaneFrom(worker', items, log, p)
  {
  }

  lemma TornLanes(s: World)
    requires Lanes(s) && !s.worker.Holding?
    ensures Lanes(Torn(s))
  {
    hide Drained;
    TornLane(s.worker, s.high, s.log, s.high, s.normal, HIGH);
    TornLane(s.worker, s.normal, s.log, s.high, s.normal, NORMAL);
  }

  /** A lane after both have been drained. */
  lemma TornLane(worker: Worker, items: seq<Item>, log: seq<Obs>, high: seq<Item>, normal: seq<Item>, p: Priority)
    requires LaneFrom(worker, items, log, p) && !worker.Holding? && AllOf(high, HIGH) && AllOf(normal, NORMAL)
    requires items == if p.HIGH? then high else normal
    ensures LaneFrom(worker, [], Drained(Drained(log, high), normal), p)
  {
    hide Drained, AllOf;
    DrainTakes(log, high, p, HIGH);
    DrainTakes(Drained(log, high), normal, p, NORMAL);
    assert [] + items == items;
    NothingHeld(worker, p);
  }

  lemma NothingHeld(worker: Worker, p: Priority)
    requires !worker.Holding?
    ensures AllOf([], p) && Held(worker, p) + [] == []
  {
  }

  lemma HighReceivedLanes(s: World)
    requires Lanes(s) && s.worker == Looping && s.high != []
    ensures Lanes(Received(s))
  {
    ReceivedLane(s.high, s.log, HIGH);
    SameHands(Looping, s.normal, s.log, NORMAL, Holding(s.high[0].m));
  }

  lemma NormalReceivedLanes(s: World)
    requires Lanes(s) && s.worker == Looping && s.high == [] && s.normal != [] && s.normal[0].Job?
    ensures Lanes(Received(s))
  {
    ReceivedLane(s.normal, s.log, NORMAL);
    SameHands(Looping, s.high, s.log, HIGH, Holding(s.normal[0].m));
  }

  lemma ExitReceivedLanes(s: World)
    requires Lanes(s) && s.worker == Looping && s.high == [] && s.normal != [] && s.normal[0].ExitItem?
    ensures Lanes(Received(s))
  {
    assert [] + s.normal == s.normal && [] + s.normal[1..] == s.normal[1..];
    SameHands(Looping, s.high, s.log, HIGH, Stopped);
  }

  lemma ReceivedLanes(s: World)
    requires Lanes(s) && s.worker == Looping
    ensures Lanes(Received(s))
  {
    if s.high != [] {
      HighReceivedLanes(s);
    } else if s.normal != [] {
      if s.normal[0].Job? {
        NormalReceivedLanes(s);
      } else {
        ExitReceivedLanes(s);
      }
    }
  }

  lemma CheckedLanes(s: World)
    requires Lanes(s) && s.worker.Holding?
    ensures Lanes(Checked(s, s.worker.m))
  {
    var t := Checked(s, s.worker.m);
    TakenLane(s.worker, s.high, s.log, !s.discard, HIGH, t.worker);
    TakenLane(s.worker, s.normal, s.log, !s.discard, NORMAL, t.worker);
  }

  lemma SentLanes(s: World, p: Priority)
    requires Lanes(s)
    ensures Lanes(Sent(s, p))
  {
    SentLane(s.worker, s.high, s.log, Msg(s.accepted, p), HIGH);
    SentLane(s.worker, s.normal, s.log, Msg(s.accepted, p), NORMAL);
  }

  lemma OthersMoveNothing(u: Setup, s: World, e: Event)
    requires Lanes(s) && (e.SetDiscard? || e.SetExit? || e.Expire? || e.CheckExit? || e.Complete?)
    ensures Lanes(Step(u, s, e))
  {
    var t := Step(u, s, e);
    SameHands(s.worker, s.high, s.log, HIGH, t.worker);
    SameHands(s.worker, s.normal, s.log, NORMAL, t.worker);
  }

  lemma LanesStep(u: Setup, s: World, e: Event)
    requires Lanes(s)
    ensures Lanes(Step(u, s, e))
  {
    if Step(u, s, e) == s {
      return;
    }
    match e
    case Send(p) => SentLanes(s, p);
    case Destroy => TornLanes(s);
    case SelfExit(d) => TornLanes(SelfExiting(s, d));
    case Receive => ReceivedLanes(s);
    case CheckDiscard => CheckedLanes(s);
    case QueueExit(_) => QueuedLane(s.worker, s.normal, s.log, s.accepted, NORMAL);
    case _ => OthersMoveNothing(u, s, e);
  }

  lemma {:induction false} RunsKeepLanes(u: Setup, events: seq<Event>)
    ensures Lanes(Exec(u, START, events))
  {
    if events != [] {
      var n := |events| - 1;
      RunsKeepLanes(u, events[..n]);
      LanesStep(u, Exec(u, START, events[..n]), events[n]);
    }
  }

  /** Accepted after the wait that the loop ended on, or after the exit message. */
  predicate Late(stopAt: Option<nat>, exitAt: Option<nat>, m: Msg) {
    (stopAt.Some? && m.id >= stopAt.value) || (exitAt.Some? && m.id >= exitAt.value)
  }

  ghost predicate AllLate(stopAt: Option<nat>, exitAt: Option<nat>, items: seq<Item>) {
    forall i | 0 <= i < |items| && items[i].Job? :: Late(stopAt, exitAt, items[i].m)
  }

  ghost predicate AllBelow(items: seq<Item>, n: nat) {
    forall i | 0 <= i < |items| && items[i].Job? :: items[i].m.id < n
  }

  ghost predicate AllFrom(items: seq<Item>, n: nat) {
    forall i | 0 <= i < |items| && items[i].Job? :: items[i].m.id >= n
  }

  ghost predicate LogBelow(log: seq<Obs>, n: nat) {
    forall o | o in log :: o.m.id < n
  }

  ghost predicate TakenBelow(log: seq<Obs>, n: nat) {
    forall o | o in log && o.Take? :: o.m.id < n
  }

  ghost predicate InvokedBelow(log: seq<Obs>, n: nat) {
    forall o | o in log && o.Take? && o.invoked :: o.m.id < n
  }

  ghost predicate CancelledLate(log: seq<Obs>, stopAt: Option<nat>, exitAt: Option<nat>) {
    forall o | o in log && o.Take? && !o.invoked :: Late(stopAt, exitAt, o.m)
  }

  /** Every message is numbered below the count. */
  ghost predicate Numbered(s: World) {
    && LogBelow(s.log, s.accepted) && AllBelow(s.high, s.accepted) && AllBelow(s.normal, s.accepted)
    && (s.worker.Holding? ==> s.worker.m.id < s.accepted)
  }

  /** The marks are set when they should be, within the count and in their order. */
  ghost predicate Marked(u: Setup, s: World) {
    && (s.stopAt.Some? <==> s.worker == Stopped)
    && (s.stopAt.Some? ==> s.stopAt.value <= s.accepted)
    && (s.exitAt.Some? ==> s.exiter == AwaitingStop || s.exiter == Over)
    && (s.exitAt.Some? ==> s.calledAt.Some? && s.calledAt.value <= s.exitAt.value <= s.accepted)
    && (s.calledAt.Some? <==> !s.selfExit && s.exiter != NotExiting)
    && (s.calledAt.Some? ==> s.calledAt.value <= s.accepted)
    && (s.worker.TimedOut? ==> u.finiteWaits && s.worker.at <= s.accepted)
    && (s.stopAt.Some? && !s.selfExit && !u.finiteWaits ==> s.exitAt.Some? && s.exitAt.value <= s.stopAt.value)
    && (s.created <==> s.exiter != Over)
    && (s.selfExit ==> !s.created)
    && (s.exiter == NotExiting ==> !s.discard)
    && (s.selfExit ==> s.worker.Invoking? || s.worker == Stopped)
    && (s.exiter == Over && !s.selfExit ==> s.worker == Stopped)
  }

  /** Behind the exit message there are only messages accepted after it. */
  ghost predicate ExitInPlace(normal: seq<Item>, exitAt: Option<nat>) {
    && (forall i | 0 <= i < |normal| && normal[i].ExitItem? :: exitAt == Some(normal[i].after))
    && (forall i, j | 0 <= i < j < |normal| && normal[i].ExitItem? ::
          normal[j].Job? && normal[j].m.id >= normal[i].after)
  }

  /** What is left when the loop has ended is late; under DRAIN only late messages are cancelled;
      and no message accepted after the wait the loop ended on is invoked. */
  ghost predicate Disposed(s: World) {
    && (s.worker == Stopped && !s.selfExit ==>
          AllLate(s.stopAt, s.exitAt, s.high) && AllLate(s.stopAt, s.exitAt, s.normal))
    && (!s.discard && !s.selfExit ==> CancelledLate(s.log, s.stopAt, s.exitAt))
    && (s.stopAt.Some? ==> InvokedBelow(s.log, s.stopAt.value))
    && (s.worker.TimedOut? ==>
          AllFrom(s.high, s.worker.at) && AllFrom(s.normal, s.worker.at) && TakenBelow(s.log, s.worker.at))
  }

  ghost predicate Shaped(s: World) {
    ExitInPlace(s.normal, s.exitAt) && AllJobs(s.high) && (!s.created ==> s.high == [] && s.normal == [])
  }

  ghost predicate Orderly(u: Setup, s: World) {
    Numbered(s) && Marked(u, s) && Shaped(s) && Disposed(s)
  }

  /** Draining adds cancellations of queued messages and nothing else. */
  ghost predicate Cancels(log: seq<Obs>, log': seq<Obs>, items: seq<Item>) {
    forall o | o in log' :: o in log || (o.Take? && !o.invoked && Job(o.m) in items)
  }

  lemma {:induction false} DrainedCancels(log: seq<Obs>, items: seq<Item>)
    ensures Cancels(log, Drained(log, items), items)
    decreases items
  {
    if items != [] {
      var log' := if items[0].Job? then log + [Take(items[0].m, false)] else log;
      DrainedCancels(log', items[1..]);
      forall o | o in Drained(log, items)
        ensures o in log || (o.Take? && !o.invoked && Job(o.m) in items)
      {
        assert o in log' || Job(o.m) in items[1..];
      }
    }
  }

  lemma TornCancels(s: World)
    ensures Cancels(s.log, Torn(s).log, s.high + s.normal)
  {
    DrainedCancels(s.log, s.high);
    DrainedCancels(Drained(s.log, s.high), s.normal);
  }

  lemma SentNumbered(s: World, p: Priority)
    requires Numbered(s)
    ensures Numbered(Sent(s, p))
  {
  }

  lemma TornNumbered(s: World)
    requires Numbered(s)
    ensures Numbered(Torn(s))
  {
    TornCancels(s);
  }

  lemma ReceivedNumbered(s: World)
    requires Numbered(s) && AllJobs(s.high)
    ensures Numbered(Received(s))
  {
    if s.high != [] {
      BelowTail(s.high, s.accepted);
    } else if s.normal != [] {
      BelowTail(s.normal, s.accepted);
    }
    hide AllBelow, LogBelow;
  }

  lemma BelowTail(items: seq<Item>, n: nat)
    requires items != [] && AllBelow(items, n)
    ensures AllBelow(items[1..], n) && (items[0].Job? ==> items[0].m.id < n)
  {
  }

  lemma NumberedStep(u: Setup, s: World, e: Event)
    requires Numbered(s) && AllJobs(s.high)
    ensures Numbered(Step(u, s, e))
  {
    if Step(u, s, e) != s {
      match e
      case Send(p) => SentNumbered(s, p);
      case Destroy => TornNumbered(s);
      case SelfExit(d) => TornNumbered(SelfExiting(s, d));
      case Receive => ReceivedNumbered(s);
      case _ =>
    }
  }

  lemma ReceivedMarked(u: Setup, s: World)
    requires Marked(u, s) && s.worker == Looping && ExitInPlace(s.normal, s.exitAt) && AllJobs(s.high)
    ensures Marked(u, Received(s))
  {
  }

  lemma CalledMarked(u: Setup, s: World, e: Event)
    requires Marked(u, s) && (e.SetDiscard? || e.SetExit? || e.QueueExit? || e.Destroy? || e.SelfExit?)
    ensures Marked(u, Step(u, s, e))
  {
  }

  lemma MarkedStep(u: Setup, s: World, e: Event)
    requires Marked(u, s) && ExitInPlace(s.normal, s.exitAt) && AllJobs(s.high)
    ensures Marked(u, Step(u, s, e))
  {
    if Step(u, s, e) != s {
      match e
      case Receive => ReceivedMarked(u, s);
      case SetDiscard(_) => CalledMarked(u, s, e);
      case SetExit => CalledMarked(u, s, e);
      case QueueExit(_) => CalledMarked(u, s, e);
      case Destroy => CalledMarked(u, s, e);
      case SelfExit(_) => CalledMarked(u, s, e);
      case _ =>
    }
  }

  lemma SentInPlace(s: World, p: Priority)
    requires Shaped(s) && Numbered(s) && s.created && (s.exitAt.Some? ==> s.exitAt.value <= s.accepted)
    ensures Shaped(Sent(s, p))
  {
  }

  lemma QueuedInPlace(s: World)
    requires Shaped(s) && Numbered(s) && s.created && s.exitAt == None
    ensures Shaped(ExitQueued(s))
  {
  }

  lemma ReceivedInPlace(s: World)
    requires Shaped(s)
    ensures Shaped(Received(s))
  {
  }

  lemma ShapedStep(u: Setup, s: World, e: Event)
    requires Shaped(s) && Numbered(s) && Marked(u, s)
    ensures Shaped(Step(u, s, e))
  {
    if Step(u, s, e) != s {
      match e
      case Send(p) => SentInPlace(s, p);
      case Receive => ReceivedInPlace(s);
      case QueueExit(haveMemory) =>
        if haveMemory {
          QueuedInPlace(s);
        }
      case _ =>
    }
  }

  lemma SentDisposed(u: Setup, s: World, p: Priority)
    requires Orderly(u, s)
    ensures Disposed(Sent(s, p))
  {
  }

  lemma TornDisposed(u: Setup, s: World)
    requires Orderly(u, s) && s.worker == Stopped
    ensures Disposed(Torn(s).(exiter := Over))
  {
    TornCancels(s);
  }

  lemma SelfExitDisposed(u: Setup, s: World, d: bool)
    requires Orderly(u, s) && s.worker.Invoking?
    ensures Disposed(Torn(SelfExiting(s, d)))
  {
    TornCancels(s);
  }

  lemma ReceivedDisposed(u: Setup, s: World)
    requires Orderly(u, s) && s.worker == Looping
    ensures Disposed(Received(s))
  {
  }

  lemma DisposedStep(u: Setup, s: World, e: Event)
    requires Orderly(u, s)
    ensures Disposed(Step(u, s, e))
  {
    if Step(u, s, e) != s {
      match e
      case Send(p) => SentDisposed(u, s, p);
      case Destroy => TornDisposed(u, s);
      case SelfExit(d) => SelfExitDisposed(u, s, d);
      case Receive => ReceivedDisposed(u, s);
      case _ =>
    }
  }

  lemma OrderlyStep(u: Setup, s: World, e: Event)
    requires Orderly(u, s)
    ensures Orderly(u, Step(u, s, e))
  {
    NumberedStep(u, s, e);
    MarkedStep(u, s, e);
    ShapedStep(u, s, e);
    DisposedStep(u, s, e);
  }

  lemma {:induction false} RunsOrderly(u: Setup, events: seq<Event>)
    ensures Orderly(u, Exec(u, START, events))
  {
    if events != [] {
      var n := |events| - 1;
      RunsOrderly(u, events[..n]);
      OrderlyStep(u, Exec(u, START, events[..n]), events[n]);
    }
  }

  lemma {:induction false} LogMembers(log: seq<Obs>, m: Msg)
    ensures m in Accepted(log, m.priority) <==> Accept(m) in log
    ensures m in Taken(log, m.priority) <==> Take(m, true) in log || Take(m, false) in log
  {
    if log != [] {
      LogMembers(log[..|log| - 1], m);
      assert log == log[..|log| - 1] + [log[|log| - 1]];
    }
  }

  lemma {:induction false} JobsMembers(items: seq<Item>, m: Msg)
    ensures m in Jobs(items) <==> Job(m) in items
  {
    if items != [] {
      JobsMembers(items[1..], m);
      assert items == [items[0]] + items[1..];
    }
  }

  ghost predicate Ascending(ms: seq<Msg>) {
    forall i, j | 0 <= i < j < |ms| :: ms[i].id < ms[j].id
  }

  lemma {:induction false} AcceptedAscend(u: Setup, events: seq<Event>, p: Priority)
    ensures Ascending(Accepted(Exec(u, START, events).log, p))
  {
    if events != [] {
      var n := |events| - 1;
      var s := Exec(u, START, events[..n]);
      AcceptedAscend(u, events[..n], p);
      RunsOrderly(u, events[..n]);
      RunsKeepLanes(u, events[..n]);
      AcceptedAscendStep(u, s, events[n], p);
    }
  }

  lemma AppendAscends(ms: seq<Msg>, m: Msg)
    requires Ascending(ms) && forall x | x in ms :: x.id < m.id
    ensures Ascending(ms + [m])
  {
  }

  lemma SentAccepts(s: World, q: Priority, p: Priority)
    requires Ascending(Accepted(s.log, p)) && forall o | o in s.log :: o.m.id < s.accepted
    ensures Ascending(Accepted(Sent(s, q).log, p))
  {
    var m := Msg(s.accepted, q);
    LogAppend(s.log, Accept(m), p);
    forall x | x in Accepted(s.log, p)
      ensures x.id < s.accepted
    {
      AcceptedFrom(s.log, p, x);
    }
    AppendAscends(Accepted(s.log, p), m);
  }

  predicate WritesLog(e: Event) {
    e.Send? || e.CheckDiscard? || e.Destroy? || e.SelfExit?
  }

  lemma LogStays(u: Setup, s: World, e: Event)
    requires !WritesLog(e)
    ensures Step(u, s, e).log == s.log
  {
  }

  lemma OthersAccept(u: Setup, s: World, e: Event, p: Priority)
    requires Orderly(u, s) && Lanes(s) && !e.Send? && Step(u, s, e) != s
    ensures Accepted(Step(u, s, e).log, p) == Accepted(s.log, p)
  {
    match e
    case CheckDiscard => LogAppend(s.log, Take(s.worker.m, !s.discard), p);
    case Destroy => TornAccepts(s, p);
    case SelfExit(d) => TornAccepts(SelfExiting(s, d), p);
    case _ => LogStays(u, s, e);
  }

  lemma AcceptedAscendStep(u: Setup, s: World, e: Event, p: Priority)
    requires Orderly(u, s) && Lanes(s) && Ascending(Accepted(s.log, p))
    ensures Ascending(Accepted(Step(u, s, e).log, p))
  {
    if e.Send? {
      SentAccepts(s, e.priority, p);
    } else if Step(u, s, e) != s {
      OthersAccept(u, s, e, p);
    }
  }

  lemma TornAccepts(s: World, p: Priority)
    requires Lanes(s)
    ensures Accepted(Torn(s).log, p) == Accepted(s.log, p)
  {
    DrainTakes(s.log, s.high, p, HIGH);
    DrainTakes(Drained(s.log, s.high), s.normal, p, NORMAL);
  }

  lemma {:induction false} AcceptedFrom(log: seq<Obs>, p: Priority, m: Msg)
    requires m in Accepted(log, p)
    ensures Accept(m) in log && m.priority == p
  {
    var n := |log| - 1;
    if m in Accepted(log[..n], p) {
      AcceptedFrom(log[..n], p, m);
    }
  }

  /** Per-lane FIFO: in every run and at every moment, the messages of one priority have been taken
      in exactly the order in which they were accepted, without gaps. */
  lemma LaneFifo(u: Setup, events: seq<Event>, p: Priority)
    ensures var s := Exec(u, START, events);
            Taken(s.log, p) <= Accepted(s.log, p) && Ascending(Accepted(s.log, p))
  {
    RunsKeepLanes(u, events);
    AcceptedAscend(u, events, p);
  }

  /** Conservation: at every moment the messages accepted in a lane are those that were taken, for an
      invocation or a cancellation, followed by those that wait; and after the exit none waits, so
      each accepted message was invoked or cancelled, exactly once. */
  lemma EveryMessageDisposed(u: Setup, events: seq<Event>, p: Priority)
    ensures var s := Exec(u, START, events);
            && Accepted(s.log, p) == Taken(s.log, p) + Jobs(Waiting(s, p))
            && Ascending(Accepted(s.log, p))
            && (s.exiter == Over ==> Taken(s.log, p) == Accepted(s.log, p))
  {
    RunsKeepLanes(u, events);
    RunsOrderly(u, events);
    AcceptedAscend(u, events, p);
  }

  /** HIGH ahead of waiting NORMAL: when a NORMAL message is received, every HIGH message accepted so
      far has been taken. */
  lemma HighBeforeNormal(u: Setup, events: seq<Event>)
    requires var s := Exec(u, START, events); s.worker == Looping && TakesNormal(Received(s).worker)
    ensures var s := Exec(u, START, events); Taken(s.log, HIGH) == Accepted(s.log, HIGH)
  {
    RunsKeepLanes(u, events);
    NormalOnlyThen(Exec(u, START, events));
  }

  predicate TakesNormal(worker: Worker) {
    worker.Holding? && worker.m.priority == NORMAL
  }

  lemma NormalOnlyThen(s: World)
    requires Lanes(s) && s.worker == Looping && TakesNormal(Received(s).worker)
    ensures Taken(s.log, HIGH) == Accepted(s.log, HIGH)
  {
    assert s.high == [];
    assert Held(s.worker, HIGH) + s.high == [];
  }

  lemma TakenOrWaiting(s: World, m: Msg)
    requires Lanes(s) && Accept(m) in s.log && Job(m) !in Waiting(s, m.priority)
    ensures Take(m, true) in s.log || Take(m, false) in s.log
  {
    LogMembers(s.log, m);
    JobsMembers(Waiting(s, m.priority), m);
  }

  /** An external exit under DRAIN that has seen the loop end, and a message accepted before the exit
      message was queued. */
  predicate DrainedExit(s: World, m: Msg) {
    && s.worker == Stopped && !s.selfExit && !s.discard
    && Accept(m) in s.log && (s.exitAt.Some? ==> m.id < s.exitAt.value)
  }

  /** DRAIN by an exit from another thread: once the loop has ended, a message accepted before the
      exit message was queued has been invoked if, and only if, it was accepted before the wait on
      which the loop ended was over; and it is invoked or cancelled, not both. */
  lemma DrainInvokes(u: Setup, events: seq<Event>, m: Msg)
    requires DrainedExit(Exec(u, START, events), m)
    ensures var s := Exec(u, START, events);
            && s.stopAt.Some?
            && (Take(m, true) in s.log <==> m.id < s.stopAt.value)
            && (Take(m, true) in s.log ==> Take(m, false) !in s.log)
  {
    RunsKeepLanes(u, events);
    RunsOrderly(u, events);
    var s := Exec(u, START, events);
    if m.id < s.stopAt.value {
      TakenOrWaiting(s, m);
    }
  }

  /** When the loop waits forever, DRAIN invokes every message accepted before the exit message. */
  lemma DrainWithInfiniteWaits(u: Setup, events: seq<Event>, m: Msg)
    requires !u.finiteWaits && DrainedExit(Exec(u, START, events), m)
    ensures Take(m, true) in Exec(u, START, events).log
  {
    RunsOrderly(u, events);
    DrainInvokes(u, events, m);
  }

  lemma Then(u: Setup, s: World, events: seq<Event>, e: Event) returns (events': seq<Event>)
    requires Exec(u, START, events) == s
    ensures Exec(u, START, events') == Step(u, s, e) && events' == events + [e]
  {
    events' := events + [e];
    assert events'[..|events|] == events;
  }

  const FIRST := Msg(0, NORMAL)

  /** `Receive` has timed out and a message was accepted since; the exit flag is not read yet. */
  const CAUGHT := START.(worker := TimedOut(0), accepted := 1, normal := [Job(FIRST)], log := [Accept(FIRST)])

  /** Then `ExitThread` is called, and the loop reads its exit flag and ends. */
  const MISSED := Halted(CAUGHT.(exiter := ExitSet, exitFlag := true, calledAt := Some(1)), 0)

  lemma LoopMissesMessage(capacity: nat) returns (events: seq<Event>)
    requires capacity > 0
    ensures Exec(Setup(capacity, true), START, events) == MISSED
    ensures events == [Expire, Send(NORMAL), SetDiscard(false), SetExit, CheckExit]
  {
    var u := Setup(capacity, true);
    events := Then(u, START, [], Expire);
    events := Then(u, START.(worker := TimedOut(0)), events, Send(NORMAL));
    events := Then(u, CAUGHT, events, SetDiscard(false));
    events := Then(u, CAUGHT.(exiter := DiscardSet, calledAt := Some(1)), events, SetExit);
    events := Then(u, CAUGHT.(exiter := ExitSet, exitFlag := true, calledAt := Some(1)), events, CheckExit);
  }

  lemma CancelledLast(s: World, rest: seq<Item>)
    requires s.high == [] && s.normal == [Job(FIRST)] + rest && (rest == [] || rest == [ExitItem(1)])
    ensures Torn(s).log == s.log + [Take(FIRST, false)]
  {
    var log := s.log + [Take(FIRST, false)];
    assert s.normal[1..] == rest;
    assert Drained(s.log, s.normal) == Drained(log, rest);
    if rest != [] {
      assert rest[1..] == [];
      assert Drained(log, rest) == Drained(log, []);
    }
  }

  /** With finite waits DRAIN can cancel a message queued before `ExitThread` was called: `Receive`
      times out, the message is accepted, `ExitThread` sets its flags, the loop reads them and ends. */
  lemma FiniteWaitsCanCancel(capacity: nat) returns (events: seq<Event>)
    requires capacity > 0
    ensures var s := Exec(Setup(capacity, true), START, events);
            && s.exiter == Over && !s.discard && !s.selfExit
            && s.calledAt == Some(1) && s.exitAt == (if capacity > 1 then Some(1) else None) && s.stopAt == Some(0)
            && s.log == [Accept(FIRST), Take(FIRST, false)]
    ensures events
         == [Expire, Send(NORMAL), SetDiscard(false), SetExit, CheckExit, QueueExit(capacity > 1), Destroy]
  {
    var u := Setup(capacity, true);
    events := LoopMissesMessage(capacity);
    events := Then(u, MISSED, events, QueueExit(capacity > 1));
    var s := if capacity > 1 then ExitQueued(MISSED) else MISSED.(exiter := AwaitingStop);
    events := Then(u, s, events, Destroy);
    CancelledLast(s, if capacity > 1 then [ExitItem(1)] else []);
  }

  /** The runs that go on from `events`. */
  lemma ExecAppend(u: Setup, events: seq<Event>, more: seq<Event>)
    requires more != []
    ensures var n := |more| - 1;
            Exec(u, START, events + more) == Step(u, Exec(u, START, events + more[..n]), more[n])
  {
    assert (events + more)[..|events + more| - 1] == events + more[..|more| - 1];
  }

  lemma ExecOne(u: Setup, events: seq<Event>, e: Event)
    ensures Exec(u, START, events + [e]) == Step(u, Exec(u, START, events), e)
  {
    assert events + [] == events;
    ExecAppend(u, events, [e]);
  }

  /** `ExitThread` can be called from another thread. */
  predicate CanExit(s: World) {
    s.created && s.exiter == NotExiting
  }

  /** The run that calls `ExitThread` after `events`, and goes on. */
  function Exiting(u: Setup, events: seq<Event>, discard: bool, more: seq<Event>): World {
    Exec(u, START, events + [SetDiscard(discard)] + more)
  }

  lemma TornKeepsLog(s: World)
    ensures forall o | o in s.log :: o in Torn(s).log
  {
    DrainedKeeps(s.log, s.high);
    DrainedKeeps(Drained(s.log, s.high), s.normal);
  }

  lemma {:induction false} DrainedKeeps(log: seq<Obs>, items: seq<Item>)
    ensures forall o | o in log :: o in Drained(log, items)
    decreases items
  {
    if items != [] {
      DrainedKeeps(if items[0].Job? then log + [Take(items[0].m, false)] else log, items[1..]);
    }
  }

  /** An exit from another thread is called once, and its policy stays. */
  ghost predicate ExitCalled(s: World, discard: bool, at: nat, log: seq<Obs>) {
    && s.exiter != NotExiting && !s.selfExit && s.discard == discard && s.calledAt == Some(at)
    && forall o | o in log :: o in s.log
  }

  lemma CallStepSticks(u: Setup, s: World, e: Event, discard: bool, at: nat, log: seq<Obs>)
    requires ExitCalled(s, discard, at, log)
    ensures ExitCalled(Step(u, s, e), discard, at, log)
  {
    if !WritesLog(e) {
      LogStays(u, s, e);
    } else if e.Destroy? {
      TornKeepsLog(s);
    }
  }

  lemma {:induction false} CallSticks(u: Setup, events: seq<Event>, discard: bool, more: seq<Event>)
    requires CanExit(Exec(u, START, events))
    ensures var s := Exec(u, START, events); ExitCalled(Exiting(u, events, discard, more), discard, s.accepted, s.log)
  {
    var called := events + [SetDiscard(discard)];
    RunsOrderly(u, events);
    ExecOne(u, events, SetDiscard(discard));
    if more == [] {
      assert called + [] == called;
    } else {
      var n, s := |more| - 1, Exec(u, START, events);
      CallSticks(u, events, discard, more[..n]);
      ExecAppend(u, called, more);
      CallStepSticks(u, Exec(u, START, called + more[..n]), more[n], discard, s.accepted, s.log);
    }
  }

  /** What DRAIN documents: a message queued before `ExitThread(DRAIN)` is called has been invoked when
      that returns. */
  predicate PromiseKept(u: Setup, events: seq<Event>, more: seq<Event>, m: Msg) {
    var s, t := Exec(u, START, events), Exiting(u, events, false, more);
    CanExit(s) && Accept(m) in s.log && t.exiter == Over ==> Take(m, true) in t.log && Take(m, false) !in t.log
  }

  lemma InfiniteWaitsKeepPromise(u: Setup, events: seq<Event>, more: seq<Event>, m: Msg)
    requires !u.finiteWaits
    ensures PromiseKept(u, events, more, m)
  {
    var s, t := Exec(u, START, events), Exiting(u, events, false, more);
    if CanExit(s) && Accept(m) in s.log && t.exiter == Over {
      RunsOrderly(u, events);
      RunsOrderly(u, events + [SetDiscard(false)] + more);
      CallSticks(u, events, false, more);
      DrainInvokes(u, events + [SetDiscard(false)] + more, m);
    }
  }

  lemma FiniteWaitsBreakPromise(u: Setup) returns (events: seq<Event>, more: seq<Event>)
    requires u.finiteWaits && u.capacity > 0
    ensures !PromiseKept(u, events, more, FIRST)
  {
    var all := FiniteWaitsCanCancel(u.capacity);
    events, more := [Expire, Send(NORMAL)], [SetExit, CheckExit, QueueExit(u.capacity > 1), Destroy];
    assert all == events + [SetDiscard(false)] + more;
    ExecOne(u, [], Expire);
    ExecOne(u, [Expire], Send(NORMAL));
    assert [] + [Expire] == [Expire] && [Expire] + [Send(NORMAL)] == events;
  }

  /** DRAIN keeps that promise in all runs if, and only if, the loop waits without a timeout: no
      watchdog and no idle handler. */
  lemma DrainKeepsPromiseIffWaitsAreInfinite(u: Setup)
    requires u.capacity > 0
    ensures (forall events, more, m :: PromiseKept(u, events, more, m)) <==> !u.finiteWaits
  {
    if u.finiteWaits {
      var events, more := FiniteWaitsBreakPromise(u);
    } else {
      forall events, more, m
        ensures PromiseKept(u, events, more, m)
      {
        InfiniteWaitsKeepPromise(u, events, more, m);
      }
    }
  }

  /** While the discard flag is set, or after a self-exit, no further message passes the check; and at
      the end all others have been cancelled. */
  lemma {:induction false} DiscardingStopsInvoking(u: Setup, events: seq<Event>, more: seq<Event>, m: Msg)
    requires var s := Exec(u, START, events); s.discard || s.selfExit
    ensures var s, t := Exec(u, START, events), Exec(u, START, events + more);
            && (t.discard || t.selfExit)
            && (Take(m, true) in t.log ==> Take(m, true) in s.log)
            && (t.exiter == Over && Accept(m) in t.log && Take(m, true) !in s.log ==> Take(m, false) in t.log)
  {
    if more == [] {
      assert events + more == events;
    } else {
      var n := |more| - 1;
      DiscardingStopsInvoking(u, events, more[..n], m);
      ExecAppend(u, events, more);
      RunsOrderly(u, events + more[..n]);
      DiscardedStep(u, Exec(u, START, events + more[..n]), more[n], m);
    }
    RunsKeepLanes(u, events + more);
    RunsOrderly(u, events + more);
    var t := Exec(u, START, events + more);
    if t.exiter == Over && Accept(m) in t.log {
      TakenOrWaiting(t, m);
    }
  }

  lemma DiscardedStep(u: Setup, s: World, e: Event, m: Msg)
    requires Orderly(u, s) && (s.discard || s.selfExit)
    ensures Step(u, s, e).discard || Step(u, s, e).selfExit
    ensures Take(m, true) in Step(u, s, e).log ==> Take(m, true) in s.log
  {
    if !WritesLog(e) {
      LogStays(u, s, e);
    } else if e.Destroy? || e.SelfExit? {
      TornCancels(s);
    }
  }

  /** `ExitThread(DISCARD)`: from its first step on no further message passes the check, only one
      already past it may still run; and when it has returned all others have been cancelled. */
  lemma DiscardStopsInvoking(u: Setup, events: seq<Event>, more: seq<Event>, m: Msg)
    requires CanExit(Exec(u, START, events))
    ensures var s, t := Exec(u, START, events), Exiting(u, events, true, more);
            && (Take(m, true) in t.log ==> Take(m, true) in s.log)
            && (t.exiter == Over && Accept(m) in t.log && Take(m, true) !in s.log ==> Take(m, false) in t.log)
  {
    ExecOne(u, events, SetDiscard(true));
    DiscardingStopsInvoking(u, events + [SetDiscard(true)], more, m);
  }

  /** `ExitThread` from the running callback, under either policy: it is over at once, and every message
      accepted until then that has not been invoked has been cancelled. */
  lemma SelfExitDiscards(u: Setup, events: seq<Event>, discard: bool, more: seq<Event>, m: Msg)
    requires var s := Exec(u, START, events); s.worker.Invoking? && CanExit(s)
    ensures var s, t := Exec(u, START, events), Exec(u, START, events + [SelfExit(discard)] + more);
            && (Take(m, true) in t.log ==> Take(m, true) in s.log)
            && (Accept(m) in s.log ==> Take(m, true) in s.log || Take(m, false) in t.log)
  {
    var called := events + [SelfExit(discard)];
    ExecOne(u, events, SelfExit(discard));
    DiscardingStopsInvoking(u, called, [], m);
    assert called + [] == called;
    DiscardingStopsInvoking(u, called, more, m);
    TornCancels(SelfExiting(Exec(u, START, events), discard));
    TornKeepsLog(SelfExiting(Exec(u, START, events), discard));
    LogOnlyGrows(u, called, more);
  }

  lemma StepKeepsLog(u: Setup, s: World, e: Event)
    ensures forall o | o in s.log :: o in Step(u, s, e).log
  {
    if !WritesLog(e) {
      LogStays(u, s, e);
    } else if e.Destroy? {
      TornKeepsLog(s);
    } else if e.SelfExit? {
      TornKeepsLog(SelfExiting(s, e.discard));
    }
  }

  lemma {:induction false} LogOnlyGrows(u: Setup, events: seq<Event>, more: seq<Event>)
    ensures forall o | o in Exec(u, START, events).log :: o in Exec(u, START, events + more).log
  {
    if more == [] {
      assert events + more == events;
    } else {
      LogOnlyGrows(u, events, more[..|more| - 1]);
      ExecAppend(u, events, more);
      StepKeepsLog(u, Exec(u, START, events + more[..|more| - 1]), more[|more| - 1]);
    }
  }

  /** The exit message waits in its queue until the loop has ended, and the exit flag is up. */
  ghost predicate ExitWaits(s: World) {
    && (s.exitAt.Some? && s.worker != Stopped && s.exiter != Over ==> exists x :: x in s.normal && x.ExitItem?)
    && (s.exiter == ExitSet || s.exiter == AwaitingStop ==> s.exitFlag)
    && (s.worker == Stopped || s.exitAt.Some? || s.selfExit ==> s.exitFlag)
    && (s.exitFlag ==> s.exiter != NotExiting && s.exiter != DiscardSet)
  }

  lemma ExitWaitsStep(u: Setup, s: World, e: Event)
    requires ExitWaits(s) && Orderly(u, s)
    ensures ExitWaits(Step(u, s, e))
  {
    var t := Step(u, s, e);
    if s.exitAt.Some? && t.worker != Stopped && t.exiter != Over && s.worker != Stopped {
      var x :| x in s.normal && x.ExitItem?;
      assert x in t.normal;
    }
    if t.exitAt != s.exitAt {
      assert ExitItem(s.accepted) in t.normal;
    }
  }

  lemma {:induction false} RunsExitWaits(u: Setup, events: seq<Event>)
    ensures ExitWaits(Exec(u, START, events))
  {
    if events != [] {
      var n := |events| - 1;
      RunsOrderly(u, events[..n]);
      RunsExitWaits(u, events[..n]);
      ExitWaitsStep(u, Exec(u, START, events[..n]), events[n]);
    }
  }

  /** The loop ends only after `ExitThread` has raised the exit flag. */
  lemma LoopEndsOnlyOnExit(u: Setup, events: seq<Event>)
    requires Exec(u, START, events).worker == Stopped
    ensures Exec(u, START, events).exiter != NotExiting && Exec(u, START, events).exiter != DiscardSet
  {
    RunsExitWaits(u, events);
  }

  lemma RoomStep(u: Setup, s: World, e: Event)
    requires |s.high| + |s.normal| <= u.capacity
    ensures |Step(u, s, e).high| + |Step(u, s, e).normal| <= u.capacity
  {
    hide Received, Drained;
    if e.Receive? {
      ReceivedRoom(s);
    }
  }

  lemma ReceivedRoom(s: World)
    ensures |Received(s).high| + |Received(s).normal| <= |s.high| + |s.normal|
  {
  }

  /** The queue never holds more than its capacity, the exit message included. */
  lemma {:induction false} QueueIsBounded(u: Setup, events: seq<Event>)
    ensures |Exec(u, START, events).high| + |Exec(u, START, events).normal| <= u.capacity
  {
    if events != [] {
      QueueIsBounded(u, events[..|events| - 1]);
      RoomStep(u, Exec(u, START, events[..|events| - 1]), events[|events| - 1]);
    }
  }

  /** The step the loop itself takes next. */
  function LoopStep(worker: Worker): Event {
    match worker
    case Looping => Receive
    case Holding(_) => CheckDiscard
    case Invoking(_) => Complete
    case TimedOut(_) => CheckExit
    case Stopped => Receive
  }

  predicate OfLoop(e: Event) {
    e.Receive? || e.CheckDiscard? || e.Complete? || e.CheckExit?
  }

  function Rank(worker: Worker): nat {
    match worker
    case Stopped => 0
    case Looping => 1
    case TimedOut(_) => 2
    case Invoking(_) => 2
    case Holding(_) => 3
  }

  /** What the loop has still to do before it meets the exit message. */
  function Work(s: World): nat {
    3 * (|s.high| + |s.normal|) + Rank(s.worker)
  }

  /** `ExitThread` waits for the loop, its exit message is queued. */
  ghost predicate Awaiting(u: Setup, s: World) {
    Orderly(u, s) && ExitWaits(s) && s.exiter == AwaitingStop && s.exitAt.Some? && !s.selfExit
  }

  lemma LoopAdvances(u: Setup, s: World)
    requires Awaiting(u, s) && s.worker != Stopped
    ensures Awaiting(u, Step(u, s, LoopStep(s.worker))) && Work(Step(u, s, LoopStep(s.worker))) < Work(s)
  {
    OrderlyStep(u, s, LoopStep(s.worker));
    ExitWaitsStep(u, s, LoopStep(s.worker));
  }

  lemma {:induction false} LoopEnds(u: Setup, events: seq<Event>) returns (more: seq<Event>)
    requires Awaiting(u, Exec(u, START, events))
    ensures forall e | e in more :: OfLoop(e)
    ensures var t := Exec(u, START, events + more); Awaiting(u, t) && t.worker == Stopped
    decreases Work(Exec(u, START, events))
  {
    hide Step, Awaiting, Work;
    var s := Exec(u, START, events);
    if s.worker == Stopped {
      more := [];
      assert events + more == events;
    } else {
      var e := LoopStep(s.worker);
      LoopAdvances(u, s);
      ExecOne(u, events, e);
      var rest := LoopEnds(u, events + [e]);
      more := [e] + rest;
      assert events + more == events + [e] + rest;
    }
  }

  /** `ExitThread` returns: once its exit message is queued, finitely many steps of the loop alone,
      callbacks that return included, end it and let the exit finish. */
  lemma ExitReturns(u: Setup, events: seq<Event>) returns (more: seq<Event>)
    requires var s := Exec(u, START, events); s.exiter == AwaitingStop && s.exitAt.Some? && !s.selfExit
    ensures forall e | e in more :: OfLoop(e)
    ensures Exec(u, START, events + more + [Destroy]).exiter == Over
  {
    RunsOrderly(u, events);
    RunsExitWaits(u, events);
    more := LoopEnds(u, events);
    ExecOne(u, events + more, Destroy);
  }
}
