/**
 * One blocking cross-thread call: `operator()` and `DispatchAsyncWait` on the calling thread,
 * `Invoke` or `Cancel` on the destination thread, meeting through one message, its mutex and its
 * semaphore. Every access to the shared state is one step; the steps of the two threads and the
 * expiry of the wait interleave in any order. A step that cannot be taken changes nothing.
 */
module AsyncWait {
  import opened Common

  /** What the call is set up with: an empty delegate, no thread bound, an infinite wait. */
  datatype Setup = Setup(empty: bool, bound: bool, infinite: bool)

  datatype Caller =
    | Entry
    | Dispatching
    | Dispatched              // the message is queued, the dispatch has not returned yet
    | Waiting
    | Locking(waited: bool)
    | Deciding(waited: bool)  // holds the message lock
    | Clearing(success: bool)
    | Unlocking(success: bool)
    | Reading(success: bool)  // lock released, about to fetch the clone's return value
    | Returned(success: bool, value: Option<int>)

  datatype Worker =
    | Idle
    | Entering                // inside Invoke, waiting for the message lock
    | Checking                // holds the message lock
    | Running
    | Ended(v: int)
    | Stored(v: int)
    | Signalling
    | Leaving
    | Finished

  datatype Owner = Nobody | CallerOwns | WorkerOwns
  datatype Queue = NotQueued | Queued | Taken | Cancelled

  /** What can be seen from outside. */
  datatype Obs =
    | TargetStart
    | TargetAccess              // the target touches the caller's arguments
    | TargetReturn(v: int)
    | TargetThrow
    | WaitExpired
    | CallReturn(success: bool, value: Option<int>)

  datatype World = World(
    caller: Caller,
    worker: Worker,
    queue: Queue,
    lock: Owner,
    signaled: bool,
    invokerWaiting: bool,
    invokeSucceeded: bool,
    retVal: Option<int>,
    log: seq<Obs>)

  datatype CallerEvent =
    | Call | Enqueue(accepted: bool) | BeginWait | Wake | Expire | Acquire | Decide | Clear | Release | Fetch
  datatype WorkerEvent =
    | Take | Cancel | Enter | Check | Access | Return(v: int) | Throw | StoreResult | MarkSucceeded | Signal | Leave
  datatype Event = OfCaller(c: CallerEvent) | OfWorker(w: WorkerEvent)

  const START := World(Entry, Idle, NotQueued, Nobody, false, false, false, None, [])

  function CallerStep(u: Setup, s: World, e: CallerEvent): World {
    match e
    case Call =>
      if s.caller != Entry then s
      else if u.empty then s.(caller := Returned(false, None), log := s.log + [CallReturn(false, None)])
      else s.(invokerWaiting := true, caller := if u.bound then Dispatching else Locking(false))
    case Enqueue(accepted) =>
      if s.caller != Dispatching then s
      else if accepted then s.(caller := Dispatched, queue := Queued)
      else s.(caller := Locking(false))
    case BeginWait => if s.caller == Dispatched then s.(caller := Waiting) else s
    case Wake => if s.caller == Waiting && s.signaled then s.(caller := Locking(true), signaled := false) else s
    case Expire =>
      if s.caller == Waiting && !s.signaled && !u.infinite then
        s.(caller := Locking(false), log := s.log + [WaitExpired]) else s
    case Acquire =>
      if s.caller.Locking? && s.lock == Nobody then s.(caller := Deciding(s.caller.waited), lock := CallerOwns) else s
    case Decide => if s.caller.Deciding? then s.(caller := Clearing(s.caller.waited && s.invokeSucceeded)) else s
    case Clear => if s.caller.Clearing? then s.(caller := Unlocking(s.caller.success), invokerWaiting := false) else s
    case Release => if s.caller.Unlocking? then s.(caller := Reading(s.caller.success), lock := Nobody) else s
    case Fetch =>
      if !s.caller.Reading? then s
      else
        var value := if s.caller.success then s.retVal else None;
        s.(caller := Returned(s.caller.success, value), log := s.log + [CallReturn(s.caller.success, value)])
  }

  function WorkerStep(s: World, e: WorkerEvent): World {
    match e
    case Take => if s.queue == Queued then s.(queue := Taken, worker := Entering) else s
    case Cancel => if s.queue == Queued then s.(queue := Cancelled, signaled := true) else s
    case Enter => if s.worker == Entering && s.lock == Nobody then s.(worker := Checking, lock := WorkerOwns) else s
    case Check =>
      if s.worker != Checking then s
      else if s.invokerWaiting then s.(worker := Running, log := s.log + [TargetStart])
      else s.(worker := Leaving)
    case Access => if s.worker == Running then s.(log := s.log + [TargetAccess]) else s
    case Return(v) => if s.worker == Running then s.(worker := Ended(v), log := s.log + [TargetReturn(v)]) else s
    case Throw => if s.worker == Running then s.(worker := Signalling, log := s.log + [TargetThrow]) else s
    case StoreResult => if s.worker.Ended? then s.(worker := Stored(s.worker.v), retVal := Some(s.worker.v)) else s
    case MarkSucceeded => if s.worker.Stored? then s.(worker := Signalling, invokeSucceeded := true) else s
    case Signal => if s.worker == Signalling then s.(worker := Leaving, signaled := true) else s
    case Leave => if s.worker == Leaving then s.(worker := Finished, lock := Nobody) else s
  }

  function Step(u: Setup, s: World, e: Event): World {
    if e.OfCaller? then CallerStep(u, s, e.c) else WorkerStep(s, e.w)
  }

  function Exec(u: Setup, s: World, events: seq<Event>): World {
    if events == [] then s else Step(u, Exec(u, s, events[..|events| - 1]), events[|events| - 1])
  }

  predicate IsReturn(o: Obs) {
    o.TargetReturn?
  }

  ghost predicate Completed(log: seq<Obs>) {
    exists o :: o in log && IsReturn(o)
  }

  ghost predicate TargetOver(log: seq<Obs>) {
    Completed(log) || TargetThrow in log
  }

  predicate IsCallReturn(o: Obs) {
    o.CallReturn?
  }

  ghost predicate CallOver(log: seq<Obs>) {
    exists o :: o in log && IsCallReturn(o)
  }

  /** What must already have been seen, and not seen, when `o` is seen. */
  ghost predicate Allowed(before: seq<Obs>, o: Obs) {
    match o
    case TargetStart => TargetStart !in before && !CallOver(before)
    case TargetAccess => TargetStart in before && !TargetOver(before) && !CallOver(before)
    case TargetReturn(v) => TargetStart in before && !TargetOver(before) && !CallOver(before)
    case TargetThrow => TargetStart in before && !TargetOver(before) && !CallOver(before)
    case WaitExpired => !CallOver(before)
    case CallReturn(success, value) =>
      && !CallOver(before)
      && (TargetStart in before ==> TargetOver(before))
      && (success <==> Completed(before) && WaitExpired !in before)
      && (success ==> value.Some? && TargetReturn(value.value) in before)
      && (!success ==> value.None?)
  }

  ghost predicate WellBehaved(log: seq<Obs>) {
    forall i | 0 <= i < |log| :: Allowed(log[..i], log[i])
  }

  predicate HoldsLock(w: Worker) {
    w.Checking? || w.Running? || w.Ended? || w.Stored? || w.Signalling? || w.Leaving?
  }

  predicate CallerHolds(c: Caller) {
    c.Deciding? || c.Clearing? || c.Unlocking?
  }

  /** The lock, the waiting flag and the queue say what the two threads are doing. */
  predicate Shared(u: Setup, s: World) {
    && (s.lock == WorkerOwns <==> HoldsLock(s.worker))
    && (s.lock == CallerOwns <==> CallerHolds(s.caller))
    && (s.invokerWaiting <==>
        s.caller.Dispatching? || s.caller.Dispatched? || s.caller.Waiting? || s.caller.Locking? || s.caller.Deciding?
          || s.caller.Clearing?)
    && (s.worker.Running? || s.worker.Ended? || s.worker.Stored? || s.worker.Signalling? ==> s.invokerWaiting)
    && (s.queue == Taken <==> s.worker != Idle)
    && (s.queue != NotQueued ==> s.caller != Entry && s.caller != Dispatching)
    && (s.caller == Dispatched || s.caller == Waiting ==> s.queue != NotQueued)
  }

  /** What has been seen of the target, by where the worker stands. */
  ghost predicate TargetSeen(s: World) {
    match s.worker
    case Idle => TargetStart !in s.log && !TargetOver(s.log)
    case Entering => TargetStart !in s.log && !TargetOver(s.log)
    case Checking => TargetStart !in s.log && !TargetOver(s.log)
    case Running => TargetStart in s.log && !TargetOver(s.log)
    case Ended(v) => TargetStart in s.log && TargetReturn(v) in s.log && TargetThrow !in s.log
    case Stored(v) => TargetStart in s.log && TargetReturn(v) in s.log && TargetThrow !in s.log && s.retVal == Some(v)
    case _ => (TargetStart in s.log ==> TargetOver(s.log)) && (Completed(s.log) ==> s.invokeSucceeded)
  }

  /** What the flags of the message stand for. */
  ghost predicate Flags(s: World) {
    && (s.invokeSucceeded ==> s.retVal.Some? && TargetReturn(s.retVal.value) in s.log
                              && (s.worker == Signalling || s.worker == Leaving || s.worker == Finished))
    && (s.caller == Dispatched || s.caller == Waiting ==> WaitExpired !in s.log && (s.signaled <==> Disposed(s)))
    && (s.caller == Entry || s.caller == Dispatching ==> s.log == [] && !s.signaled)
    && (s.queue == NotQueued ==> WaitExpired !in s.log)
  }

  /** The destination thread has signalled the call, having run the target or cancelled it. */
  predicate Disposed(s: World) {
    s.queue == Cancelled || s.worker == Leaving || s.worker == Finished
  }

  /** The verdict the caller has reached, or is bound to reach. */
  ghost predicate Verdict(s: World) {
    match s.caller
    case Locking(waited) => (waited ==> Disposed(s)) && (waited <==> s.queue != NotQueued && WaitExpired !in s.log)
    case Deciding(waited) => (waited ==> Disposed(s)) && (waited <==> s.queue != NotQueued && WaitExpired !in s.log)
    case Clearing(success) => Correct(s, success)
    case Unlocking(success) => Correct(s, success)
    case Reading(success) => Correct(s, success)
    case _ => true
  }

  ghost predicate Correct(s: World, success: bool) {
    && (success ==> s.invokeSucceeded)
    && (success <==> Completed(s.log) && WaitExpired !in s.log)
  }

  ghost predicate Inv(u: Setup, s: World) {
    && Shared(u, s) && TargetSeen(s) && Flags(s) && Verdict(s)
    && (CallOver(s.log) <==> s.caller.Returned?)
  }

  lemma SeenAppend(log: seq<Obs>, o: Obs)
    ensures Completed(log + [o]) <==> Completed(log) || IsReturn(o)
    ensures CallOver(log + [o]) <==> CallOver(log) || IsCallReturn(o)
  {
    assert forall p | p in log :: p in log + [o];
    assert o in log + [o];
  }

  lemma WellBehavedAppend(log: seq<Obs>, o: Obs)
    requires WellBehaved(log) && Allowed(log, o)
    ensures WellBehaved(log + [o])
  {
    forall i | 0 <= i <= |log|
      ensures Allowed((log + [o])[..i], (log + [o])[i])
    {
      assert (log + [o])[..i] == log[..i];
      assert log[..|log|] == log;
    }
  }

  /** Before the caller wants the lock. */
  predicate Early(e: CallerEvent) {
    e.Call? || e.Enqueue? || e.BeginWait? || e.Wake? || e.Expire?
  }

  lemma EarlyKeeps(u: Setup, s: World, e: CallerEvent)
    requires Inv(u, s) && Early(e)
    ensures Inv(u, CallerStep(u, s, e))
  {
    var s' := CallerStep(u, s, e);
    if s'.log != s.log {
      SeenAppend(s.log, s'.log[|s.log|]);
    }
  }

  lemma LateKeeps(u: Setup, s: World, e: CallerEvent)
    requires Inv(u, s) && !Early(e)
    ensures Inv(u, CallerStep(u, s, e))
  {
    var s' := CallerStep(u, s, e);
    if s'.log != s.log {
      SeenAppend(s.log, s'.log[|s.log|]);
    }
  }

  lemma CallerKeeps(u: Setup, s: World, e: CallerEvent)
    requires Inv(u, s)
    ensures Inv(u, CallerStep(u, s, e))
  {
    if Early(e) {
      EarlyKeeps(u, s, e);
    } else {
      LateKeeps(u, s, e);
    }
  }

  /** Up to the target's end. */
  predicate Opening(e: WorkerEvent) {
    e.Take? || e.Cancel? || e.Enter? || e.Check? || e.Access?
  }

  lemma OpeningKeeps(u: Setup, s: World, e: WorkerEvent)
    requires Inv(u, s) && Opening(e)
    ensures Inv(u, WorkerStep(s, e))
  {
    var s' := WorkerStep(s, e);
    if s'.log != s.log {
      SeenAppend(s.log, s'.log[|s.log|]);
    }
  }

  lemma ClosingKeeps(u: Setup, s: World, e: WorkerEvent)
    requires Inv(u, s) && !Opening(e)
    ensures Inv(u, WorkerStep(s, e))
  {
    var s' := WorkerStep(s, e);
    if s'.log != s.log {
      SeenAppend(s.log, s'.log[|s.log|]);
    }
  }

  lemma WorkerKeeps(u: Setup, s: World, e: WorkerEvent)
    requires Inv(u, s)
    ensures Inv(u, WorkerStep(s, e))
  {
    if Opening(e) {
      OpeningKeeps(u, s, e);
    } else {
      ClosingKeeps(u, s, e);
    }
  }

  lemma CallerAllowed(u: Setup, s: World, e: CallerEvent)
    requires Inv(u, s) && CallerStep(u, s, e).log != s.log
    ensures exists o :: CallerStep(u, s, e).log == s.log + [o] && Allowed(s.log, o)
  {
    var s' := CallerStep(u, s, e);
    assert s'.log == s.log + [s'.log[|s.log|]];
    assert Allowed(s.log, s'.log[|s.log|]);
  }

  lemma WorkerAllowed(u: Setup, s: World, e: WorkerEvent)
    requires Inv(u, s) && WorkerStep(s, e).log != s.log
    ensures exists o :: WorkerStep(s, e).log == s.log + [o] && Allowed(s.log, o)
  {
    var s' := WorkerStep(s, e);
    assert s'.log == s.log + [s'.log[|s.log|]];
    assert Allowed(s.log, s'.log[|s.log|]);
  }

  lemma StepKeeps(u: Setup, s: World, e: Event)
    requires Inv(u, s) && WellBehaved(s.log)
    ensures Inv(u, Step(u, s, e)) && WellBehaved(Step(u, s, e).log)
  {
    if e.OfCaller? {
      CallerKeeps(u, s, e.c);
      if CallerStep(u, s, e.c).log != s.log {
        CallerAllowed(u, s, e.c);
        var o :| CallerStep(u, s, e.c).log == s.log + [o] && Allowed(s.log, o);
        WellBehavedAppend(s.log, o);
      }
    } else {
      WorkerKeeps(u, s, e.w);
      if WorkerStep(s, e.w).log != s.log {
        WorkerAllowed(u, s, e.w);
        var o :| WorkerStep(s, e.w).log == s.log + [o] && Allowed(s.log, o);
        WellBehavedAppend(s.log, o);
      }
    }
  }

  lemma {:induction false} RunsKeep(u: Setup, events: seq<Event>)
    ensures Inv(u, Exec(u, START, events)) && WellBehaved(Exec(u, START, events).log)
  {
    if events != [] {
      var n := |events| - 1;
      RunsKeep(u, events[..n]);
      StepKeeps(u, Exec(u, START, events[..n]), events[n]);
    }
  }

  lemma SeenBefore(log: seq<Obs>, i: nat, j: nat)
    requires i < |log| && j < |log|
    ensures i < j && IsReturn(log[i]) ==> Completed(log[..j])
    ensures i < j && IsCallReturn(log[i]) ==> CallOver(log[..j])
    ensures i < j && log[i] == TargetThrow ==> TargetThrow in log[..j]
  {
    if i < j {
      assert log[..j][i] == log[i];
    }
  }

  predicate OfTarget(o: Obs) {
    o.TargetStart? || o.TargetAccess? || o.TargetReturn? || o.TargetThrow?
  }

  /** In every interleaving the target starts at most once. */
  lemma TargetRunsAtMostOnce(u: Setup, events: seq<Event>, i: nat, j: nat)
    requires i < j < |Exec(u, START, events).log|
    requires Exec(u, START, events).log[i] == TargetStart
    ensures Exec(u, START, events).log[j] != TargetStart
  {
    RunsKeep(u, events);
    var log := Exec(u, START, events).log;
    assert Allowed(log[..j], log[j]);
    assert log[..j][i] == log[i];
  }

  /** In every interleaving, once the call has returned the target does not start, run, touch the
      caller's arguments or end; so a target that started before the return also ended before it. */
  lemma NothingAfterReturn(u: Setup, events: seq<Event>, i: nat, j: nat)
    requires i < |Exec(u, START, events).log| && j < |Exec(u, START, events).log|
    requires Exec(u, START, events).log[i].CallReturn? && OfTarget(Exec(u, START, events).log[j])
    ensures j < i
    ensures TargetOver(Exec(u, START, events).log[..i])
  {
    RunsKeep(u, events);
    var log := Exec(u, START, events).log;
    assert Allowed(log[..i], log[i]);
    assert Allowed(log[..j], log[j]);
    SeenBefore(log, i, j);
    TargetStartsFirst(log, j);
    assert TargetStart in log[..i];
  }

  lemma TargetStartsFirst(log: seq<Obs>, j: nat)
    requires WellBehaved(log) && j < |log| && OfTarget(log[j])
    ensures TargetStart in log[..j + 1]
  {
    assert Allowed(log[..j], log[j]);
    assert log[..j + 1] == log[..j] + [log[j]];
  }

  /** The call reports success exactly when the target returned normally and the wait did not
      expire, and the value it hands over is the one the target returned. */
  lemma SuccessMeansCompleted(u: Setup, events: seq<Event>, i: nat)
    requires i < |Exec(u, START, events).log| && Exec(u, START, events).log[i].CallReturn?
    ensures var log := Exec(u, START, events).log;
            && (log[i].success <==> Completed(log[..i]) && WaitExpired !in log[..i])
            && (log[i].success ==>
                  log[i].value.Some? && TargetReturn(log[i].value.value) in log[..i] && TargetThrow !in log)
            && (!log[i].success ==> log[i].value == None)
  {
    RunsKeep(u, events);
    var log := Exec(u, START, events).log;
    assert Allowed(log[..i], log[i]);
    if log[i].success && TargetThrow in log {
      EndsOneWay(log, TargetReturn(log[i].value.value), TargetThrow);
    }
  }

  predicate Ends(o: Obs) {
    o.TargetReturn? || o.TargetThrow?
  }

  /** The target ends at most once, by returning or by throwing. */
  lemma EndsOnce(u: Setup, events: seq<Event>, i: nat, j: nat)
    requires i < |Exec(u, START, events).log| && j < |Exec(u, START, events).log|
    requires Ends(Exec(u, START, events).log[i]) && Ends(Exec(u, START, events).log[j])
    ensures i == j
  {
    RunsKeep(u, events);
    EndsOnceAt(Exec(u, START, events).log, i, j);
  }

  lemma EndsOneWay(log: seq<Obs>, o: Obs, p: Obs)
    requires WellBehaved(log) && Ends(o) && Ends(p) && o in log && p in log
    ensures o == p
  {
    var i :| 0 <= i < |log| && log[i] == o;
    var j :| 0 <= j < |log| && log[j] == p;
    EndsOnceAt(log, i, j);
  }

  lemma EndsOnceAt(log: seq<Obs>, i: nat, j: nat)
    requires WellBehaved(log) && i < |log| && j < |log| && Ends(log[i]) && Ends(log[j])
    ensures i == j
  {
    assert Allowed(log[..j], log[j]) && Allowed(log[..i], log[i]);
    SeenBefore(log, i, j);
    SeenBefore(log, j, i);
  }

  /** A waiting caller whose message was invoked, threw or was cancelled has its signal, whether
      it came before or after the wait began; and no other wait is signalled. */
  lemma SignalledExactlyWhenDisposed(u: Setup, events: seq<Event>)
    ensures var s := Exec(u, START, events);
            s.caller == Dispatched || s.caller == Waiting ==> (s.signaled <==> Disposed(s))
  {
    RunsKeep(u, events);
  }

  /** The caller is through with waiting, if it waited at all. */
  predicate PastWait(c: Caller) {
    c.Locking? || c.Deciding? || c.Clearing? || c.Unlocking? || c.Reading? || c.Returned?
  }

  /** Without an expiry, a caller that went on was signalled, and who is through with the message has
      run the target to its end. */
  ghost predicate Served(s: World) {
    && (PastWait(s.caller) && s.queue != NotQueued && WaitExpired !in s.log ==> Disposed(s))
    && (s.worker == Signalling ==> TargetOver(s.log))
    && ((s.worker == Leaving || s.worker == Finished) && WaitExpired !in s.log ==> TargetOver(s.log))
    && (s.caller.Returned? ==>
          s.caller.success == (Completed(s.log) && WaitExpired !in s.log)
          && (s.queue == NotQueued ==> !s.caller.success))
    && (s.caller.Returned? && s.caller.success ==>
          s.caller.value.Some? && TargetReturn(s.caller.value.value) in s.log)
  }

  lemma CallerServes(u: Setup, s: World, e: CallerEvent)
    requires Inv(u, s) && Served(s)
    ensures Served(CallerStep(u, s, e))
  {
    var s' := CallerStep(u, s, e);
    if s'.log != s.log {
      SeenAppend(s.log, s'.log[|s.log|]);
    }
  }

  lemma WorkerServes(u: Setup, s: World, e: WorkerEvent)
    requires Inv(u, s) && Served(s)
    ensures Served(WorkerStep(s, e))
  {
    var s' := WorkerStep(s, e);
    if s'.log != s.log {
      SeenAppend(s.log, s'.log[|s.log|]);
    }
  }

  lemma {:induction false} RunsServe(u: Setup, events: seq<Event>)
    ensures Served(Exec(u, START, events))
  {
    if events != [] {
      var n := |events| - 1;
      var s := Exec(u, START, events[..n]);
      RunsKeep(u, events[..n]);
      RunsServe(u, events[..n]);
      if events[n].OfCaller? {
        CallerServes(u, s, events[n].c);
      } else {
        WorkerServes(u, s, events[n].w);
      }
    }
  }

  /** The destination thread runs what it takes: once it is through with the message, the target has
      run to its end, unless the wait expired. */
  lemma TakenCallRuns(u: Setup, events: seq<Event>)
    requires var s := Exec(u, START, events); s.worker == Leaving || s.worker == Finished
    ensures var s := Exec(u, START, events); WaitExpired !in s.log ==> TargetOver(s.log)
  {
    RunsServe(u, events);
  }

  /** A call that has returned succeeded if, and only if, its message was queued and taken, the target
      did not throw and the wait did not expire: there is no other reason to fail. */
  lemma CallSucceedsIff(u: Setup, events: seq<Event>)
    requires Exec(u, START, events).caller.Returned?
    ensures var s := Exec(u, START, events);
            s.caller.success <==> s.queue == Taken && TargetThrow !in s.log && WaitExpired !in s.log
  {
    RunsKeep(u, events);
    RunsServe(u, events);
    var s := Exec(u, START, events);
    NotBoth(s.log);
    if s.queue == Queued {
      assert Disposed(s) || WaitExpired in s.log;
    }
  }

  lemma NotBoth(log: seq<Obs>)
    requires WellBehaved(log)
    ensures !(Completed(log) && TargetThrow in log)
  {
    if Completed(log) && TargetThrow in log {
      var o :| o in log && IsReturn(o);
      EndsOneWay(log, o, TargetThrow);
    }
  }

  /** What goes wrong on the way: the dispatch is refused, the message is cancelled, the wait expires,
      the target throws. */
  predicate Disturbs(e: Event) {
    e == OfCaller(Enqueue(false)) || e == OfCaller(Expire) || e == OfWorker(Cancel) || e == OfWorker(Throw)
  }

  ghost predicate Undisturbed(s: World) {
    && s.queue != Cancelled && WaitExpired !in s.log && TargetThrow !in s.log
    && (s.caller == Entry || s.caller == Dispatching || s.queue != NotQueued)
  }

  lemma UndisturbedStep(u: Setup, s: World, e: Event)
    requires Inv(u, s) && Undisturbed(s) && !Disturbs(e) && !u.empty && u.bound
    ensures Undisturbed(Step(u, s, e))
  {
  }

  lemma {:induction false} RunsUndisturbed(u: Setup, events: seq<Event>)
    requires !u.empty && u.bound && forall e | e in events :: !Disturbs(e)
    ensures Undisturbed(Exec(u, START, events))
  {
    if events != [] {
      var n := |events| - 1;
      RunsKeep(u, events[..n]);
      RunsUndisturbed(u, events[..n]);
      UndisturbedStep(u, Exec(u, START, events[..n]), events[n]);
    }
  }

  /** What the caller of a delegate that is bound to a thread can rely on: if the dispatch is accepted,
      the message not cancelled, the wait does not expire and the target does not throw, then a call
      that has returned has run the target and hands over the value it returned. */
  lemma UndisturbedCallSucceeds(u: Setup, events: seq<Event>)
    requires !u.empty && u.bound && (forall e | e in events :: !Disturbs(e))
    requires Exec(u, START, events).caller.Returned?
    ensures var s := Exec(u, START, events);
            && s.caller.success && s.caller.value.Some?
            && TargetStart in s.log && TargetReturn(s.caller.value.value) in s.log
  {
    RunsUndisturbed(u, events);
    RunsServe(u, events);
    RunsKeep(u, events);
    var s := Exec(u, START, events);
    CallSucceedsIff(u, events);
    assert s.queue != Queued;
    var i :| 0 <= i < |s.log| && s.log[i] == TargetReturn(s.caller.value.value);
    TargetStartsFirst(s.log, i);
  }

  /** An empty delegate, or one without a thread, sends nothing; an empty one has returned at once. */
  ghost predicate SendsNothing(u: Setup, s: World) {
    && s.queue == NotQueued && s.caller != Dispatching && s.caller != Dispatched && s.caller != Waiting
    && (u.empty && s.caller == Entry ==> s.log == [])
    && (u.empty && s.caller != Entry ==> s.log == [CallReturn(false, None)] && s.caller == Returned(false, None))
  }

  lemma SendsNothingStep(u: Setup, s: World, e: Event)
    requires Inv(u, s) && SendsNothing(u, s) && (u.empty || !u.bound)
    ensures SendsNothing(u, Step(u, s, e)) && (e == OfCaller(Call) ==> Step(u, s, e).caller != Entry)
    ensures s.caller != Entry ==> Step(u, s, e).caller != Entry
  {
  }

  lemma {:induction false} RunsSendNothing(u: Setup, events: seq<Event>)
    requires u.empty || !u.bound
    ensures SendsNothing(u, Exec(u, START, events))
    ensures OfCaller(Call) in events ==> Exec(u, START, events).caller != Entry
  {
    if events != [] {
      var n := |events| - 1;
      RunsKeep(u, events[..n]);
      RunsSendNothing(u, events[..n]);
      SendsNothingStep(u, Exec(u, START, events[..n]), events[n]);
      assert events == events[..n] + [events[n]];
    }
  }

  /** A call with nothing to run it: the target never starts and the call does not succeed; with an empty
      delegate it is over as soon as it is made, and nothing else is ever seen. */
  lemma NothingToRun(u: Setup, events: seq<Event>)
    requires u.empty || !u.bound
    ensures var s := Exec(u, START, events);
            && TargetStart !in s.log && s.queue == NotQueued && (s.caller.Returned? ==> !s.caller.success)
            && (u.empty ==> s.log == if OfCaller(Call) in events then [CallReturn(false, None)] else [])
  {
    RunsKeep(u, events);
    RunsServe(u, events);
    RunsSendNothing(u, events);
    if u.empty && OfCaller(Call) !in events {
      NotCalled(u, events);
    }
  }

  lemma {:induction false} NotCalled(u: Setup, events: seq<Event>)
    requires OfCaller(Call) !in events
    ensures Exec(u, START, events).caller == Entry && Exec(u, START, events).log == []
  {
    if events != [] {
      var n := |events| - 1;
      RunsKeep(u, events[..n]);
      assert OfCaller(Call) !in events[..n];
      NotCalled(u, events[..n]);
    }
  }

  lemma CancelledStays(u: Setup, s: World, e: Event)
    requires Inv(u, s) && s.queue == Cancelled
    ensures Step(u, s, e).queue == Cancelled
  {
  }

  lemma {:induction false} StaysCancelled(u: Setup, events: seq<Event>, more: seq<Event>)
    requires Exec(u, START, events).queue == Queued
    ensures Exec(u, START, events + [OfWorker(Cancel)] + more).queue == Cancelled
  {
    hide Inv, WellBehaved;
    var cancelled := events + [OfWorker(Cancel)];
    if more == [] {
      assert cancelled + more == cancelled;
      ThenStep(u, events, OfWorker(Cancel));
    } else {
      hide CallerStep, WorkerStep, Step, Exec;
      var n := |more| - 1;
      StaysCancelled(u, events, more[..n]);
      RunsKeep(u, cancelled + more[..n]);
      CancelledStays(u, Exec(u, START, cancelled + more[..n]), more[n]);
      ThenStep(u, cancelled + more[..n], more[n]);
      assert cancelled + more == cancelled + more[..n] + [more[n]];
    }
  }

  lemma CancelledUnseen(u: Setup, s: World)
    requires Inv(u, s) && Served(s) && s.queue == Cancelled
    ensures TargetStart !in s.log && !TargetOver(s.log) && (s.caller.Returned? ==> !s.caller.success)
  {
  }

  /** A message cancelled in the queue: the target never starts, then or later, and the call fails. */
  lemma CancelledNeverRuns(u: Setup, events: seq<Event>, more: seq<Event>)
    requires Exec(u, START, events).queue == Queued
    ensures var s := Exec(u, START, events + [OfWorker(Cancel)] + more);
            && s.queue == Cancelled && TargetStart !in s.log && !TargetOver(s.log)
            && (s.caller.Returned? ==> !s.caller.success)
  {
    hide Exec, Inv, Served, TargetOver;
    var all := events + [OfWorker(Cancel)] + more;
    StaysCancelled(u, events, more);
    RunsKeep(u, all);
    RunsServe(u, all);
    CancelledUnseen(u, Exec(u, START, all));
  }

  lemma ThenStep(u: Setup, events: seq<Event>, e: Event)
    ensures Exec(u, START, events + [e]) == Step(u, Exec(u, START, events), e)
  {
    assert (events + [e])[..|events|] == events;
  }

  /** The message of an ordinary call reaches its target, which can use the caller's arguments. */
  lemma TargetIsReached(u: Setup) returns (events: seq<Event>)
    requires !u.empty && u.bound
    ensures Exec(u, START, events).worker == Running && Exec(u, START, events).caller == Waiting
    ensures Exec(u, START, events).log == [TargetStart, TargetAccess]
  {
    events := [];
    var steps := [OfCaller(Call), OfCaller(Enqueue(true)), OfCaller(BeginWait), OfWorker(Take), OfWorker(Enter),
                  OfWorker(Check), OfWorker(Access)];
    for i := 0 to |steps|
      invariant Exec(u, START, events) == Reached(u, i)
    {
      ThenStep(u, events, steps[i]);
      events := events + [steps[i]];
    }
  }

  function Reached(u: Setup, i: nat): World {
    match i
    case 0 => START
    case 1 => START.(caller := Dispatching, invokerWaiting := true)
    case 2 => Reached(u, 1).(caller := Dispatched, queue := Queued)
    case 3 => Reached(u, 2).(caller := Waiting)
    case 4 => Reached(u, 3).(queue := Taken, worker := Entering)
    case 5 => Reached(u, 4).(worker := Checking, lock := WorkerOwns)
    case 6 => Reached(u, 5).(worker := Running, log := [TargetStart])
    case _ => Reached(u, 6).(log := [TargetStart, TargetAccess])
  }

  lemma InfiniteStep(u: Setup, s: World, e: Event)
    requires u.infinite && WaitExpired !in s.log
    ensures WaitExpired !in Step(u, s, e).log
  {
  }

  /** An infinite wait never expires. */
  lemma {:induction false} InfiniteWaitNeverExpires(u: Setup, events: seq<Event>)
    requires u.infinite
    ensures WaitExpired !in Exec(u, START, events).log
  {
    if events != [] {
      InfiniteWaitNeverExpires(u, events[..|events| - 1]);
      InfiniteStep(u, Exec(u, START, events[..|events| - 1]), events[|events| - 1]);
    }
  }

  /** A finite wait does, if nothing else ends it: a waiting caller goes on at its signal or at the expiry
      of its wait, whatever the destination thread does. */
  lemma FiniteWaitEnds(u: Setup, events: seq<Event>)
    requires !u.infinite && Exec(u, START, events).caller == Waiting
    ensures var e := OfCaller(if Exec(u, START, events).signaled then Wake else Expire);
            Exec(u, START, events + [e]).caller.Locking?
  {
    var e := OfCaller(if Exec(u, START, events).signaled then Wake else Expire);
    assert (events + [e])[..|events|] == events;
  }

  /** How far the caller of a queued message has come. */
  function Stage(c: Caller): nat {
    match c
    case Entry => 0
    case Dispatching => 0
    case Dispatched => 0
    case Waiting => 1
    case Locking(_) => 2
    case Deciding(_) => 3
    case Clearing(_) => 4
    case Unlocking(_) => 5
    case Reading(_) => 6
    case Returned(_, _) => 7
  }

  const NEXT := [BeginWait, Wake, Acquire, Decide, Clear, Release, Fetch]

  /** The caller alone takes its remaining steps, from number `i` on. */
  function Finishing(u: Setup, s: World, i: nat): World
    decreases 7 - i
  {
    if i >= 7 then s else Finishing(u, CallerStep(u, s, NEXT[i]), i + 1)
  }

  predicate Free(s: World) {
    Disposed(s) && s.lock != WorkerOwns
  }

  lemma CallerAdvances(u: Setup, s: World, i: nat)
    requires Inv(u, s) && Free(s) && i < 7 && i <= Stage(s.caller)
    ensures Free(CallerStep(u, s, NEXT[i])) && i < Stage(CallerStep(u, s, NEXT[i]).caller)
  {
  }

  lemma {:induction false} CallerFinishes(u: Setup, s: World, i: nat)
    requires Inv(u, s) && Free(s) && i <= 7 && i <= Stage(s.caller)
    ensures Finishing(u, s, i).caller.Returned?
    decreases 7 - i
  {
    if i < 7 {
      CallerAdvances(u, s, i);
      CallerKeeps(u, s, NEXT[i]);
      CallerFinishes(u, CallerStep(u, s, NEXT[i]), i + 1);
    }
  }

  /** Once the destination thread is through with the message, invoked or cancelled, the call
      returns by the caller's own steps, none of them an expiry: even an infinite wait ends. */
  lemma DisposedCallReturns(u: Setup, events: seq<Event>)
    requires Free(Exec(u, START, events))
    ensures Finishing(u, Exec(u, START, events), 0).caller.Returned?
  {
    RunsKeep(u, events);
    CallerFinishes(u, Exec(u, START, events), 0);
  }

  predicate Moves(u: Setup, s: World, e: Event) {
    Step(u, s, e) != s
  }

  lemma WorkerCanMove(u: Setup, s: World)
    requires Inv(u, s) && (s.queue == Queued || (s.worker != Idle && s.worker != Finished)) && !CallerHolds(s.caller)
    ensures exists w :: Moves(u, s, OfWorker(w))
  {
    var w := match s.worker
      case Idle => Take
      case Entering => Enter
      case Checking => Check
      case Running => Throw
      case Ended(_) => StoreResult
      case Stored(_) => MarkSucceeded
      case Signalling => Signal
      case _ => Leave;
    assert Moves(u, s, OfWorker(w));
  }

  lemma CallerCanMove(u: Setup, s: World)
    requires Inv(u, s) && !s.caller.Returned? && (s.caller.Waiting? ==> s.signaled)
             && (s.caller.Locking? ==> s.lock == Nobody)
    ensures exists c :: c != Expire && Moves(u, s, OfCaller(c))
  {
    var c := match s.caller
      case Entry => Call
      case Dispatching => Enqueue(false)
      case Returned(_, _) => Call
      case _ => NEXT[Stage(s.caller)];
    assert Moves(u, s, OfCaller(c));
  }

  /** No deadlock: until the call has returned, some step other than an expiry is possible. */
  lemma NeverStuck(u: Setup, events: seq<Event>)
    requires !Exec(u, START, events).caller.Returned?
    ensures exists e: Event :: e != OfCaller(Expire) && Moves(u, Exec(u, START, events), e)
  {
    RunsKeep(u, events);
    var s := Exec(u, START, events);
    if (s.caller.Waiting? && !s.signaled) || (s.caller.Locking? && s.lock != Nobody) {
      WorkerCanMove(u, s);
      var w :| Moves(u, s, OfWorker(w));
      assert OfWorker(w) != OfCaller(Expire) && Moves(u, s, OfWorker(w));
    } else {
      CallerCanMove(u, s);
      var c :| c != Expire && Moves(u, s, OfCaller(c));
      assert OfCaller(c) != OfCaller(Expire) && Moves(u, s, OfCaller(c));
    }
  }
}
