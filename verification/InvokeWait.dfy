/**
 * The blocking remote call: a caller waits until the status of its own message arrives. The
 * status can arrive before the send thread has recorded which sequence number the message got;
 * such early statuses are buffered and reconciled when it does. Statuses of all messages reach
 * every waiting call, in any interleaving with the recording.
 */
module InvokeWait {
  import opened Common

  datatype Status = SUCCESS | TIMEOUT

  /** What reaches one call's shared state, each under its mutex. */
  datatype Event =
    | StatusOf(id: uint16, seqNum: uint16, status: Status)
    | Record(seqNum: uint16)

  datatype Wait = Wait(
    complete: bool,
    success: bool,
    seqSet: bool,
    expectedSeq: uint16,
    early: map<uint16, Status>)

  const FRESH := Wait(false, false, false, 0, map[])

  /** The status callback. */
  function StatusStep(w: Wait, remoteId: uint16, id: uint16, seqNum: uint16, status: Status): Wait {
    if id != remoteId then w
    else if !w.seqSet then w.(early := w.early[seqNum := status])
    else if !w.complete && seqNum == w.expectedSeq then w.(complete := true, success := status == SUCCESS)
    else w
  }

  /** The send lambda, after the send. */
  function RecordStep(w: Wait, seqNum: uint16): Wait {
    var t := w.(expectedSeq := seqNum, seqSet := true, early := map[]);
    if seqNum in w.early then t.(complete := true, success := w.early[seqNum] == SUCCESS) else t
  }

  function Step(w: Wait, remoteId: uint16, e: Event): Wait {
    match e
    case StatusOf(id, seqNum, status) => StatusStep(w, remoteId, id, seqNum, status)
    case Record(seqNum) => RecordStep(w, seqNum)
  }

  /** Does the step raise the wake signal? */
  predicate Notifies(w: Wait, remoteId: uint16, e: Event) {
    match e
    case StatusOf(id, seqNum, status) => id == remoteId && w.seqSet && !w.complete && seqNum == w.expectedSeq
    case Record(seqNum) => seqNum in w.early
  }

  /** The shared state of one call, with the two lambdas that change it under its lock. */
  class InvokeWaitState {
    const remoteId: uint16
    var complete: bool
    var success: bool
    var seqSet: bool
    var expectedSeq: uint16
    var early: map<uint16, Status>

    constructor (remoteId: uint16)
      ensures this.remoteId == remoteId && View() == FRESH
    {
      this.remoteId := remoteId;
      complete, success, seqSet, expectedSeq, early := false, false, false, 0, map[];
    }

    ghost function View(): Wait
      reads this
    {
      Wait(complete, success, seqSet, expectedSeq, early)
    }

    method OnStatus(id: uint16, seqNum: uint16, status: Status) returns (notify: bool)
      modifies this
      ensures View() == Step(old(View()), remoteId, StatusOf(id, seqNum, status))
      ensures notify == Notifies(old(View()), remoteId, StatusOf(id, seqNum, status))
    {
      notify := false;
      if id != remoteId {
        return;
      }
      if !seqSet {
        early := early[seqNum := status];
      } else if !complete && seqNum == expectedSeq {
        complete := true;
        success := status == SUCCESS;
        notify := true;
      }
    }

    method RecordSent(seqNum: uint16) returns (notify: bool)
      modifies this
      ensures View() == Step(old(View()), remoteId, Record(seqNum))
      ensures notify == Notifies(old(View()), remoteId, Record(seqNum))
    {
      notify := false;
      expectedSeq := seqNum;
      seqSet := true;
      if seqNum in early {
        complete := true;
        success := early[seqNum] == SUCCESS;
        notify := true;
      }
      early := map[];
    }
  }

  ghost function Run(w: Wait, remoteId: uint16, events: seq<Event>): Wait {
    if events == [] then w
    else Step(Run(w, remoteId, events[..|events| - 1]), remoteId, events[|events| - 1])
  }

  /** How often the signal is raised. */
  ghost function Signals(w: Wait, remoteId: uint16, events: seq<Event>): nat {
    if events == [] then 0
    else
      var n := |events| - 1;
      Signals(w, remoteId, events[..n]) + if Notifies(Run(w, remoteId, events[..n]), remoteId, events[n]) then 1 else 0
  }

  /** The statuses of the message `(remoteId, seqNum)` itself, in order of arrival. */
  ghost function Own(events: seq<Event>, remoteId: uint16, seqNum: uint16): seq<Status> {
    if events == [] then []
    else
      var e := events[|events| - 1];
      Own(events[..|events| - 1], remoteId, seqNum)
        + if e.StatusOf? && e.id == remoteId && e.seqNum == seqNum then [e.status] else []
  }

  ghost predicate OnlyStatuses(events: seq<Event>) {
    forall i | 0 <= i < |events| :: events[i].StatusOf?
  }

  /** Before the sequence number is known, the newest status of every message is kept. */
  lemma {:induction false} Buffered(remoteId: uint16, before: seq<Event>, k: uint16)
    requires OnlyStatuses(before)
    ensures var w := Run(FRESH, remoteId, before);
            && !w.seqSet && !w.complete && !w.success && Signals(FRESH, remoteId, before) == 0
            && (k in w.early <==> Own(before, remoteId, k) != [])
            && (k in w.early ==> w.early[k] == Own(before, remoteId, k)[|Own(before, remoteId, k)| - 1])
  {
    if before != [] {
      Buffered(remoteId, before[..|before| - 1], k);
    }
  }

  /** Of the statuses of one message, the one that decides the call. */
  ghost function Deciding(early: seq<Status>, late: seq<Status>): Option<Status> {
    if early != [] then Some(early[|early| - 1]) else if late != [] then Some(late[0]) else None
  }

  /** Once the sequence number is known, the first status of that message decides. */
  lemma {:induction false} Late(w: Wait, remoteId: uint16, after: seq<Event>)
    requires w.seqSet && w.early == map[] && OnlyStatuses(after)
    ensures var own := Own(after, remoteId, w.expectedSeq);
            && Run(w, remoteId, after)
               == (if w.complete || own == [] then w else w.(complete := true, success := own[0] == SUCCESS))
            && Signals(w, remoteId, after) == if w.complete || own == [] then 0 else 1
  {
    if after != [] {
      Late(w, remoteId, after[..|after| - 1]);
    }
  }

  lemma {:induction false} RunConcat(w: Wait, remoteId: uint16, a: seq<Event>, b: seq<Event>)
    ensures Run(w, remoteId, a + b) == Run(Run(w, remoteId, a), remoteId, b)
    ensures Signals(w, remoteId, a + b) == Signals(w, remoteId, a) + Signals(Run(w, remoteId, a), remoteId, b)
  {
    if b == [] {
      assert a + b == a;
    } else {
      RunConcat(w, remoteId, a, b[..|b| - 1]);
      assert (a + b)[..|a + b| - 1] == a + b[..|b| - 1];
    }
  }

  lemma RunOne(w: Wait, remoteId: uint16, e: Event)
    ensures Run(w, remoteId, [e]) == Step(w, remoteId, e)
    ensures Signals(w, remoteId, [e]) == if Notifies(w, remoteId, e) then 1 else 0
  {
    assert [e][..0] == [];
  }

  /** The state a call ends in, given what decides it. */
  function Final(k: uint16, d: Option<Status>): Wait {
    Wait(d.Some?, d == Some(SUCCESS), true, k, map[])
  }

  lemma Decided(remoteId: uint16, before: seq<Event>, k: uint16, after: seq<Event>)
    requires OnlyStatuses(before) && OnlyStatuses(after)
    ensures var events := before + [Record(k)] + after;
            var d := Deciding(Own(before, remoteId, k), Own(after, remoteId, k));
            Run(FRESH, remoteId, events) == Final(k, d) && Signals(FRESH, remoteId, events) == if d.Some? then 1 else 0
  {
    Buffered(remoteId, before, k);
    RunConcat(FRESH, remoteId, before + [Record(k)], after);
    RunConcat(FRESH, remoteId, before, [Record(k)]);
    RunOne(Run(FRESH, remoteId, before), remoteId, Record(k));
    Late(Run(FRESH, remoteId, before + [Record(k)]), remoteId, after);
  }

  /** In every interleaving: the wake signal is raised at most once, exactly when a status of the
      call's own message arrived, and the call succeeds only if that status was SUCCESS. Statuses
      of other messages, and of other calls, have no influence. */
  lemma WakesForOwnStatusOnly(remoteId: uint16, before: seq<Event>, k: uint16, after: seq<Event>)
    requires OnlyStatuses(before) && OnlyStatuses(after)
    ensures var events := before + [Record(k)] + after;
            var w := Run(FRESH, remoteId, events);
            && Signals(FRESH, remoteId, events) <= 1
            && (Signals(FRESH, remoteId, events) == 1 <==> Own(before, remoteId, k) + Own(after, remoteId, k) != [])
            && (w.complete <==> Signals(FRESH, remoteId, events) == 1)
            && (w.success ==> SUCCESS in Own(before, remoteId, k) + Own(after, remoteId, k))
  {
    Decided(remoteId, before, k, after);
  }

  /** Confluence: when one status arrives for the call's own message, the outcome is the same
      whether it lands before or after the sequence number is recorded, and whatever else arrives. */
  lemma Confluent(remoteId: uint16, before: seq<Event>, k: uint16, after: seq<Event>, before': seq<Event>,
                  after': seq<Event>)
    requires OnlyStatuses(before) && OnlyStatuses(after) && OnlyStatuses(before') && OnlyStatuses(after')
    requires Own(before, remoteId, k) + Own(after, remoteId, k) == Own(before', remoteId, k) + Own(after', remoteId, k)
    requires |Own(before, remoteId, k) + Own(after, remoteId, k)| <= 1
    ensures Run(FRESH, remoteId, before + [Record(k)] + after) == Run(FRESH, remoteId, before' + [Record(k)] + after')
    ensures Signals(FRESH, remoteId, before + [Record(k)] + after)
         == Signals(FRESH, remoteId, before' + [Record(k)] + after')
  {
    Decided(remoteId, before, k, after);
    Decided(remoteId, before', k, after');
    SingleDecides(Own(before, remoteId, k), Own(after, remoteId, k));
    SingleDecides(Own(before', remoteId, k), Own(after', remoteId, k));
  }

  lemma SingleDecides(a: seq<Status>, b: seq<Status>)
    requires |a + b| <= 1
    ensures Deciding(a, b) == if a + b == [] then None else Some((a + b)[0])
  {
  }

  datatype Caller = Sending | Waiting | Reading(woken: bool) | Returned(woken: bool, result: bool)

  /** One call, its semaphore and its caller; `before` and `after` are the statuses that arrived
      before and after the send lambda recorded the number `sent`. */
  datatype World = World(
    wait: Wait,
    posting: nat,              // lambdas that have left the lock and are about to signal
    signaled: bool,
    caller: Caller,
    before: seq<Event>,
    sent: Option<uint16>,
    after: seq<Event>)

  datatype Move =
    | Arrive(id: uint16, seqNum: uint16, status: Status)
    | Sent(seqNum: uint16)
    | SendReturns(ok: bool)
    | Post
    | Wake
    | Expire
    | Read

  const START := World(FRESH, 0, false, Sending, [], None, [])

  function Locked(w: World, remoteId: uint16, e: Event): World {
    w.(wait := Step(w.wait, remoteId, e), posting := w.posting + if Notifies(w.wait, remoteId, e) then 1 else 0)
  }

  /** One atomic step; a move that is not possible now changes nothing. */
  function Moved(w: World, remoteId: uint16, m: Move): World {
    match m
    case Arrive(id, seqNum, status) =>
      var e := StatusOf(id, seqNum, status);
      if w.sent.None? then Locked(w, remoteId, e).(before := w.before + [e])
      else Locked(w, remoteId, e).(after := w.after + [e])
    case Sent(seqNum) =>
      if w.caller == Sending && w.sent.None? then Locked(w, remoteId, Record(seqNum)).(sent := Some(seqNum)) else w
    case SendReturns(ok) =>
      if w.caller == Sending && w.sent.Some? then w.(caller := if ok then Waiting else Reading(false)) else w
    case Post => if w.posting > 0 then w.(posting := w.posting - 1, signaled := true) else w
    case Wake => if w.caller == Waiting && w.signaled then w.(caller := Reading(true), signaled := false) else w
    case Expire => if w.caller == Waiting && !w.signaled then w.(caller := Reading(false)) else w
    case Read => if w.caller.Reading? then w.(caller := Returned(w.caller.woken, w.wait.success)) else w
  }

  function Exec(w: World, remoteId: uint16, moves: seq<Move>): World {
    if moves == [] then w else Moved(Exec(w, remoteId, moves[..|moves| - 1]), remoteId, moves[|moves| - 1])
  }

  ghost function Seen(w: World): seq<Event> {
    w.before + (if w.sent.Some? then [Record(w.sent.value)] else []) + w.after
  }

  /** The shared state is what was seen so far makes of it, and every signal raised is still to be
      posted, posted, or was consumed. */
  ghost predicate Consistent(w: World, remoteId: uint16) {
    && OnlyStatuses(w.before) && OnlyStatuses(w.after) && (w.sent.None? ==> w.after == [] && w.caller == Sending)
    && w.wait == Run(FRESH, remoteId, Seen(w))
    && w.posting + One(w.signaled) + One((w.caller.Reading? || w.caller.Returned?) && w.caller.woken)
       == Signals(FRESH, remoteId, Seen(w))
    && (w.caller.Returned? && w.caller.result ==> w.wait.success)
    && (w.caller.Returned? && w.caller.woken ==> w.caller.result == w.wait.success)
  }

  lemma SeenGrows(w: World, remoteId: uint16, e: Event)
    requires w.wait == Run(FRESH, remoteId, Seen(w))
    ensures Locked(w, remoteId, e).wait == Run(FRESH, remoteId, Seen(w) + [e])
    ensures Signals(FRESH, remoteId, Seen(w) + [e])
         == Signals(FRESH, remoteId, Seen(w)) + Locked(w, remoteId, e).posting - w.posting
  {
    RunConcat(FRESH, remoteId, Seen(w), [e]);
    RunOne(w.wait, remoteId, e);
  }

  lemma ArriveSeen(w: World, e: Event)
    requires w.sent.None? ==> w.after == []
    ensures w.sent.None? ==> Seen(w.(before := w.before + [e])) == Seen(w) + [e]
    ensures w.sent.Some? ==> Seen(w.(after := w.after + [e])) == Seen(w) + [e]
  {
  }

  lemma SeenBounds(w: World, remoteId: uint16)
    requires Consistent(w, remoteId)
    ensures Signals(FRESH, remoteId, Seen(w)) <= 1
    ensures w.wait.complete <==> Signals(FRESH, remoteId, Seen(w)) == 1
    ensures w.sent.Some? ==>
      var k := w.sent.value;
      w.wait == Final(k, Deciding(Own(w.before, remoteId, k), Own(w.after, remoteId, k)))
    ensures w.sent.None? ==> !w.wait.success && !w.wait.complete
  {
    if w.sent.Some? {
      Decided(remoteId, w.before, w.sent.value, w.after);
    } else {
      Buffered(remoteId, w.before, 0);
      assert Seen(w) == w.before;
    }
  }

  lemma ArriveKeeps(w: World, remoteId: uint16, m: Move)
    requires Consistent(w, remoteId) && m.Arrive?
    ensures Consistent(Moved(w, remoteId, m), remoteId)
  {
    hide Own, Deciding;
    var e := StatusOf(m.id, m.seqNum, m.status);
    var w' := Moved(w, remoteId, m);
    SeenGrows(w, remoteId, e);
    ArriveSeen(w, e);
    SeenBounds(w, remoteId);
    assert Seen(w') == Seen(w) + [e];
  }

  lemma SentKeeps(w: World, remoteId: uint16, m: Move)
    requires Consistent(w, remoteId) && m.Sent?
    ensures Consistent(Moved(w, remoteId, m), remoteId)
  {
    if w.caller == Sending && w.sent.None? {
      SeenGrows(w, remoteId, Record(m.seqNum));
      assert Seen(Moved(w, remoteId, m)) == Seen(w) + [Record(m.seqNum)];
    }
  }

  lemma MovedKeeps(w: World, remoteId: uint16, m: Move)
    requires Consistent(w, remoteId)
    ensures Consistent(Moved(w, remoteId, m), remoteId)
  {
    if m.Arrive? {
      ArriveKeeps(w, remoteId, m);
    } else if m.Sent? {
      SentKeeps(w, remoteId, m);
    } else {
      assert Seen(Moved(w, remoteId, m)) == Seen(w);
      SeenBounds(w, remoteId);
    }
  }

  lemma {:induction false} RunsConsistent(remoteId: uint16, moves: seq<Move>)
    ensures Consistent(Exec(START, remoteId, moves), remoteId)
  {
    if moves != [] {
      RunsConsistent(remoteId, moves[..|moves| - 1]);
      MovedKeeps(Exec(START, remoteId, moves[..|moves| - 1]), remoteId, moves[|moves| - 1]);
    }
  }

  /** In every run a call that returns true has seen SUCCESS for exactly the message it sent. */
  lemma TrueMeansAcked(remoteId: uint16, moves: seq<Move>)
    requires Exec(START, remoteId, moves).caller.Returned? && Exec(START, remoteId, moves).caller.result
    ensures var w := Exec(START, remoteId, moves);
            w.sent.Some? && SUCCESS in Own(w.before, remoteId, w.sent.value) + Own(w.after, remoteId, w.sent.value)
  {
    RunsConsistent(remoteId, moves);
    SeenBounds(Exec(START, remoteId, moves), remoteId);
  }

  /** A caller that was woken, and did not time out, has the final answer; and the signal that
      wakes it is raised at most once, exactly when its own status has been reconciled. */
  lemma WokenHasAnswer(remoteId: uint16, moves: seq<Move>)
    ensures var w := Exec(START, remoteId, moves);
            && w.posting + One(w.signaled) + One((w.caller.Reading? || w.caller.Returned?) && w.caller.woken)
               == One(w.wait.complete)
            && (w.caller.Returned? && w.caller.woken ==>
                w.sent.Some?
                && var k := w.sent.value;
                   w.caller.result
                   == (Deciding(Own(w.before, remoteId, k), Own(w.after, remoteId, k)) == Some(SUCCESS)))
  {
    RunsConsistent(remoteId, moves);
    SeenBounds(Exec(START, remoteId, moves), remoteId);
  }

  predicate Unwoken(c: Caller) {
    (c.Reading? || c.Returned?) && !c.woken
  }

  /** A caller that goes on without having been woken had its send refused, or its wait expired. */
  lemma {:induction false} UnwokenHasReason(remoteId: uint16, moves: seq<Move>)
    requires Unwoken(Exec(START, remoteId, moves).caller)
    ensures SendReturns(false) in moves || Expire in moves
  {
    if moves != [] {
      var n := |moves| - 1;
      assert moves == moves[..n] + [moves[n]];
      if Unwoken(Exec(START, remoteId, moves[..n]).caller) {
        UnwokenHasReason(remoteId, moves[..n]);
      }
    }
  }

  /** What the caller can rely on: if its send is not refused and its wait does not expire, a call that
      has returned was answered, and returns true if, and only if, the status that decided it, the last
      one before its number was recorded or else the first one after, was SUCCESS. */
  lemma PatientCallIsAnswered(remoteId: uint16, moves: seq<Move>)
    requires Exec(START, remoteId, moves).caller.Returned? && SendReturns(false) !in moves && Expire !in moves
    ensures var w := Exec(START, remoteId, moves);
            && w.sent.Some?
            && var k := w.sent.value;
               var deciding := Deciding(Own(w.before, remoteId, k), Own(w.after, remoteId, k));
               deciding.Some? && w.caller.result == (deciding == Some(SUCCESS))
  {
    if !Exec(START, remoteId, moves).caller.woken {
      UnwokenHasReason(remoteId, moves);
    }
    WokenHasAnswer(remoteId, moves);
    RunsConsistent(remoteId, moves);
    SeenBounds(Exec(START, remoteId, moves), remoteId);
  }

  /** The call's own steps, up to its return. */
  predicate OfCaller(m: Move) {
    m.Sent? || m.SendReturns? || m.Wake? || m.Expire? || m.Read?
  }

  /** From any point of any run the caller's own steps, whether its send succeeds or not, bring the call
      to its return, and none of them waits for a status. */
  lemma CallerCanReturn(remoteId: uint16, moves: seq<Move>, seqNum: uint16, ok: bool) returns (more: seq<Move>)
    ensures Exec(START, remoteId, moves + more).caller.Returned? && |more| <= 4
    ensures (forall m | m in more :: OfCaller(m)) && SendReturns(!ok) !in more
  {
    hide Consistent, Moved;
    more := [];
    assert moves + more == moves;
    RunsConsistent(remoteId, moves);
    while !Exec(START, remoteId, moves + more).caller.Returned?
      invariant Consistent(Exec(START, remoteId, moves + more), remoteId)
      invariant |more| + StepsLeft(Exec(START, remoteId, moves + more)) <= 4
      invariant (forall m | m in more :: OfCaller(m)) && SendReturns(!ok) !in more
      decreases StepsLeft(Exec(START, remoteId, moves + more))
    {
      var w := Exec(START, remoteId, moves + more);
      var m := NextOf(w, seqNum, ok);
      NextIsCloser(w, remoteId, seqNum, ok);
      MovedKeeps(w, remoteId, m);
      assert (moves + (more + [m]))[..|moves + more|] == moves + more;
      more := more + [m];
    }
  }

  lemma NextIsCloser(w: World, remoteId: uint16, seqNum: uint16, ok: bool)
    requires !w.caller.Returned?
    ensures StepsLeft(Moved(w, remoteId, NextOf(w, seqNum, ok))) < StepsLeft(w)
    ensures OfCaller(NextOf(w, seqNum, ok)) && NextOf(w, seqNum, ok) != SendReturns(!ok)
  {
  }

  function StepsLeft(w: World): nat {
    match w.caller
    case Sending => if w.sent.None? then 4 else 3
    case Waiting => 2
    case Reading(_) => 1
    case Returned(_, _) => 0
  }

  function NextOf(w: World, seqNum: uint16, ok: bool): Move {
    match w.caller
    case Sending => if w.sent.None? then Sent(seqNum) else SendReturns(ok)
    case Waiting => if w.signaled then Wake else Expire
    case _ => Read
  }

  /** No lost wake-up: a caller that waits for an answer that is there can be woken, now or after the
      signal that is on its way. */
  lemma AnsweredCallerCanWake(remoteId: uint16, moves: seq<Move>)
    requires var w := Exec(START, remoteId, moves); w.caller == Waiting && w.wait.complete
    ensures Exec(START, remoteId, moves + [Wake]).caller == Reading(true)
         || Exec(START, remoteId, moves + [Post] + [Wake]).caller == Reading(true)
  {
    WokenHasAnswer(remoteId, moves);
    assert (moves + [Wake])[..|moves|] == moves;
    assert (moves + [Post])[..|moves|] == moves;
    assert (moves + [Post] + [Wake])[..|moves| + 1] == moves + [Post];
  }
}
