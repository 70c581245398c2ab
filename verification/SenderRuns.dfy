/**
 * Runs of the serialised sender on values: what one send, ACK or `Process` call does to its state,
 * how many TIMEOUTs a stored message has had, and why it does not stay stored for ever.
 */
module SenderRuns {
  import opened Common
  import opened SenderSpec
  import opened DrainSpec

  datatype Event =
    | Send(packet: Packet, clock: nat -> int, result: nat -> int)
    | Ack(seqNum: uint16, remoteId: uint16)
    | Tick(clock: nat -> int, result: nat -> int)
  {
    /** During one `Process` call the clock advances by no more than the timeout. */
    ghost predicate Steady(timeout: int) {
      Tick? ==> Window(clock, 0, clock(0), clock(0) + timeout)
    }
  }

  /** An ACK with remote id 0 names a number only. */
  predicate Matches(seqNum: uint16, remoteId: uint16, k: Header) {
    k.seqNum == seqNum && (remoteId == 0 || remoteId == k.id)
  }

  /** The entry `Remove` takes: the first, in key order, that the ACK matches. */
  ghost predicate Picks(pending: map<Header, TimeoutData>, seqNum: uint16, remoteId: uint16, k: Header) {
    && k in pending && Matches(seqNum, remoteId, k)
    && forall j | j in pending && Matches(seqNum, remoteId, j) :: j == k || Before(k, j)
  }

  ghost predicate SendStep(s: State, s': State, p: Packet, maxRetries: int, now: int, result: int) {
    s' == if p.header in s.store then s else Submitted(s, p, maxRetries, now, result)
  }

  ghost predicate AckStep(s: State, s': State, seqNum: uint16, remoteId: uint16) {
    || (exists k :: Picks(s.pending, seqNum, remoteId, k) && s' == Acknowledged(s, k))
    || (s' == s && forall k | k in s.pending :: !Matches(seqNum, remoteId, k))
  }

  /** One `Process` call that reported `ks`. */
  ghost predicate TickStep(s: State, s': State, ks: seq<Header>, now: int, timeout: int) {
    && Settled(s, s', ks) && Distinct(ks)
    && forall k | k in s.pending && Expired(s.pending[k], now, timeout) :: k in ks
  }

  ghost predicate Step(e: Event, s: State, s': State, maxRetries: int, timeout: int) {
    match e
    case Send(p, clock, result) => SendStep(s, s', p, maxRetries, clock(0), result(|s.wire|))
    case Ack(seqNum, remoteId) => AckStep(s, s', seqNum, remoteId)
    case Tick(clock, _) => exists ks :: TickStep(s, s', ks, clock(0), timeout)
  }

  ghost function Count(ks: seq<Header>, k: Header): nat {
    if ks == [] then 0 else Count(ks[..|ks| - 1], k) + if ks[|ks| - 1] == k then 1 else 0
  }

  lemma {:induction false} CountAppend(ks: seq<Header>, ls: seq<Header>, k: Header)
    ensures Count(ks + ls, k) == Count(ks, k) + Count(ls, k)
  {
    if ls == [] {
      assert ks + ls == ks;
    } else {
      var n := |ls| - 1;
      CountAppend(ks, ls[..n], k);
      assert (ks + ls)[..|ks + ls| - 1] == ks + ls[..n];
    }
  }

  lemma {:induction false} CountDistinct(ks: seq<Header>, k: Header)
    requires Distinct(ks)
    ensures Count(ks, k) == if k in ks then 1 else 0
  {
    if ks != [] {
      var n := |ks| - 1;
      CountDistinct(ks[..n], k);
      assert ks == ks[..n] + [ks[n]];
    }
  }

  /** The TIMEOUTs of each stored message since it was stored, `since[k]` being where its account
      begins, and the attempts it has left add up to the attempts it was given. */
  ghost predicate Accounted(store: map<Header, RetryEntry>, timeouts: seq<Header>, since: map<Header, Mark>,
                            maxRetries: int) {
    forall k | k in store ::
      && k in since && since[k].timeouts <= |timeouts|
      && Count(timeouts[since[k].timeouts..], k) + store[k].attemptsRemaining == maxRetries
  }

  /** Attempts are not overdrawn. */
  ghost predicate InRange(store: map<Header, RetryEntry>, maxRetries: int) {
    forall k | k in store ::
      if maxRetries >= 0 then store[k].attemptsRemaining >= 0 else store[k].attemptsRemaining == maxRetries
  }

  /** So do its physical sends since it was stored, the first one included. */
  ghost predicate Spent(store: map<Header, RetryEntry>, wire: seq<Packet>, since: map<Header, Mark>, maxRetries: int) {
    forall k | k in store ::
      && k in since && since[k].sends <= |wire|
      && WireCount(wire[since[k].sends..], k) + store[k].attemptsRemaining == 1 + maxRetries
  }

  ghost predicate Kept(s: State, timeouts: seq<Header>, since: map<Header, Mark>, maxRetries: int) {
    && Inv(s, {}, maxRetries)
    && Accounted(s.store, timeouts, since, maxRetries) && Spent(s.store, s.wire, since, maxRetries)
    && InRange(s.store, maxRetries)
  }

  lemma SubmitAccounts(s: State, s': State, timeouts: seq<Header>, since: map<Header, Mark>, p: Packet, maxRetries: int,
                       now: int, sent: bool)
    requires Accounted(s.store, timeouts, since, maxRetries) && SubmitOutcome(s, s', p, maxRetries, now, sent)
    requires p.header !in s.store
    ensures Accounted(s'.store, timeouts, since[p.header := Mark(|timeouts|, |s.wire|)], maxRetries)
  {
    assert timeouts[|timeouts|..] == [];
  }

  lemma SentSpends(wire: seq<Packet>, p: Packet, m: nat, k: Header)
    requires m <= |wire|
    ensures WireCount((wire + [p])[m..], k) == WireCount(wire[m..], k) + if p.header == k then 1 else 0
  {
    assert (wire + [p])[m..] == wire[m..] + [p];
    WireCountAppend(wire[m..], p);
  }

  lemma SubmitSpends(s: State, s': State, timeouts: seq<Header>, since: map<Header, Mark>, p: Packet, maxRetries: int,
                     now: int, sent: bool)
    requires Spent(s.store, s.wire, since, maxRetries) && SubmitOutcome(s, s', p, maxRetries, now, sent)
    requires p.header !in s.store
    ensures Spent(s'.store, s'.wire, since[p.header := Mark(|timeouts|, |s.wire|)], maxRetries)
  {
    var since' := since[p.header := Mark(|timeouts|, |s.wire|)];
    hide WireCount;
    forall k | k in s'.store
      ensures k in since' && since'[k].sends <= |s'.wire|
      ensures WireCount(s'.wire[since'[k].sends..], k) + s'.store[k].attemptsRemaining == 1 + maxRetries
    {
      SentSpends(s.wire, p, since'[k].sends, k);
      assert s.wire[|s.wire|..] == [];
      NothingCounted(k);
    }
  }

  lemma NothingCounted(k: Header)
    ensures WireCount([], k) == 0
  {
  }

  lemma SubmitInRange(s: State, s': State, p: Packet, maxRetries: int, now: int, sent: bool)
    requires InRange(s.store, maxRetries) && SubmitOutcome(s, s', p, maxRetries, now, sent)
    ensures InRange(s'.store, maxRetries)
  {
  }

  lemma SubmitKept(s: State, timeouts: seq<Header>, since: map<Header, Mark>, p: Packet, maxRetries: int, now: int,
                   result: int)
    requires Kept(s, timeouts, since, maxRetries) && p.header !in s.store
    ensures Kept(Submitted(s, p, maxRetries, now, result), timeouts, since[p.header := Mark(|timeouts|, |s.wire|)],
                 maxRetries)
  {
    hide Submitted, Accounted, Spent, InRange, SubmitOutcome;
    var sent := Room(s.pending, p.header) && result == 0;
    SubmitKeeps(s, p, maxRetries, now, result);
    SubmitCases(s, p, maxRetries, now, result);
    SubmitAccounts(s, Submitted(s, p, maxRetries, now, result), timeouts, since, p, maxRetries, now, sent);
    SubmitSpends(s, Submitted(s, p, maxRetries, now, result), timeouts, since, p, maxRetries, now, sent);
    SubmitInRange(s, Submitted(s, p, maxRetries, now, result), p, maxRetries, now, sent);
  }

  lemma AckKept(s: State, timeouts: seq<Header>, since: map<Header, Mark>, k: Header, maxRetries: int)
    requires Kept(s, timeouts, since, maxRetries) && k in s.pending
    ensures Kept(Acknowledged(s, k), timeouts, since, maxRetries)
  {
    AckKeeps(s, k, maxRetries);
    AckDrops(s, k);
    hide Inv, Acknowledged;
  }

  lemma AckDrops(s: State, k: Header)
    ensures Acknowledged(s, k).wire == s.wire
    ensures forall j | j in Acknowledged(s, k).store :: j in s.store && Acknowledged(s, k).store[j] == s.store[j]
  {
  }

  lemma TickAccounts(store: map<Header, RetryEntry>, store': map<Header, RetryEntry>, timeouts: seq<Header>,
                     ks: seq<Header>, since: map<Header, Mark>, maxRetries: int)
    requires Accounted(store, timeouts, since, maxRetries) && Distinct(ks)
    requires forall k | k !in ks :: SameAt(store, store', k)
    requires forall k | k in ks :: k in store && OneLess(store[k], store', k)
    ensures Accounted(store', timeouts + ks, since, maxRetries)
  {
    forall k | k in store'
      ensures k in store
      ensures k in since && since[k].timeouts <= |timeouts|
      ensures Count((timeouts + ks)[since[k].timeouts..], k) + store'[k].attemptsRemaining == maxRetries
    {
      assert SameAt(store, store', k) || k in ks;
      assert (timeouts + ks)[since[k].timeouts..] == timeouts[since[k].timeouts..] + ks;
      CountAppend(timeouts[since[k].timeouts..], ks, k);
      CountDistinct(ks, k);
    }
  }

  /** A drain sends the packet of a message once if it reports the message and attempts are left. */
  lemma {:induction false} ResentOnce(store: map<Header, RetryEntry>, ks: seq<Header>, k: Header)
    requires Keyed(store) && Distinct(ks)
    ensures WireCount(Resent(store, ks), k) == if k in ks && k in store && store[k].attemptsRemaining > 0 then 1 else 0
  {
    if ks != [] {
      var n := |ks| - 1;
      ResentOnce(store, ks[..n], k);
      assert ks == ks[..n] + [ks[n]];
      if ks[n] in store && store[ks[n]].attemptsRemaining > 0 {
        WireCountAppend(Resent(store, ks[..n]), store[ks[n]].packet);
      } else {
        assert Resent(store, ks) == Resent(store, ks[..n]);
      }
    }
  }

  lemma SentOnce(store: map<Header, RetryEntry>, wire: seq<Packet>, ks: seq<Header>, since: map<Header, Mark>,
                 maxRetries: int, k: Header)
    requires Keyed(store) && Spent(store, wire, since, maxRetries) && Distinct(ks) && k in store
    ensures k in since && since[k].sends <= |wire|
    ensures WireCount((wire + Resent(store, ks))[since[k].sends..], k) + store[k].attemptsRemaining
         == 1 + maxRetries + if k in ks && store[k].attemptsRemaining > 0 then 1 else 0
  {
    hide Keyed, WireCount, Resent;
    assert (wire + Resent(store, ks))[since[k].sends..] == wire[since[k].sends..] + Resent(store, ks);
    WireCountConcat(wire[since[k].sends..], Resent(store, ks), k);
    ResentOnce(store, ks, k);
  }

  lemma TickSpends(s: State, s': State, ks: seq<Header>, since: map<Header, Mark>, maxRetries: int)
    requires Spent(s.store, s.wire, since, maxRetries) && Keyed(s.store) && Settled(s, s', ks) && Distinct(ks)
    ensures Spent(s'.store, s'.wire, since, maxRetries)
  {
    forall k | k in s'.store
      ensures k in s.store
      ensures k in since && since[k].sends <= |s'.wire|
      ensures WireCount(s'.wire[since[k].sends..], k) + s'.store[k].attemptsRemaining == 1 + maxRetries
    {
      assert SameAt(s.store, s'.store, k) || k in ks;
      SentOnce(s.store, s.wire, ks, since, maxRetries, k);
    }
  }

  lemma TickInRange(store: map<Header, RetryEntry>, store': map<Header, RetryEntry>, ks: seq<Header>, maxRetries: int)
    requires InRange(store, maxRetries)
    requires forall k | k !in ks :: SameAt(store, store', k)
    requires forall k | k in ks :: k in store && OneLess(store[k], store', k)
    ensures InRange(store', maxRetries)
  {
    forall k | k in store'
      ensures if maxRetries >= 0 then store'[k].attemptsRemaining >= 0 else store'[k].attemptsRemaining == maxRetries
    {
      assert SameAt(store, store', k) || k in ks;
    }
  }

  lemma TickKept(s: State, s': State, timeouts: seq<Header>, ks: seq<Header>, since: map<Header, Mark>, maxRetries: int)
    requires Kept(s, timeouts, since, maxRetries) && Inv(s', {}, maxRetries) && Settled(s, s', ks) && Distinct(ks)
    ensures Kept(s', timeouts + ks, since, maxRetries)
  {
    TickAccounts(s.store, s'.store, timeouts, ks, since, maxRetries);
    TickSpends(s, s', ks, since, maxRetries);
    TickInRange(s.store, s'.store, ks, maxRetries);
  }

  lemma SentInAll(s: State, s': State, ks: seq<Header>, since: map<Header, Mark>, maxRetries: int, k: Header)
    requires Keyed(s.store) && Spent(s.store, s.wire, since, maxRetries) && Settled(s, s', ks) && Distinct(ks)
    requires k in ks && s.store[k].attemptsRemaining <= 0
    ensures k in since && since[k].sends <= |s.wire| <= |s'.wire|
    ensures WireCount(s'.wire[since[k].sends..], k) + s.store[k].attemptsRemaining == 1 + maxRetries
    ensures k !in s'.store
  {
    hide Keyed, Spent, WireCount, Resent;
    SentOnce(s.store, s.wire, ks, since, maxRetries, k);
  }

  /** A message is given up for want of attempts only after all its physical sends: the first and every
      retry, no more and no fewer; and it is reported failed then. */
  lemma GivenUpAfterAllSends(s: State, s': State, timeouts: seq<Header>, since: map<Header, Mark>, ks: seq<Header>,
                             maxRetries: int, k: Header)
    requires Kept(s, timeouts, since, maxRetries) && Inv(s', {}, maxRetries) && Settled(s, s', ks) && Distinct(ks)
    requires k in ks && s.store[k].attemptsRemaining <= 0
    ensures k !in s'.store && s'.failed[k] == s.failed[k] + 1
    ensures k in since && since[k].sends <= |s'.wire|
    ensures WireCount(s'.wire[since[k].sends..], k) == Budget(maxRetries)
  {
    assert Conserved(s) && Conserved(s') && s'.started == s.started && s'.acked == s.acked;
    SentInAll(s, s', ks, since, maxRetries, k);
    EndedOrStored(s, s', maxRetries, k);
    hide MapsAgree, WithinBudget, Spent, Settled;
    assert s'.started[k] == s'.acked[k] + s'.failed[k];
    assert s.started[k] == s.acked[k] + s.failed[k] + 1;
  }

  /** The states between the events of a run; the invariant holds at each. */
  ghost predicate IsRun(states: seq<State>, events: seq<Event>, maxRetries: int, timeout: int) {
    && |states| == |events| + 1
    && (forall i | 0 <= i < |states| :: Inv(states[i], {}, maxRetries))
    && (forall i | 0 <= i < |events| :: Step(events[i], states[i], states[i + 1], maxRetries, timeout))
  }

  lemma RunGrows(states: seq<State>, events: seq<Event>, i: nat, s': State, maxRetries: int, timeout: int)
    requires i < |events| && IsRun(states, events[..i], maxRetries, timeout) && Inv(s', {}, maxRetries)
    requires Step(events[i], states[i], s', maxRetries, timeout)
    ensures IsRun(states + [s'], events[..i + 1], maxRetries, timeout)
  {
    hide Step, Inv;
    assert events[..i + 1] == events[..i] + [events[i]];
  }

  /** At the start of the tick `e` the message is overdue. */
  predicate Hit(e: Event, s: State, timeout: int, k: Header) {
    e.Tick? && k in s.pending && Expired(s.pending[k], e.clock(0), timeout)
  }

  /** At how many ticks of the run the message was overdue. */
  ghost function Hits(states: seq<State>, events: seq<Event>, timeout: int, k: Header): nat
    requires |states| == |events| + 1
  {
    if events == [] then 0 else
      (if Hit(events[0], states[0], timeout, k) then 1 else 0) + Hits(states[1..], events[1..], timeout, k)
  }

  function Outcomes(s: State, k: Header): nat {
    s.acked[k] + s.failed[k]
  }

  /** No event takes a start or an outcome back. */
  ghost predicate Grown(s: State, s': State, k: Header) {
    s.started[k] <= s'.started[k] && Outcomes(s, k) <= Outcomes(s', k)
  }

  lemma AckedAt(s: State, j: Header, k: Header)
    requires j in s.store
    ensures Grown(s, Acknowledged(s, j), k) && Acknowledged(s, j).started == s.started
    ensures j != k ==> SameAt(s.store, Acknowledged(s, j).store, k)
    ensures j == k ==> Outcomes(Acknowledged(s, j), k) > Outcomes(s, k)
  {
  }

  lemma SubmittedAt(s: State, s': State, p: Packet, maxRetries: int, now: int, sent: bool, k: Header)
    requires SubmitOutcome(s, s', p, maxRetries, now, sent) && p.header !in s.store
    ensures Grown(s, s', k) && (k in s.store ==> SameAt(s.store, s'.store, k) && s'.started[k] == s.started[k])
    ensures k == p.header ==> s'.started[k] == s.started[k] + 1
  {
  }

  /** Stored before: ended now, or stored still, with an attempt less if it was overdue at a tick. */
  ghost predicate Moved(e: Event, s: State, s': State, timeout: int, k: Header) {
    || Outcomes(s', k) > Outcomes(s, k)
    || (k in s'.store && Credit(s'.store, k) + (if Hit(e, s, timeout, k) then 1 else 0) <= Credit(s.store, k))
  }

  lemma EndedOrStored(s: State, s': State, maxRetries: int, k: Header)
    requires Conserved(s) && Conserved(s') && k in s.store && s'.started[k] == s.started[k]
    ensures k in s'.store || Outcomes(s', k) > Outcomes(s, k)
    ensures k in s'.store ==> Outcomes(s', k) == Outcomes(s, k)
  {
    assert s.started[k] == s.acked[k] + s.failed[k] + 1;
    assert s'.started[k] == s'.acked[k] + s'.failed[k] + if k in s'.store then 1 else 0;
  }

  lemma SendMoves(e: Event, s: State, s': State, maxRetries: int, timeout: int, k: Header)
    requires e.Send? && SendStep(s, s', e.packet, maxRetries, e.clock(0), e.result(|s.wire|))
    ensures Grown(s, s', k)
    ensures k in s.store ==> Moved(e, s, s', timeout, k)
  {
    if e.packet.header !in s.store {
      var now, result := e.clock(0), e.result(|s.wire|);
      SubmitCases(s, e.packet, maxRetries, now, result);
      SubmittedAt(s, s', e.packet, maxRetries, now, Room(s.pending, e.packet.header) && result == 0, k);
    }
  }

  lemma AckedMoves(e: Event, s: State, j: Header, maxRetries: int, timeout: int, k: Header)
    requires Inv(s, {}, maxRetries) && j in s.pending && e.Ack?
    ensures Grown(s, Acknowledged(s, j), k)
    ensures k in s.store ==> Moved(e, s, Acknowledged(s, j), timeout, k)
  {
    assert j in s.store;
    AckedAt(s, j, k);
  }

  lemma AckMoves(e: Event, s: State, s': State, maxRetries: int, timeout: int, k: Header)
    requires Inv(s, {}, maxRetries) && e.Ack? && AckStep(s, s', e.seqNum, e.remoteId)
    ensures Grown(s, s', k)
    ensures k in s.store ==> Moved(e, s, s', timeout, k)
  {
    if s' != s {
      var j :| Picks(s.pending, e.seqNum, e.remoteId, j) && s' == Acknowledged(s, j);
      AckedMoves(e, s, j, maxRetries, timeout, k);
    }
  }

  lemma TickMoves(e: Event, s: State, s': State, maxRetries: int, timeout: int, k: Header)
    requires Inv(s, {}, maxRetries) && Inv(s', {}, maxRetries) && e.Tick?
    requires Step(e, s, s', maxRetries, timeout)
    ensures Grown(s, s', k)
    ensures k in s.store ==> Moved(e, s, s', timeout, k)
  {
    var ks :| TickStep(s, s', ks, e.clock(0), timeout);
    assert Conserved(s) && Conserved(s');
    if k in s.store {
      EndedOrStored(s, s', maxRetries, k);
    }
    assert SameAt(s.store, s'.store, k) || (k in ks && OneLess(s.store[k], s'.store, k));
  }

  lemma StepMoves(e: Event, s: State, s': State, maxRetries: int, timeout: int, k: Header)
    requires Inv(s, {}, maxRetries) && Inv(s', {}, maxRetries) && Step(e, s, s', maxRetries, timeout)
    ensures Grown(s, s', k)
    ensures k in s.store ==> Moved(e, s, s', timeout, k)
  {
    match e
    case Send(_, _, _) => SendMoves(e, s, s', maxRetries, timeout, k);
    case Ack(_, _) => AckMoves(e, s, s', maxRetries, timeout, k);
    case Tick(_, _) => TickMoves(e, s, s', maxRetries, timeout, k);
  }

  lemma RunTail(states: seq<State>, events: seq<Event>, maxRetries: int, timeout: int)
    requires IsRun(states, events, maxRetries, timeout) && events != []
    ensures IsRun(states[1..], events[1..], maxRetries, timeout)
    ensures Step(events[0], states[0], states[1], maxRetries, timeout)
  {
  }

  /** A stored message is settled in the course of a run, or it has paid for each tick at which it
      was overdue with an attempt. */
  lemma {:induction false} OverdueIsPaid(states: seq<State>, events: seq<Event>, maxRetries: int, timeout: int,
                                         k: Header)
    requires IsRun(states, events, maxRetries, timeout)
    ensures Grown(states[0], states[|events|], k)
    ensures k in states[0].store ==>
      || Outcomes(states[|events|], k) > Outcomes(states[0], k)
      || Hits(states, events, timeout, k) + Credit(states[|events|].store, k) <= Credit(states[0].store, k)
  {
    if events != [] {
      RunTail(states, events, maxRetries, timeout);
      StepMoves(events[0], states[0], states[1], maxRetries, timeout, k);
      OverdueIsPaid(states[1..], events[1..], maxRetries, timeout, k);
    }
  }

  /** No message stays stored for ever: in any run of sends, ACKs and `Process` calls, one that was
      overdue at more ticks than it had attempts left was ACKed or reported failed. */
  lemma EndsWithinBudget(states: seq<State>, events: seq<Event>, maxRetries: int, timeout: int, k: Header)
    requires IsRun(states, events, maxRetries, timeout)
    requires k in states[0].store && Hits(states, events, timeout, k) > Credit(states[0].store, k)
    ensures Outcomes(states[|events|], k) > Outcomes(states[0], k)
  {
    OverdueIsPaid(states, events, maxRetries, timeout, k);
  }

  /** Every stored message that was overdue at more ticks of a run than it had attempts left was
      ACKed or reported failed in it. */
  ghost predicate NoneOutlivesItsAttempts(states: seq<State>, events: seq<Event>, timeout: int)
    requires |states| == |events| + 1
  {
    forall k | k in states[0].store && Hits(states, events, timeout, k) > Credit(states[0].store, k) ::
      Outcomes(states[|events|], k) > Outcomes(states[0], k)
  }

  /** Every message sent in a run was started. */
  ghost predicate AllStarted(states: seq<State>, events: seq<Event>)
    requires |states| == |events| + 1
  {
    && states[0].started <= states[|events|].started
    && forall i | 0 <= i < |events| && events[i].Send? :: events[i].packet.header in states[|events|].started
  }

  lemma RunEndsWithinBudget(states: seq<State>, events: seq<Event>, maxRetries: int, timeout: int)
    requires IsRun(states, events, maxRetries, timeout)
    ensures NoneOutlivesItsAttempts(states, events, timeout)
  {
    forall k | k in states[0].store && Hits(states, events, timeout, k) > Credit(states[0].store, k)
      ensures Outcomes(states[|events|], k) > Outcomes(states[0], k)
    {
      EndsWithinBudget(states, events, maxRetries, timeout, k);
    }
  }

  lemma SentWasStarted(states: seq<State>, events: seq<Event>, maxRetries: int, timeout: int, i: nat)
    requires IsRun(states, events, maxRetries, timeout) && i < |events| && events[i].Send?
    ensures events[i].packet.header in states[i + 1].started
  {
    var p, s := events[i].packet, states[i];
    assert Step(events[i], s, states[i + 1], maxRetries, timeout) && Inv(s, {}, maxRetries);
    if p.header in s.store {
      StoredWasStarted(s, p.header);
    } else {
      SubmittedStarts(s, p, maxRetries, events[i].clock(0), events[i].result(|s.wire|));
    }
  }

  lemma RunStarts(states: seq<State>, events: seq<Event>, maxRetries: int, timeout: int)
    requires IsRun(states, events, maxRetries, timeout)
    ensures AllStarted(states, events)
  {
    assert |states| == |events| + 1;
    hide IsRun, Hits;
    forall k
      ensures states[0].started[k] <= states[|events|].started[k]
    {
      OverdueIsPaid(states, events, maxRetries, timeout, k);
    }
    forall i | 0 <= i < |events| && events[i].Send?
      ensures events[i].packet.header in states[|events|].started
    {
      StaysStarted(states, events, maxRetries, timeout, i);
    }
  }

  lemma StaysStarted(states: seq<State>, events: seq<Event>, maxRetries: int, timeout: int, i: nat)
    requires IsRun(states, events, maxRetries, timeout) && i < |events| && events[i].Send?
    ensures events[i].packet.header in states[|events|].started
  {
    assert |states| == |events| + 1;
    hide IsRun, Hits;
    SentWasStarted(states, events, maxRetries, timeout, i);
    RunFrom(states, events, maxRetries, timeout, i + 1);
    OverdueIsPaid(states[i + 1..], events[i + 1..], maxRetries, timeout, events[i].packet.header);
  }

  lemma RunFrom(states: seq<State>, events: seq<Event>, maxRetries: int, timeout: int, i: nat)
    requires IsRun(states, events, maxRetries, timeout) && i <= |events|
    ensures IsRun(states[i..], events[i..], maxRetries, timeout)
  {
  }
}
