/**
 * The sending half of the reliable delivery protocol, as functions on a value: what a send, an
 * ACK and a TIMEOUT do to the pending map of `TransportMonitor` and the packet store of
 * `RetryMonitor`, and the invariant all of them keep when they run one at a time.
 */
module SenderSpec {
  import opened Common
  import opened MapFacts

  const MAX_TIMER_EXPIRED: nat := 16
  const MAX_TRANSPORT_MONITOR_PENDING: nat := 100

  datatype Header = Header(id: uint16, seqNum: uint16)
  datatype Packet = Packet(header: Header, data: seq<bv8>)
  datatype RetryEntry = RetryEntry(packet: Packet, attemptsRemaining: int, isSent: bool)
  datatype TimeoutData = TimeoutData(remoteId: uint16, seqNum: uint16, timeStamp: int)
  datatype Status = SUCCESS | TIMEOUT
  datatype MonitorOp =
    | AddOp(seqNum: uint16, remoteId: uint16)
    | RemoveOp(seqNum: uint16, remoteId: uint16)
    | CancelOp(seqNum: uint16, remoteId: uint16)

  /** The 32-bit composite map key, `(id << 16) | seqNum`; maps iterate in its order. */
  function KeyBits(h: Header): nat {
    h.id * 0x1_0000 + h.seqNum
  }

  /** The order in which a map visits its keys. */
  predicate Before(a: Header, b: Header) {
    a.id < b.id || (a.id == b.id && a.seqNum < b.seqNum)
  }

  /** The composite key fits 32 bits, identifies its header and orders headers by id, then by
      sequence number; the maps below are therefore keyed by the header itself. */
  lemma KeyBitsFaithful(a: Header, b: Header)
    ensures KeyBits(a) < 0x1_0000_0000
    ensures KeyBits(a) == KeyBits(b) <==> a == b
    ensures KeyBits(a) < KeyBits(b) <==> Before(a, b)
  {
  }

  /** The key a map iterator points at: the least of those not visited yet. */
  lemma LeastExists(s: set<Header>)
    requires s != {}
    ensures exists k :: k in s && forall j | j in s :: j == k || Before(k, j)
  {
    var x :| x in s;
    if s == {x} {
      assert x in s && forall j | j in s :: j == x || Before(x, j);
    } else {
      LeastExists(s - {x});
      var m :| m in s - {x} && forall j | j in s - {x} :: j == m || Before(m, j);
      var least := if Before(x, m) then x else m;
      forall j | j in s
        ensures j == least || Before(least, j)
      {
        assert j == x || j in s - {x};
      }
    }
  }

  predicate Expired(d: TimeoutData, now: int, timeout: int) {
    now - d.timeStamp > timeout
  }

  /** Where, in the log of TIMEOUTs and on the wire, a message's own account begins. */
  datatype Mark = Mark(timeouts: nat, sends: nat)

  /** Everything the sender knows: both maps, what it was given and what it reported. */
  datatype State = State(
    store: map<Header, RetryEntry>,
    pending: map<Header, TimeoutData>,
    wire: seq<Packet>,
    started: multiset<Header>,
    acked: multiset<Header>,
    failed: multiset<Header>,
    submitted: set<Packet>,
    rejects: nat)

  const EMPTY_STATE := State(map[], map[], [], multiset{}, multiset{}, multiset{}, {}, 0)

  predicate Room(pending: map<Header, TimeoutData>, k: Header) {
    |pending| < MAX_TRANSPORT_MONITOR_PENDING && k !in pending
  }

  /** `TransportMonitor::Add`: refused when the map is full or the key is taken. */
  function Added(s: State, p: Packet, now: int): State {
    if Room(s.pending, p.header) then
      s.(pending := s.pending[p.header := TimeoutData(p.header.id, p.header.seqNum, now)])
    else
      s.(rejects := s.rejects + 1)
  }

  /** The message is dropped and reported on `OnDeliveryFailed`. */
  function Abandoned(s: State, k: Header): State {
    s.(store := s.store - {k}, failed := s.failed + multiset{k})
  }

  /** A physical send of a registered packet; a failed one frees the slot and ends the message. */
  function Delivered(s: State, p: Packet, result: int): State {
    var sent := s.(wire := s.wire + [p]);
    if result == 0 then sent else Abandoned(sent.(pending := sent.pending - {p.header}), p.header)
  }

  /** Registers and transmits a packet; any refusal ends the message with a failure report. */
  function Transmitted(s: State, p: Packet, now: int, result: int): State {
    if Room(s.pending, p.header) then Delivered(Added(s, p, now), p, result) else Abandoned(Added(s, p, now), p.header)
  }

  /** `SendWithRetry`, with the clock reading and send result it meets. */
  function Submitted(s: State, p: Packet, maxRetries: int, now: int, result: int): State {
    var k := p.header;
    var stored := s.(store := s.store[k := RetryEntry(p, maxRetries, false)],
                     started := s.started + multiset{k}, submitted := s.submitted + {p});
    var sent := Transmitted(stored, p, now, result);
    if k in sent.store then sent.(store := sent.store[k := sent.store[k].(isSent := true)]) else sent
  }

  /** What a TIMEOUT does to a stored message: report it, watch it again, or retransmit it. */
  function TimedOut(s: State, k: Header, now: int, result: int): State
    requires k in s.store
  {
    var e := s.store[k];
    if e.attemptsRemaining <= 0 then
      Abandoned(s, k)
    else if !e.isSent then
      Added(s, e.packet, now)
    else
      Retried(s, k, now, result)
  }

  function Charged(s: State, k: Header): State
    requires k in s.store
  {
    s.(store := s.store[k := s.store[k].(attemptsRemaining := s.store[k].attemptsRemaining - 1)])
  }

  /** One attempt is charged and the stored packet, unchanged, goes out again. */
  function Retried(s: State, k: Header, now: int, result: int): State
    requires k in s.store
  {
    Transmitted(Charged(s, k), s.store[k].packet, now, result)
  }

  /** `OnStatusChanged`, in every case. */
  function Notified(s: State, k: Header, status: Status, now: int, result: int): State {
    if k !in s.store then s
    else if status.SUCCESS? then s.(store := s.store - {k}, acked := s.acked + multiset{k})
    else TimedOut(s, k, now, result)
  }

  /** An ACK for `k`: its slot is freed, then SUCCESS is reported. */
  function Acknowledged(s: State, k: Header): State {
    Notified(s.(pending := s.pending - {k}), k, SUCCESS, 0, 0)
  }

  ghost predicate WellKeyed(pending: map<Header, TimeoutData>) {
    && |pending| <= MAX_TRANSPORT_MONITOR_PENDING
    && forall k | k in pending :: Header(pending[k].remoteId, pending[k].seqNum) == k
  }

  ghost predicate Keyed(store: map<Header, RetryEntry>) {
    forall k | k in store :: store[k].packet.header == k
  }

  /** How often a message with key `k` was handed to the physical transport. */
  ghost function WireCount(wire: seq<Packet>, k: Header): nat {
    if wire == [] then 0 else
      WireCount(wire[..|wire| - 1], k) + if wire[|wire| - 1].header == k then 1 else 0
  }

  lemma WireCountAppend(wire: seq<Packet>, p: Packet)
    ensures forall k: Header :: WireCount(wire + [p], k) == WireCount(wire, k) + if p.header == k then 1 else 0
  {
    assert (wire + [p])[..|wire|] == wire;
  }

  /** Retransmissions the store still allows for `k`. */
  ghost function Credit(store: map<Header, RetryEntry>, k: Header): nat {
    if k in store && store[k].attemptsRemaining > 0 then store[k].attemptsRemaining else 0
  }

  lemma {:induction false} WireCountConcat(wire: seq<Packet>, more: seq<Packet>, k: Header)
    ensures WireCount(wire + more, k) == WireCount(wire, k) + WireCount(more, k)
  {
    if more == [] {
      assert wire + more == wire;
    } else {
      var n := |more| - 1;
      WireCountConcat(wire, more[..n], k);
      assert (wire + more)[..|wire + more| - 1] == wire + more[..n];
    }
  }

  /** Physical sends one message may cause. */
  function Budget(maxRetries: int): nat {
    1 + if maxRetries > 0 then maxRetries else 0
  }

  /** What `n` messages may cost together. */
  ghost function Allowance(budget: nat, n: nat): nat {
    if n == 0 then 0 else budget + Allowance(budget, n - 1)
  }

  lemma {:induction false} AllowanceIsProduct(budget: nat, n: nat)
    ensures Allowance(budget, n) == budget * n
  {
    if n != 0 {
      AllowanceIsProduct(budget, n - 1);
      assert budget * n == budget * (n - 1) + budget;
    }
  }

  /** Store and pending hold the same keys, except for `batch`: messages that expired but
      have not been reported to `RetryMonitor` yet. */
  ghost predicate MapsAgree(s: State, batch: set<Header>) {
    && Keyed(s.store)
    && WellKeyed(s.pending)
    && s.pending.Keys !! batch
    && s.store.Keys == s.pending.Keys + batch
    && |s.store| <= MAX_TRANSPORT_MONITOR_PENDING
    && forall k | k in s.store :: s.store[k].isSent
  }

  /** Every message ever started is ACKed once, or reported failed once, or still stored. */
  ghost predicate Conserved(s: State) {
    s.started == s.acked + s.failed + multiset(s.store.Keys)
  }

  /** The wire carries submitted packets only, and each message stays within its budget. */
  ghost predicate WithinBudget(s: State, maxRetries: int) {
    && (forall k | k in s.store :: s.store[k].packet in s.submitted)
    && (forall p | p in s.wire :: p in s.submitted)
    && (forall k: Header :: WireCount(s.wire, k) + Credit(s.store, k) <= Allowance(Budget(maxRetries), s.started[k]))
  }

  ghost predicate Inv(s: State, batch: set<Header>, maxRetries: int) {
    MapsAgree(s, batch) && Conserved(s) && WithinBudget(s, maxRetries)
  }

  /** A retry always finds room: its own slot was freed when it expired. */
  lemma RetryHasRoom(s: State, k: Header, batch: set<Header>)
    requires MapsAgree(s, batch) && k in batch
    ensures Room(s.pending, k)
  {
    assert s.pending.Keys < s.store.Keys;
    SmallerSize(s.pending, s.store);
  }

  /** The two ways a submission can end: `sent` and watched, or refused and reported. */
  ghost predicate SubmitOutcome(s: State, s': State, p: Packet, maxRetries: int, now: int, sent: bool) {
    var k := p.header;
    && s'.started == s.started + multiset{k} && s'.submitted == s.submitted + {p} && s'.acked == s.acked
    && s'.wire == (if Room(s.pending, k) then s.wire + [p] else s.wire)
    && (sent ==>
      && Tracked(s, s', k, RetryEntry(p, maxRetries, true), TimeoutData(k.id, k.seqNum, now))
      && Room(s.pending, k) && s'.failed == s.failed)
    && (!sent ==>
      && s'.store == s.store && s'.pending == s.pending && s'.failed == s.failed + multiset{k})
  }

  lemma SubmitCases(s: State, p: Packet, maxRetries: int, now: int, result: int)
    requires p.header !in s.store
    ensures SubmitOutcome(s, Submitted(s, p, maxRetries, now, result), p, maxRetries, now,
                          Room(s.pending, p.header) && result == 0)
  {
    var k := p.header;
    PutTake(s.store, k, RetryEntry(p, maxRetries, false));
    if k !in s.pending {
      PutTake(s.pending, k, TimeoutData(k.id, k.seqNum, now));
    }
  }

  /** `k` is stored and watched. */
  ghost predicate Tracked(s: State, s': State, k: Header, e: RetryEntry, d: TimeoutData) {
    && s'.store == s.store[k := e] && s'.pending == s.pending[k := d]
    && e.packet.header == k && e.isSent && Header(d.remoteId, d.seqNum) == k
  }

  lemma TrackShape(s: State, s': State, k: Header, e: RetryEntry, d: TimeoutData)
    requires Keyed(s.store) && WellKeyed(s.pending) && Room(s.pending, k) && Tracked(s, s', k, e, d)
    ensures Keyed(s'.store) && WellKeyed(s'.pending)
  {
    PutSize(s.pending, k, d);
  }

  lemma TrackNewAgrees(s: State, s': State, k: Header, e: RetryEntry, d: TimeoutData)
    requires MapsAgree(s, {}) && k !in s.store && Room(s.pending, k) && Tracked(s, s', k, e, d)
    ensures MapsAgree(s', {})
  {
    TrackShape(s, s', k, e, d);
    assert s.store.Keys == s.pending.Keys;
    SameSize(s.store, s.pending);
    PutKeys(s.store, k, e);
    PutSize(s.store, k, e);
    PutKeys(s.pending, k, d);
  }

  lemma TrackOldAgrees(s: State, s': State, k: Header, e: RetryEntry, d: TimeoutData, batch: set<Header>)
    requires MapsAgree(s, batch) && k in batch && Room(s.pending, k) && Tracked(s, s', k, e, d)
    ensures MapsAgree(s', batch - {k})
  {
    TrackShape(s, s', k, e, d);
    PutKeys(s.store, k, e);
    PutSize(s.store, k, e);
    PutKeys(s.pending, k, d);
    MoveInUnion(s.store.Keys, s.pending.Keys, batch, k);
  }

  lemma DropAgrees(s: State, s': State, k: Header, batch: set<Header>)
    requires MapsAgree(s, batch) && k in batch && s'.store == s.store - {k} && s'.pending == s.pending
    ensures MapsAgree(s', batch - {k})
  {
    WithoutKeys(s.store, k);
    WithoutSize(s.store, k);
    TakeFromUnion(s.store.Keys, s.pending.Keys, batch, k);
  }

  lemma StartConserves(s: State, s': State, k: Header, e: RetryEntry)
    requires Conserved(s) && k !in s.store && s'.store == s.store[k := e]
    requires s'.started == s.started + multiset{k} && s'.acked == s.acked && s'.failed == s.failed
    ensures Conserved(s')
  {
    PutKeys(s.store, k, e);
    PutOne(s.store.Keys, k);
  }

  lemma EndConserves(s: State, s': State, k: Header)
    requires Conserved(s) && k in s.store && s'.store == s.store - {k} && s'.started == s.started
    requires s'.acked + s'.failed == s.acked + s.failed + multiset{k}
    ensures Conserved(s')
  {
    WithoutKeys(s.store, k);
    TakeOne(s.store.Keys, k);
  }

  lemma RetryConserves(s: State, s': State, k: Header, e: RetryEntry)
    requires Conserved(s) && k in s.store && s'.store == s.store[k := e]
    requires s'.started == s.started && s'.acked == s.acked && s'.failed == s.failed
    ensures Conserved(s')
  {
    PutKeys(s.store, k, e);
    assert s'.store.Keys == s.store.Keys;
  }

  /** At most `p` was transmitted, and its key had, or has just been given, the credit for it. */
  lemma Paid(s: State, s': State, p: Packet, maxRetries: int)
    requires WithinBudget(s, maxRetries)
    requires s'.wire == s.wire || s'.wire == s.wire + [p]
    requires p in s'.submitted && s.submitted <= s'.submitted
    requires forall j | j in s'.store :: s'.store[j].packet in s'.submitted
    requires forall j: Header | j != p.header ::
      Credit(s'.store, j) == Credit(s.store, j) && s'.started[j] == s.started[j]
    requires
      var k, spent := p.header, if s'.wire == s.wire then 0 else 1;
      || (s'.started[k] == s.started[k] && spent + Credit(s'.store, k) <= Credit(s.store, k))
      || (s'.started[k] == s.started[k] + 1 && Credit(s.store, k) == 0
          && spent + Credit(s'.store, k) <= Budget(maxRetries))
    ensures WithinBudget(s', maxRetries)
  {
    WireCountAppend(s.wire, p);
    forall j: Header
      ensures WireCount(s'.wire, j) + Credit(s'.store, j) <= Allowance(Budget(maxRetries), s'.started[j])
    {
      assert WireCount(s.wire, j) + Credit(s.store, j) <= Allowance(Budget(maxRetries), s.started[j]);
    }
  }

  lemma SubmitOutcomePaid(s: State, s': State, p: Packet, maxRetries: int, now: int, sent: bool)
    requires MapsAgree(s, {}) && WithinBudget(s, maxRetries) && p.header !in s.store
    requires SubmitOutcome(s, s', p, maxRetries, now, sent)
    ensures WithinBudget(s', maxRetries)
  {
    Paid(s, s', p, maxRetries);
  }

  lemma SubmitOutcomeKeeps(s: State, s': State, p: Packet, maxRetries: int, now: int, sent: bool)
    requires Inv(s, {}, maxRetries) && p.header !in s.store
    requires SubmitOutcome(s, s', p, maxRetries, now, sent)
    ensures Inv(s', {}, maxRetries)
  {
    SubmitOutcomePaid(s, s', p, maxRetries, now, sent);
    if sent {
      TrackNewAgrees(s, s', p.header, s'.store[p.header], s'.pending[p.header]);
      StartConserves(s, s', p.header, s'.store[p.header]);
    }
  }

  /** A fresh message is stored and watched, or reported failed at once. */
  lemma SubmitKeeps(s: State, p: Packet, maxRetries: int, now: int, result: int)
    ensures Inv(s, {}, maxRetries) && p.header !in s.store ==>
            Inv(Submitted(s, p, maxRetries, now, result), {}, maxRetries)
  {
    if Inv(s, {}, maxRetries) && p.header !in s.store {
      SubmitCases(s, p, maxRetries, now, result);
      SubmitOutcomeKeeps(s, Submitted(s, p, maxRetries, now, result), p, maxRetries, now,
                         Room(s.pending, p.header) && result == 0);
    }
  }

  /** The two ways a status can end: `kept` and transmitted once more, or settled. */
  ghost predicate NotifyOutcome(s: State, s': State, k: Header, status: Status, now: int, kept: bool)
    requires k in s.store
  {
    var e := s.store[k];
    && s'.started == s.started && s'.submitted == s.submitted && s'.rejects == s.rejects
    && s'.wire == (if status.TIMEOUT? && e.attemptsRemaining > 0 then s.wire + [e.packet] else s.wire)
    && (kept ==>
      && e.attemptsRemaining > 0
      && Tracked(s, s', k, e.(attemptsRemaining := e.attemptsRemaining - 1), TimeoutData(k.id, k.seqNum, now))
      && s'.acked == s.acked && s'.failed == s.failed)
    && (!kept ==>
      && s'.store == s.store - {k} && s'.pending == s.pending
      && s'.acked == s.acked + (if status.SUCCESS? then multiset{k} else multiset{})
      && s'.failed == s.failed + (if status.TIMEOUT? then multiset{k} else multiset{}))
  }

  lemma NotifyCases(s: State, k: Header, status: Status, now: int, result: int)
    requires k in s.store && s.store[k].packet.header == k && s.store[k].isSent && Room(s.pending, k)
    ensures NotifyOutcome(s, Notified(s, k, status, now, result), k, status, now,
                          status.TIMEOUT? && s.store[k].attemptsRemaining > 0 && result == 0)
  {
    PutTake(s.pending, k, TimeoutData(k.id, k.seqNum, now));
  }

  lemma NotifyOutcomeAgrees(s: State, s': State, k: Header, status: Status, batch: set<Header>, now: int, kept: bool)
    requires MapsAgree(s, batch) && k in batch && NotifyOutcome(s, s', k, status, now, kept)
    ensures MapsAgree(s', batch - {k})
  {
    if kept {
      RetryHasRoom(s, k, batch);
      TrackOldAgrees(s, s', k, s'.store[k], s'.pending[k], batch);
    } else {
      DropAgrees(s, s', k, batch);
    }
  }

  lemma NotifyOutcomeConserves(s: State, s': State, k: Header, status: Status, now: int, kept: bool)
    requires Conserved(s) && k in s.store && NotifyOutcome(s, s', k, status, now, kept)
    ensures Conserved(s')
  {
    if kept {
      RetryConserves(s, s', k, s'.store[k]);
    } else {
      EndConserves(s, s', k);
    }
  }

  lemma NotifyOutcomePaid(s: State, s': State, k: Header, status: Status, maxRetries: int, now: int, kept: bool)
    requires Keyed(s.store) && WithinBudget(s, maxRetries) && k in s.store
    requires NotifyOutcome(s, s', k, status, now, kept)
    ensures WithinBudget(s', maxRetries)
  {
    Paid(s, s', s.store[k].packet, maxRetries);
  }

  /** One status for an expired or acknowledged message settles it without disturbing the rest. */
  lemma NotifyKeeps(s: State, k: Header, status: Status, batch: set<Header>, maxRetries: int, now: int, result: int)
    requires Inv(s, batch, maxRetries) && k in batch
    ensures Inv(Notified(s, k, status, now, result), batch - {k}, maxRetries)
    ensures Notified(s, k, status, now, result).rejects == s.rejects
  {
    RetryHasRoom(s, k, batch);
    NotifyCases(s, k, status, now, result);
    var s', kept := Notified(s, k, status, now, result), status.TIMEOUT? && s.store[k].attemptsRemaining > 0
      && result == 0;
    NotifyOutcomeAgrees(s, s', k, status, batch, now, kept);
    NotifyOutcomeConserves(s, s', k, status, now, kept);
    NotifyOutcomePaid(s, s', k, status, maxRetries, now, kept);
  }

  lemma RemoveMany(p: map<Header, TimeoutData>, ks: set<Header>)
    requires WellKeyed(p) && ks <= p.Keys
    ensures WellKeyed(p - ks) && (p - ks).Keys == p.Keys - ks && p.Keys == (p - ks).Keys + ks
  {
    if ks != {} {
      SmallerSize(p - ks, p);
    } else {
      assert p - ks == p;
    }
  }

  lemma AckKeeps(s: State, k: Header, maxRetries: int)
    requires Inv(s, {}, maxRetries) && k in s.pending
    ensures Inv(Acknowledged(s, k), {}, maxRetries)
  {
    var s' := s.(pending := s.pending - {k});
    RemoveMany(s.pending, {k});
    assert MapsAgree(s', {k});
    NotifyKeeps(s', k, SUCCESS, {k}, maxRetries, 0, 0);
    assert {k} - {k} == {};
  }

  lemma SubmittedStarts(s: State, p: Packet, maxRetries: int, now: int, result: int)
    ensures Submitted(s, p, maxRetries, now, result).started == s.started + multiset{p.header}
  {
  }

  lemma StoredWasStarted(s: State, k: Header)
    requires Conserved(s) && k in s.store
    ensures k in s.started
  {
  }

  /** The serialised sender's law, read off the invariant every run keeps. */
  lemma ExactlyOneOutcome(s: State, maxRetries: int, k: Header)
    requires Inv(s, {}, maxRetries)
    ensures k in s.store <==> k in s.pending
    ensures s.started[k] == s.acked[k] + s.failed[k] + if k in s.store then 1 else 0
    ensures WireCount(s.wire, k) <= Budget(maxRetries) * s.started[k]
  {
    AllowanceIsProduct(Budget(maxRetries), s.started[k]);
  }

  /** A status in full, for a stored message in any state: what is kept, what is dropped and reported,
      and what goes out. */
  ghost predicate Reacted(s: State, s': State, k: Header, status: Status, now: int, result: int)
    requires k in s.store
  {
    var e := s.store[k];
    var stamp := TimeoutData(k.id, k.seqNum, now);
    && s'.started == s.started && s'.submitted == s.submitted
    && (if status.SUCCESS? then
          && s'.store == s.store - {k} && s'.pending == s.pending && s'.wire == s.wire
          && s'.acked == s.acked + multiset{k} && s'.failed == s.failed
        else if e.attemptsRemaining > 0 && !e.isSent then
          && s'.store == s.store && s'.wire == s.wire && s'.acked == s.acked && s'.failed == s.failed
          && s'.pending == (if Room(s.pending, k) then s.pending[k := stamp] else s.pending)
        else if e.attemptsRemaining > 0 && Room(s.pending, k) && result == 0 then
          && s'.store == s.store[k := e.(attemptsRemaining := e.attemptsRemaining - 1)]
          && s'.pending == s.pending[k := stamp] && s'.wire == s.wire + [e.packet]
          && s'.acked == s.acked && s'.failed == s.failed
        else
          && s'.store == s.store - {k} && s'.pending == s.pending
          && s'.wire == (if e.attemptsRemaining > 0 && Room(s.pending, k) then s.wire + [e.packet] else s.wire)
          && s'.acked == s.acked && s'.failed == s.failed + multiset{k})
  }

  /** A status of a message that is not stored changes nothing. */
  ghost predicate Heard(s: State, s': State, k: Header, status: Status, now: int, result: int) {
    if k in s.store then Reacted(s, s', k, status, now, result) else s' == s
  }

  /** The retransmission alone. */
  lemma RetriedInFull(s: State, k: Header, now: int, result: int)
    requires k in s.store && s.store[k].packet.header == k && s.store[k].attemptsRemaining > 0 && s.store[k].isSent
    ensures Reacted(s, Retried(s, k, now, result), k, TIMEOUT, now, result)
  {
    var e := s.store[k];
    var charged := e.(attemptsRemaining := e.attemptsRemaining - 1);
    assert s.store[k := charged] - {k} == s.store - {k};
    if k !in s.pending {
      PutTake(s.pending, k, TimeoutData(k.id, k.seqNum, now));
    }
  }

  /** A TIMEOUT of a message with attempts left puts its stored packet on the wire once more, if there is
      room; one without is dropped and reported, and nothing goes out. */
  lemma NotifiedInFull(s: State, k: Header, status: Status, now: int, result: int)
    requires Keyed(s.store)
    ensures Heard(s, Notified(s, k, status, now, result), k, status, now, result)
  {
    if k in s.store && status.TIMEOUT? && s.store[k].attemptsRemaining > 0 && s.store[k].isSent {
      hide Retried, Reacted;
      RetriedInFull(s, k, now, result);
    }
  }
}
