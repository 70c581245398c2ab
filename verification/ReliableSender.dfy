/**
 * `TransportMonitor` tracks unacknowledged messages, `RetryMonitor` stores their packets and
 * retransmits them. Sends, ACKs and `Process` run one at a time, as one network thread drives
 * them; the callbacks that `Process` fires re-enter both maps.
 *
 * The environment is explicit. `clock(i)` is the i-th reading of the clock, the transport's
 * `result(i)` is what the i-th physical send returns, and each element of `scripts` is what
 * the other status subscribers do on one status they receive.
 */
module ReliableSender {
  import opened Common
  import opened MapFacts
  import opened SenderSpec
  import opened DrainSpec
  import opened Reentry
  import opened SenderRuns

  class TransportMonitor {
    const timeout: int
    var pending: map<Header, TimeoutData>
    var retry: RetryMonitor?
    var scripts: seq<seq<MonitorOp>>
    var clock: nat -> int
    var ticks: nat
    ghost var timeouts: seq<Header>
    ghost var acks: seq<Header>
    ghost var rejects: nat

    ghost predicate Valid()
      reads this
    {
      && WellKeyed(pending)
    }

    ghost predicate Linked()
      reads this, retry
    {
      && Valid()
      && (retry != null ==> retry.monitor == this && Keyed(retry.retryStore))
    }

    ghost function Frame(): set<object>
      reads this
    {
      if retry == null then {this} else {this, retry, retry.transport}
    }

    /** Only the retry monitor listens, and `batch` are the expired entries it has not heard of. */
    ghost predicate Quiet(batch: set<Header>)
      reads this, retry, if retry == null then {} else {retry.transport, retry.monitor}
    {
      scripts == [] && retry != null && Inv(retry.View(), batch, retry.maxRetries)
    }

    ghost function Snapshot(): State
      reads this, retry, if retry == null then {} else {retry.transport, retry.monitor}
    {
      if retry == null then EMPTY_STATE.(pending := pending, rejects := rejects) else retry.View()
    }

    ghost function Here(): Moment
      reads this, retry, if retry == null then {} else {retry.transport, retry.monitor}
    {
      Moment(Snapshot(), scripts, timeouts, acks, ticks, if retry == null then map[] else retry.since)
    }

    constructor (timeout: int)
      ensures Linked() && retry == null
      ensures this.timeout == timeout && pending == map[] && scripts == []
      ensures timeouts == [] && acks == [] && rejects == 0
    {
      this.timeout := timeout;
      pending := map[];
      retry := null;
      scripts := [];
      clock := _ => 0;
      ticks := 0;
      timeouts, acks, rejects := [], [], 0;
    }

    method Now() returns (t: int)
      modifies this`ticks
      ensures t == clock(old(ticks)) && ticks == old(ticks) + 1
    {
      t := clock(ticks);
      ticks := ticks + 1;
    }

    method Add(seqNum: uint16, remoteId: uint16) returns (added: bool)
      requires Valid()
      modifies this`pending, this`ticks, this`rejects
      ensures Valid()
      ensures added == Room(old(pending), Header(remoteId, seqNum))
      ensures added ==>
        pending == old(pending)[Header(remoteId, seqNum) := TimeoutData(remoteId, seqNum, clock(old(ticks)))]
      ensures !added ==> pending == old(pending)
      ensures ticks == old(ticks) + if added then 1 else 0
      ensures rejects == old(rejects) + if added then 0 else 1
    {
      var key := Header(remoteId, seqNum);
      if |pending| >= MAX_TRANSPORT_MONITOR_PENDING {
        rejects := rejects + 1;
        return false;
      } else if key in pending {
        rejects := rejects + 1;
        return false;
      }
      var now := Now();
      PutSize(pending, key, TimeoutData(remoteId, seqNum, now));
      pending := pending[key := TimeoutData(remoteId, seqNum, now)];
      return true;
    }

    method Cancel(seqNum: uint16, remoteId: uint16) returns (found: bool)
      requires Valid()
      modifies this`pending
      ensures Valid()
      ensures found == (Header(remoteId, seqNum) in old(pending))
      ensures pending == old(pending) - {Header(remoteId, seqNum)}
    {
      var key := Header(remoteId, seqNum);
      found := key in pending;
      if found {
        WithoutSize(pending, key);
      }
      pending := pending - {key};
    }

    /** The entry `Remove` picks: the exact key, or for remote id 0 the first one, in key
        order, with the sequence number. */
    method Locate(seqNum: uint16, remoteId: uint16) returns (found: bool, key: Header)
      requires Valid()
      ensures found ==> Picks(pending, seqNum, remoteId, key)
      ensures !found ==> forall k | k in pending :: !Matches(seqNum, remoteId, k)
    {
      key := Header(remoteId, seqNum);
      if remoteId != 0 {
        found := key in pending;
        return;
      }
      found := false;
      var rest := pending.Keys;
      while rest != {}
        invariant rest <= pending.Keys
        invariant forall k | k in pending && k !in rest :: k.seqNum != seqNum
        decreases rest
      {
        LeastExists(rest);
        var k :| k in rest && forall j | j in rest :: j == k || Before(k, j);
        if pending[k].seqNum == seqNum {
          return true, k;
        }
        rest := rest - {k};
      }
    }

    /** The locked part of one pass: move up to a batch of expired entries out of the map. */
    method CollectExpired() returns (now: int, batch: seq<TimeoutData>, remaining: nat)
      requires Valid()
      modifies this`pending, this`ticks
      ensures Valid() && now == clock(old(ticks)) && ticks == old(ticks) + 1
      ensures Collected(old(pending), batch, now, timeout)
      ensures pending == old(pending) - Keys(batch)
      ensures remaining == if exists k :: k in pending && Expired(pending[k], now, timeout) then |pending| else 0
    {
      now := Now();
      batch, remaining := [], 0;
      var rest := pending.Keys;
      while rest != {}
        invariant remaining == 0 && ticks == old(ticks) + 1
        invariant Scanning(old(pending), pending, rest, batch, now, timeout)
        invariant InOrder(batch, rest)
        decreases rest
      {
        LeastExists(rest);
        var k :| k in rest && forall j | j in rest :: j == k || Before(k, j);
        var d, left := pending[k], pending - {k};
        if !Expired(d, now, timeout) {
          ScanSkips(old(pending), pending, rest, batch, k, now, timeout);
        } else if |batch| < MAX_TIMER_EXPIRED {
          ScanTakes(old(pending), pending, rest, batch, k, now, timeout);
          OrderTakes(batch, rest, d);
          batch := batch + [d];
          pending := left;
        } else {
          remaining := |pending|;
          break;
        }
        rest := rest - {k};
      }
      ScanEnds(old(pending), pending, rest, batch, now, timeout);
    }

    /** Only the retry monitor listens and has heard of the first `i` entries of the batch. */
    ghost predicate Reporting(start: State, batch: seq<TimeoutData>, i: nat)
      requires i <= |batch|
      reads this, retry, if retry == null then {} else {retry.transport, retry.monitor}
    {
      scripts == [] && retry != null && Midway(start, retry.View(), batch, i, retry.maxRetries)
    }

    method ReportTimeout(batch: seq<TimeoutData>, i: nat, ghost start: State)
      requires Linked() && i < |batch|
      modifies Frame()
      ensures Linked() && retry == old(retry) && clock == old(clock) && Later(old(scripts), scripts)
      ensures Went(clock, old(Here()), Here(), [KeyOf(batch[i])], Named(old(scripts), scripts))
      ensures old(Reporting(start, batch, i)) && Ascending(batch) ==> Reporting(start, batch, i + 1)
    {
      if retry != null {
        MidwayGoesOn(start, retry.View(), batch, i, retry.maxRetries, clock(ticks), SendResult());
      }
      hide Midway, Went;
      EmitTimeout(batch[i].remoteId, batch[i].seqNum);
    }

    method EmitTimeout(id: uint16, seqNum: uint16)
      requires Linked()
      modifies Frame()
      ensures Linked() && retry == old(retry) && clock == old(clock) && Later(old(scripts), scripts)
      ensures Went(clock, old(Here()), Here(), [Header(id, seqNum)], Named(old(scripts), scripts))
      ensures old(scripts) == [] ==> scripts == []
      ensures old(scripts) == [] && retry != null ==>
        retry.View() == Notified(old(Snapshot()), Header(id, seqNum), TIMEOUT, clock(old(ticks)), old(SendResult()))
    {
      hide SomeRan, Notified;
      ghost var here, result := Here(), SendResult();
      EmitStatus(id, seqNum, TIMEOUT);
      TimeoutWent(clock, here, Here(), retry != null, Header(id, seqNum), result, Named(here.scripts, scripts));
    }

    /** The unlocked part of one pass: a TIMEOUT for every entry of the batch. */
    method ReportTimeouts(batch: seq<TimeoutData>, ghost start: State)
      requires Linked() && Ascending(batch)
      modifies Frame()
      ensures Linked() && retry == old(retry) && clock == old(clock) && Later(old(scripts), scripts)
      ensures Went(clock, old(Here()), Here(), KeySeq(batch), Named(old(scripts), scripts))
      ensures old(Reporting(start, batch, 0)) ==> Reporting(start, batch, |batch|)
    {
      NothingNamed(scripts);
      WentNowhere(clock, Here());
      for i := 0 to |batch|
        invariant Linked() && retry == old(retry) && clock == old(clock) && Later(old(scripts), scripts)
        invariant Went(clock, old(Here()), Here(), KeySeq(batch)[..i], Named(old(scripts), scripts))
        invariant old(Reporting(start, batch, 0)) ==> Reporting(start, batch, i)
      {
        ghost var mid := Here();
        ReportTimeout(batch, i, start);
        BatchStep(batch, i);
        LaterTrans(old(scripts), mid.scripts, scripts);
        WentTrans(clock, old(Here()), mid, Here(), KeySeq(batch)[..i], [KeyOf(batch[i])],
                  Named(old(scripts), mid.scripts), Named(mid.scripts, scripts));
      }
      assert KeySeq(batch)[..|batch|] == KeySeq(batch);
    }

    /** The locked half of a pass. */
    method TakeBatch() returns (now: int, batch: seq<TimeoutData>, remaining: nat)
      requires Linked()
      modifies this`pending, this`ticks
      ensures Valid() && now == clock(old(ticks)) && Collected(old(pending), batch, now, timeout)
      ensures Here() == Without(old(Here()), batch)
    {
      hide WellKeyed, Keyed, Collected;
      now, batch, remaining := CollectExpired();
    }

    /** One pass: collect a batch under the lock, report it outside. */
    method Pass(ghost epoch: int) returns (full: bool, ghost ks: seq<Header>, ghost now: int)
      requires Linked()
      requires Window(clock, ticks, epoch, epoch + timeout)
      modifies Frame()
      ensures Linked() && retry == old(retry) && clock == old(clock)
      ensures Draining(clock, old(Here()), Here(), ks, epoch, old(Quiet({})))
      ensures full ==> ks != []
      ensures !full ==> epoch <= now && AllCurrent(pending, now, timeout)
      ensures old(Quiet({})) ==> Quiet({})
    {
      var t, batch, remaining := TakeBatch();
      ghost var left := Here();
      if retry != null {
        CollectBegins(old(Snapshot()), left.s, batch, t, timeout, retry.maxRetries);
      }
      ReportTimeouts(batch, left.s);
      WentAfterCollecting(clock, old(Here()), left, Here(), batch, Named(left.scripts, scripts));
      PassDrains(old(pending), old(Snapshot()), left.s.pending, left.s, pending, Snapshot(), batch, t, timeout, clock,
                 left.ticks, epoch, old(Quiet({})), if retry == null then 0 else retry.maxRetries);
      full, ks, now := |batch| == MAX_TIMER_EXPIRED, KeySeq(batch), t;
    }

    /** Drains every expired entry, in batches, however many there are. */
    method Process() returns (ghost last: int)
      requires Linked()
      requires Window(clock, ticks, clock(ticks), clock(ticks) + timeout)
      modifies Frame()
      ensures Linked() && retry == old(retry) && clock == old(clock) && Later(old(scripts), scripts)
      ensures old(timeouts) <= timeouts
      ensures Went(clock, old(Here()), Here(), timeouts[|old(timeouts)|..], Named(old(scripts), scripts))
      ensures Gone(old(pending), pending, timeouts[|old(timeouts)|..], clock(old(ticks)))
      ensures last >= clock(old(ticks)) && AllCurrent(pending, last, timeout)
      ensures Cleared(old(pending), pending, timeouts[|old(timeouts)|..], Named(old(scripts), scripts),
                      clock(old(ticks)), timeout)
      ensures old(Quiet({})) ==> Quiet({}) && Settled(old(Snapshot()), Snapshot(), timeouts[|old(timeouts)|..])
    {
      ghost var epoch := clock(ticks);
      ghost var gone: seq<Header> := [];
      last := epoch;
      var full := true;
      DrainBegins(clock, Here(), epoch, Quiet({}));
      while full
        invariant Linked() && retry == old(retry) && clock == old(clock)
        invariant Draining(clock, old(Here()), Here(), gone, epoch, old(Quiet({})))
        invariant old(Quiet({})) ==> Quiet({})
        invariant !full ==> last >= epoch && AllCurrent(pending, last, timeout)
        decreases full, Stale(pending, epoch)
      {
        if pending == map[] {
          last := epoch;
          break;
        }
        ghost var mid, ks := Here(), [];
        full, ks, last := Pass(epoch);
        PassesCompose(clock, old(Here()), mid, Here(), gone, ks, epoch, old(Quiet({})));
        gone := gone + ks;
      }
      AllCleared(clock, old(Here()), Here(), gone, Named(old(scripts), scripts), epoch, last, timeout);
      assert timeouts[|old(timeouts)|..] == gone;
    }

    /** An ACK arrives: the message it names, if any, is forgotten and reported once. */
    method Remove(seqNum: uint16, remoteId: uint16) returns (ghost found: bool, ghost key: Header)
      requires Linked()
      modifies Frame()
      ensures Linked() && retry == old(retry) && clock == old(clock) && Later(old(scripts), scripts)
      ensures found ==> Picks(old(pending), seqNum, remoteId, key)
      ensures !found ==> forall k | k in old(pending) :: !Matches(seqNum, remoteId, k)
      ensures !found ==> Here() == old(Here())
      ensures found ==>
        && old(acks) + [key] <= acks
        && Went(clock, Told(Freed(old(Here()), key), retry != null, key, SUCCESS, 0, 0), Here(), [],
                Named(old(scripts), scripts))
      ensures found && old(scripts) == [] ==>
        Here().(ticks := old(ticks)) == Told(Freed(old(Here()), key), retry != null, key, SUCCESS, 0, 0)
      decreases |scripts|, 2
    {
      var hit, k := Locate(seqNum, remoteId);
      found, key := hit, k;
      if hit {
        hide SomeRan;
        var d := pending[k];
        WithoutSize(pending, k);
        pending := pending - {k};
        EmitStatus(d.remoteId, seqNum, SUCCESS);
      } else {
        NothingNamed(scripts);
      }
    }

    ghost function SendResult(): int
      reads this, retry, if retry == null then {} else {retry.transport}
    {
      if retry == null then 0 else retry.transport.result(|retry.transport.wire|)
    }

    /** `OnSendStatus(...)`: the retry monitor first, then the other subscribers. */
    method EmitStatus(id: uint16, seqNum: uint16, status: Status)
      requires Linked()
      modifies Frame()
      ensures Linked() && retry == old(retry) && clock == old(clock) && Later(old(scripts), scripts)
      ensures Went(clock, Told(old(Here()), retry != null, Header(id, seqNum), status, clock(old(ticks)),
                               old(SendResult())),
                   Here(), [], Named(old(scripts), scripts))
      ensures old(scripts) == [] ==>
        Here().(ticks := old(ticks))
        == Told(old(Here()), retry != null, Header(id, seqNum), status, clock(old(ticks)), old(SendResult()))
      ensures SomeRan(old(scripts), scripts)
      decreases |scripts|, 1
    {
      ghost var told := Told(Here(), retry != null, Header(id, seqNum), status, clock(ticks), SendResult());
      TellRetryMonitor(id, seqNum, status);
      ghost var heard := Here();
      WentLater(clock, told, heard);
      RunScript();
      WentTrans(clock, told, heard, Here(), [], [], iset{}, Named(heard.scripts, scripts));
    }

    /** The status is recorded, and the retry monitor, which connected first, reacts. */
    method TellRetryMonitor(id: uint16, seqNum: uint16, status: Status)
      requires Linked()
      modifies Frame()
      ensures Linked() && retry == old(retry) && clock == old(clock) && ticks >= old(ticks)
      ensures Here().(ticks := old(ticks))
        == Told(old(Here()), retry != null, Header(id, seqNum), status, clock(old(ticks)), old(SendResult()))
    {
      hide Notified, Heard;
      LogStatus(Header(id, seqNum), status);
      if retry != null {
        NotifiedWell(retry.View(), Header(id, seqNum), status, clock(ticks), SendResult());
        retry.OnStatusChanged(id, seqNum, status);
      }
    }

    ghost method LogStatus(key: Header, status: Status)
      modifies this`timeouts, this`acks
      ensures timeouts == if status.TIMEOUT? then old(timeouts) + [key] else old(timeouts)
      ensures acks == if status.SUCCESS? then old(acks) + [key] else old(acks)
    {
      if status.TIMEOUT? {
        timeouts := timeouts + [key];
      } else {
        acks := acks + [key];
      }
    }

    /** One status seen by the other subscribers: they may add, remove or cancel entries. */
    method RunScript()
      requires Linked()
      modifies Frame()
      ensures Linked() && retry == old(retry) && clock == old(clock) && Later(old(scripts), scripts)
      ensures Went(clock, old(Here()), Here(), [], Named(old(scripts), scripts))
      ensures SomeRan(old(scripts), scripts) && (old(scripts) == [] ==> Here() == old(Here()))
      decreases |scripts|, 0
    {
      NothingNamed(scripts);
      WentNowhere(clock, Here());
      if scripts == [] { return; }
      var script := scripts[0];
      scripts := scripts[1..];
      ghost var rest := scripts;
      NothingNamed(rest);
      for i := 0 to |script|
        invariant Linked() && retry == old(retry) && clock == old(clock) && Later(rest, scripts)
        invariant Went(clock, old(Here()), Here(), [], ScriptKeys(script[..i]) + Named(rest, scripts))
      {
        ghost var mid := Here();
        RunOp(script[i]);
        OpsCompose(clock, old(Here()), mid, Here(), script, i, rest);
      }
      assert script[..|script|] == script;
      FirstNamed(old(scripts), scripts);
    }

    method RunOp(op: MonitorOp)
      requires Linked()
      modifies Frame()
      ensures Linked() && retry == old(retry) && clock == old(clock) && Later(old(scripts), scripts)
      ensures Went(clock, old(Here()), Here(), [], OpKeys(op) + Named(old(scripts), scripts))
      ensures var k := Header(op.remoteId, op.seqNum);
              && (op.AddOp? ==> k in pending || |old(pending)| >= MAX_TRANSPORT_MONITOR_PENDING)
              && (op.CancelOp? ==> k !in pending)
              && (op.RemoveOp? && op.remoteId != 0 && k in old(pending) ==> old(acks) + [k] <= acks)
      decreases |scripts|, 3
    {
      match op {
        case AddOp(seqNum, remoteId) => RunAdd(op);
        case RemoveOp(seqNum, remoteId) =>
          ghost var before := Here();
          ghost var found, key := Remove(seqNum, remoteId);
          RemoveWent(clock, before, Here(), retry != null, op, found, key);
        case CancelOp(seqNum, remoteId) => RunCancel(op);
      }
    }

    method RunAdd(op: MonitorOp)
      requires Linked() && op.AddOp?
      modifies this`pending, this`ticks, this`rejects
      ensures Linked()
      ensures Went(clock, old(Here()), Here(), [], OpKeys(op) + Named(scripts, scripts))
      ensures Header(op.remoteId, op.seqNum) in pending || |old(pending)| >= MAX_TRANSPORT_MONITOR_PENDING
    {
      ghost var before := Here();
      var _ := Add(op.seqNum, op.remoteId);
      NothingNamed(scripts);
      AddWent(clock, before, Here(), op);
    }

    method RunCancel(op: MonitorOp)
      requires Linked() && op.CancelOp?
      modifies this`pending
      ensures Linked()
      ensures Went(clock, old(Here()), Here(), [], OpKeys(op) + Named(scripts, scripts))
      ensures Header(op.remoteId, op.seqNum) !in pending
    {
      ghost var before := Here();
      var _ := Cancel(op.seqNum, op.remoteId);
      NothingNamed(scripts);
      CancelWent(clock, before, op);
    }
  }

  class Transport {
    var result: nat -> int
    var wire: seq<Packet>

    constructor ()
      ensures wire == []
    {
      wire := [];
      result := _ => 0;
    }

    method Send(packet: Packet) returns (r: int)
      modifies this`wire
      ensures wire == old(wire) + [packet]
      ensures r == result(|old(wire)|)
    {
      r := result(|wire|);
      wire := wire + [packet];
    }
  }

  class RetryMonitor {
    const transport: Transport
    const monitor: TransportMonitor
    const maxRetries: int
    var retryStore: map<Header, RetryEntry>
    ghost var started: multiset<Header>
    ghost var acked: multiset<Header>
    ghost var failed: multiset<Header>
    ghost var submitted: set<Packet>
    ghost var since: map<Header, Mark>

    ghost function View(): State
      reads this, monitor, transport
    {
      State(retryStore, monitor.pending, transport.wire, started, acked, failed, submitted, monitor.rejects)
    }

    /** Connects to a monitor nobody else has connected to (`Init`). */
    constructor (transport: Transport, monitor: TransportMonitor, maxRetries: int)
      requires monitor.Linked() && monitor.retry == null && monitor.pending == map[]
      requires transport.wire == []
      modifies monitor`retry
      ensures this.transport == transport && this.monitor == monitor && this.maxRetries == maxRetries
      ensures monitor.Linked() && monitor.retry == this
      ensures Inv(View(), {}, maxRetries) && started == multiset{}
      ensures monitor.scripts == [] ==> Idle()
    {
      this.transport := transport;
      this.monitor := monitor;
      this.maxRetries := maxRetries;
      retryStore := map[];
      started, acked, failed, submitted, since := multiset{}, multiset{}, multiset{}, {}, map[];
      new;
      monitor.retry := this;
    }

    method OnStatusChanged(id: uint16, seqNum: uint16, status: Status)
      requires Keyed(retryStore) && monitor.Valid()
      modifies this`retryStore, this`acked, this`failed
      modifies monitor`pending, monitor`ticks, monitor`rejects, transport`wire
      ensures monitor.ticks >= old(monitor.ticks)
      ensures View() == Notified(old(View()), Header(id, seqNum), status, monitor.clock(old(monitor.ticks)),
                                 transport.result(|old(transport.wire)|))
      ensures Heard(old(View()), View(), Header(id, seqNum), status, monitor.clock(old(monitor.ticks)),
                    transport.result(|old(transport.wire)|))
    {
      var key := Header(id, seqNum);
      NotifiedInFull(View(), key, status, monitor.clock(monitor.ticks), transport.result(|transport.wire|));
      hide Heard;
      if key !in retryStore { return; }
      if status.SUCCESS? {
        retryStore := retryStore - {key};
        acked := acked + multiset{key};
      } else {
        OnTimeout(key);
      }
    }

    /** The TIMEOUT half of `OnStatusChanged`. */
    method OnTimeout(key: Header)
      requires key in retryStore && Keyed(retryStore) && monitor.Valid()
      modifies this`retryStore, this`failed, monitor`pending, monitor`ticks, monitor`rejects, transport`wire
      ensures monitor.ticks >= old(monitor.ticks)
      ensures View() == TimedOut(old(View()), key, monitor.clock(old(monitor.ticks)),
                                 transport.result(|old(transport.wire)|))
    {
      var entry := retryStore[key];
      if entry.attemptsRemaining > 0 && entry.isSent {
        Retry(key);
      } else if entry.attemptsRemaining > 0 {
        // the first send is still running: watch the message again, result ignored
        var _ := monitor.Add(entry.packet.header.seqNum, entry.packet.header.id);
      } else {
        Abandon(key);
      }
    }

    method Retry(key: Header)
      requires key in retryStore && Keyed(retryStore) && monitor.Valid()
      modifies this`retryStore, this`failed, monitor`pending, monitor`ticks, monitor`rejects, transport`wire
      ensures monitor.ticks >= old(monitor.ticks)
      ensures View() == Retried(old(View()), key, monitor.clock(old(monitor.ticks)),
                                transport.result(|old(transport.wire)|))
    {
      var packet := Charge(key);
      var _ := Transmit(packet);
    }

    method Charge(key: Header) returns (packet: Packet)
      requires key in retryStore
      modifies this`retryStore
      ensures packet == old(retryStore)[key].packet
      ensures View() == Charged(old(View()), key)
      ensures old(Keyed(retryStore)) ==> Keyed(retryStore)
    {
      var entry := retryStore[key];
      retryStore := retryStore[key := entry.(attemptsRemaining := entry.attemptsRemaining - 1)];
      packet := entry.packet;
    }

    /** Add, Send and, if either is refused, clean up and report: the part that a first
        transmission and a retransmission have in common. */
    method Transmit(packet: Packet) returns (result: int)
      requires Keyed(retryStore) && monitor.Valid()
      modifies this`retryStore, this`failed, monitor`pending, monitor`ticks, monitor`rejects, transport`wire
      ensures monitor.ticks >= old(monitor.ticks)
      ensures View() == Transmitted(old(View()), packet, monitor.clock(old(monitor.ticks)),
                                    transport.result(|old(transport.wire)|))
      ensures result == if Room(old(monitor.pending), packet.header) then transport.result(|old(transport.wire)|)
              else -1
    {
      var key := packet.header;
      var added := monitor.Add(key.seqNum, key.id);
      if !added {
        Abandon(key);
        return -1;
      }
      result := Deliver(packet);
    }

    method Deliver(packet: Packet) returns (result: int)
      requires monitor.Valid()
      modifies this`retryStore, this`failed, monitor`pending, transport`wire
      ensures result == transport.result(|old(transport.wire)|)
      ensures View() == Delivered(old(View()), packet, result)
    {
      result := transport.Send(packet);
      if result != 0 {
        var _ := monitor.Cancel(packet.header.seqNum, packet.header.id);
        Abandon(packet.header);
      }
    }

    method Abandon(key: Header)
      modifies this`retryStore, this`failed
      ensures View() == Abandoned(old(View()), key)
    {
      retryStore := retryStore - {key};
      failed := failed + multiset{key};
    }

    method SendWithRetry(packet: Packet) returns (result: int)
      requires Keyed(retryStore) && monitor.Valid()
      modifies this`retryStore, this`started, this`submitted, this`failed
      modifies monitor`pending, monitor`ticks, monitor`rejects, transport`wire
      ensures View() == Submitted(old(View()), packet, maxRetries, monitor.clock(old(monitor.ticks)),
                                  transport.result(|old(transport.wire)|))
      ensures result == if Room(old(monitor.pending), packet.header) then transport.result(|old(transport.wire)|)
              else -1
      ensures transport.wire
           == if Room(old(monitor.pending), packet.header) then old(transport.wire) + [packet] else old(transport.wire)
      ensures packet.header in retryStore <==> result == 0
      ensures result == 0 ==>
        retryStore[packet.header] == RetryEntry(packet, maxRetries, true) && packet.header in monitor.pending
    {
      var key := packet.header;
      started, submitted := started + multiset{key}, submitted + {packet};
      retryStore := retryStore[key := RetryEntry(packet, maxRetries, false)];
      result := Transmit(packet);
      if result == 0 && key in retryStore {
        retryStore := retryStore[key := retryStore[key].(isSent := true)];
      }
    }

    /** What a run keeps. */
    ghost predicate Idle()
      reads this, monitor, transport
    {
      monitor.retry == this && monitor.scripts == [] && Kept(View(), monitor.timeouts, since, maxRetries)
    }

    lemma IdleIsWell()
      requires Idle()
      ensures Keyed(retryStore) && monitor.Linked()
    {
    }

    /** A send of a message that is not stored already. */
    method HandleSend(packet: Packet)
      requires Idle() && packet.header !in retryStore
      modifies this, monitor`pending, monitor`ticks, monitor`rejects, transport`wire
      ensures Idle()
      ensures View() == Submitted(old(View()), packet, maxRetries, monitor.clock(old(monitor.ticks)),
                                  transport.result(|old(transport.wire)|))
    {
      hide Submitted, Kept;
      IdleIsWell();
      ghost var s, now, result := View(), monitor.clock(monitor.ticks), transport.result(|transport.wire|);
      var _ := SendWithRetry(packet);
      Account(s, packet, now, result);
    }

    /** A message has been submitted: its TIMEOUTs count from now. */
    ghost method Account(s: State, packet: Packet, now: int, result: int)
      requires monitor.retry == this && monitor.scripts == []
      requires Kept(s, monitor.timeouts, since, maxRetries) && packet.header !in s.store
      requires View() == Submitted(s, packet, maxRetries, now, result)
      modifies this`since
      ensures View() == old(View()) && Idle()
    {
      SubmitKept(s, monitor.timeouts, since, packet, maxRetries, now, result);
      since := since[packet.header := Mark(|monitor.timeouts|, |s.wire|)];
      assert View() == old(View());
    }

    method HandleAck(seqNum: uint16, remoteId: uint16)
      requires Idle()
      modifies this, monitor, transport
      ensures Idle()
      ensures AckStep(old(View()), View(), seqNum, remoteId)
    {
      IdleIsWell();
      hide Told, Freed, Went, Kept;
      ghost var here := monitor.Here();
      assert here.s == View() && here.since == since;
      ghost var found, key := monitor.Remove(seqNum, remoteId);
      if found {
        AckTaken(here, monitor.Here(), key);
        AckKept(here.s, here.timeouts, here.since, key, maxRetries);
      }
    }

    method HandleTick()
      requires Idle()
      requires Window(monitor.clock, monitor.ticks, monitor.clock(monitor.ticks),
                      monitor.clock(monitor.ticks) + monitor.timeout)
      modifies this, monitor, transport
      ensures Idle() && old(monitor.timeouts) <= monitor.timeouts
      ensures TickStep(old(View()), View(), monitor.timeouts[|old(monitor.timeouts)|..],
                       old(monitor.clock)(old(monitor.ticks)), monitor.timeout)
    {
      ghost var _ := monitor.Process();
      ghost var ks := monitor.timeouts[|old(monitor.timeouts)|..];
      NothingNamed(monitor.scripts);
      TickKept(old(View()), View(), old(monitor.timeouts), ks, since, maxRetries);
      assert old(monitor.timeouts) + ks == monitor.timeouts;
    }

    /** One event, with the clock and the send results it meets; a send of a message that is still
        stored is skipped. */
    method HandleEvent(e: Event)
      requires Idle() && e.Steady(monitor.timeout)
      modifies this, monitor, transport
      ensures Idle() && Step(e, old(View()), View(), maxRetries, monitor.timeout)
    {
      match e {
        case Send(packet, clock, result) => HandleSendEvent(packet, clock, result);
        case Ack(seqNum, remoteId) => HandleAck(seqNum, remoteId);
        case Tick(clock, result) =>
          HandleTickEvent(clock, result);
      }
    }

    /** The environment of the next event. */
    method Meet(clock: nat -> int, result: nat -> int)
      requires Idle()
      modifies monitor`clock, monitor`ticks, transport`result
      ensures monitor.clock == clock && monitor.ticks == 0 && transport.result == result
      ensures View() == old(View()) && Idle()
    {
      hide Kept;
      monitor.clock, monitor.ticks, transport.result := clock, 0, result;
      assert View() == old(View());
    }

    method HandleTickEvent(clock: nat -> int, result: nat -> int)
      requires Idle() && Window(clock, 0, clock(0), clock(0) + monitor.timeout)
      modifies this, monitor, transport
      ensures Idle() && exists ks :: TickStep(old(View()), View(), ks, clock(0), monitor.timeout)
    {
      Meet(clock, result);
      HandleTick();
      ghost var ks := monitor.timeouts[|old(monitor.timeouts)|..];
      assert TickStep(old(View()), View(), ks, clock(0), monitor.timeout);
    }

    method HandleSendEvent(packet: Packet, clock: nat -> int, result: nat -> int)
      requires Idle()
      modifies this, monitor, transport
      ensures Idle()
      ensures SendStep(old(View()), View(), packet, maxRetries, clock(0), result(|old(transport.wire)|))
    {
      Meet(clock, result);
      if packet.header !in retryStore {
        HandleSend(packet);
      }
    }

    method HandleNext(ghost states: seq<State>, events: seq<Event>, i: nat) returns (ghost states': seq<State>)
      requires Idle() && i < |events| && events[i].Steady(monitor.timeout)
      requires IsRun(states, events[..i], maxRetries, monitor.timeout) && states[i] == View()
      modifies this, monitor, transport
      ensures Idle() && states' == states + [View()]
      ensures IsRun(states', events[..i + 1], maxRetries, monitor.timeout)
    {
      HandleEvent(events[i]);
      RunGrows(states, events, i, View(), maxRetries, monitor.timeout);
      states' := states + [View()];
    }

    /** Any run of sends, ACKs and `Process` calls, under any clock and any send results. The
        invariant holds after it; and a message that had expired at more ticks of it than it had
        attempts left at its start was ACKed or reported failed in it, whatever else happened. */
    method Run(events: seq<Event>) returns (ghost states: seq<State>)
      requires Idle()
      requires forall e | e in events :: e.Steady(monitor.timeout)
      modifies this, monitor, transport
      ensures Idle() && IsRun(states, events, maxRetries, monitor.timeout)
      ensures states[0] == old(View()) && states[|events|] == View()
      ensures AllStarted(states, events) && NoneOutlivesItsAttempts(states, events, monitor.timeout)
    {
      states := [View()];
      for i := 0 to |events|
        invariant Idle() && |states| == i + 1 && states[0] == old(View()) && states[i] == View()
        invariant IsRun(states, events[..i], maxRetries, monitor.timeout)
      {
        states := HandleNext(states, events, i);
      }
      assert events[..|events|] == events;
      RunStarts(states, events, maxRetries, monitor.timeout);
      RunEndsWithinBudget(states, events, maxRetries, monitor.timeout);
    }
  }
}
