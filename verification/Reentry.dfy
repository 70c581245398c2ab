/**
 * What the other status subscribers may do to a monitor while it reports: they run scripts of
 * monitor operations, which can emit further statuses and so consume further scripts. `Went`
 * relates two moments of a monitor whose callbacks may have run in between: nothing happened to
 * a message that was neither reported nor named by a script that ran.
 */
module Reentry {
  import opened SenderSpec
  import opened DrainSpec

  /** An operation names the keys it can act on; `Remove` with remote id 0 looks for the number. */
  predicate Names(op: MonitorOp, k: Header) {
    match op
    case RemoveOp(seqNum, remoteId) => k.seqNum == seqNum && (remoteId == 0 || remoteId == k.id)
    case _ => k == Header(op.remoteId, op.seqNum)
  }

  ghost function OpKeys(op: MonitorOp): iset<Header> {
    iset k: Header | Names(op, k)
  }

  ghost function ScriptKeys(script: seq<MonitorOp>): iset<Header> {
    iset k: Header, op | op in script && Names(op, k) :: k
  }

  ghost function AllKeys(scripts: seq<seq<MonitorOp>>): iset<Header> {
    iset k: Header, script | script in scripts && k in ScriptKeys(script) :: k
  }

  /** `b` is what is left of the scripts `a`. */
  ghost predicate Later(a: seq<seq<MonitorOp>>, b: seq<seq<MonitorOp>>) {
    |b| <= |a| && b == a[|a| - |b|..]
  }

  /** If there were scripts, not all of them are left: the first one ran. */
  ghost predicate SomeRan(a: seq<seq<MonitorOp>>, b: seq<seq<MonitorOp>>) {
    a != [] ==> b != a
  }

  /** The keys named by the scripts that ran between `a` and `b`. */
  ghost function Named(a: seq<seq<MonitorOp>>, b: seq<seq<MonitorOp>>): iset<Header>
    requires |b| <= |a|
  {
    AllKeys(a[..|a| - |b|])
  }

  lemma LaterTrans(a: seq<seq<MonitorOp>>, b: seq<seq<MonitorOp>>, c: seq<seq<MonitorOp>>)
    requires Later(a, b) && Later(b, c)
    ensures Later(a, c) && Named(a, c) == Named(a, b) + Named(b, c)
  {
    var ran, next := a[..|a| - |b|], b[..|b| - |c|];
    assert a[..|a| - |c|] == ran + next;
    assert forall script :: script in ran + next <==> script in ran || script in next;
  }

  lemma NothingNamed(a: seq<seq<MonitorOp>>)
    ensures Later(a, a) && Named(a, a) == iset{}
  {
  }

  /** The first script ran, and perhaps others during it. */
  lemma FirstNamed(a: seq<seq<MonitorOp>>, b: seq<seq<MonitorOp>>)
    requires a != [] && Later(a[1..], b)
    ensures Later(a, b) && Named(a, b) == ScriptKeys(a[0]) + Named(a[1..], b)
  {
    assert a[..|a| - |b|] == [a[0]] + a[1..][..|a| - 1 - |b|];
  }

  lemma ScriptGrows(script: seq<MonitorOp>, i: nat)
    requires i < |script|
    ensures ScriptKeys(script[..i + 1]) == ScriptKeys(script[..i]) + OpKeys(script[i])
  {
    assert script[..i + 1] == script[..i] + [script[i]];
  }

  /** A monitor with its listeners, at one moment. */
  datatype Moment = Moment(
    s: State,
    scripts: seq<seq<MonitorOp>>,
    timeouts: seq<Header>,
    acks: seq<Header>,
    ticks: nat,
    since: map<Header, Mark>)

  /** The retry monitor, if one listens, has heard of a status, and no one else yet. */
  function Told(m: Moment, listening: bool, k: Header, status: Status, now: int, result: int): Moment {
    m.(s := if listening then Notified(m.s, k, status, now, result) else m.s,
       timeouts := if status.TIMEOUT? then m.timeouts + [k] else m.timeouts,
       acks := if status.SUCCESS? then m.acks + [k] else m.acks)
  }

  ghost predicate Same(s: State, s': State, k: Header) {
    && SameAt(s.store, s'.store, k) && SameAt(s.pending, s'.pending, k)
    && s'.acked[k] == s.acked[k] && s'.failed[k] == s.failed[k]
  }

  /** One TIMEOUT for `k`: an attempt is spent unless the first send still runs, or the message is
      dropped and reported failed. */
  ghost predicate TimedOutOnce(s: State, s': State, k: Header) {
    && (k in s'.store ==>
      && k in s.store && s.store[k].attemptsRemaining > 0
      && s'.store[k] == (if s.store[k].isSent then s.store[k].(attemptsRemaining := s.store[k].attemptsRemaining - 1)
                         else s.store[k]))
    && s'.acked[k] == s.acked[k]
    && s'.failed[k] == s.failed[k] + if k in s.store && k !in s'.store then 1 else 0
  }

  ghost predicate Spared(s: State, s': State, ks: seq<Header>, named: iset<Header>) {
    && s'.started == s.started && s'.submitted == s.submitted
    && (ks == [] ==> s'.wire == s.wire && s'.failed == s.failed)
    && forall k: Header | k !in ks && k !in named :: Same(s, s', k)
  }

  ghost predicate Charging(s: State, s': State, ks: seq<Header>, named: iset<Header>) {
    forall k: Header | k in ks && k !in named :: TimedOutOnce(s, s', k)
  }

  /** The acknowledgements reported since are of named keys. */
  ghost predicate AcksOf(acks: seq<Header>, acks': seq<Header>, named: iset<Header>) {
    acks <= acks' && forall i | |acks| <= i < |acks'| :: acks'[i] in named
  }

  /** Between two moments TIMEOUT was reported for `ks`, in this order, and the scripts that ran
      named at most `named`. */
  ghost predicate Went(clock: nat -> int, m: Moment, m': Moment, ks: seq<Header>, named: iset<Header>) {
    && m.ticks <= m'.ticks && m'.since == m.since
    && NewStamps(clock, m.ticks, m.s.pending, m'.s.pending)
    && m'.timeouts == m.timeouts + ks
    && AcksOf(m.acks, m'.acks, named)
    && Spared(m.s, m'.s, ks, named)
    && Charging(m.s, m'.s, ks, named)
  }

  lemma WentNowhere(clock: nat -> int, m: Moment)
    ensures Went(clock, m, m, [], iset{})
  {
  }

  lemma SpareTrans(a: State, b: State, c: State, ks: seq<Header>, ls: seq<Header>, n: iset<Header>, o: iset<Header>)
    requires Spared(a, b, ks, n) && Spared(b, c, ls, o)
    ensures Spared(a, c, ks + ls, n + o)
  {
    forall k: Header | k !in ks + ls && k !in n + o
      ensures Same(a, c, k)
    {
      assert Same(a, b, k) && Same(b, c, k);
    }
  }

  lemma ChargeTrans(a: State, b: State, c: State, ks: seq<Header>, ls: seq<Header>, n: iset<Header>, o: iset<Header>)
    requires Spared(a, b, ks, n) && Spared(b, c, ls, o) && Charging(a, b, ks, n) && Charging(b, c, ls, o)
    requires forall k | k in ks :: k !in ls
    ensures Charging(a, c, ks + ls, n + o)
  {
    forall k: Header | k in ks + ls && k !in n + o
      ensures TimedOutOnce(a, c, k)
    {
      if k in ks {
        assert TimedOutOnce(a, b, k) && Same(b, c, k);
      } else {
        assert Same(a, b, k) && TimedOutOnce(b, c, k);
      }
    }
  }

  lemma AcksTrans(a: seq<Header>, b: seq<Header>, c: seq<Header>, n: iset<Header>, o: iset<Header>)
    requires AcksOf(a, b, n) && AcksOf(b, c, o)
    ensures AcksOf(a, c, n + o)
  {
  }

  lemma WentTrans(clock: nat -> int, a: Moment, b: Moment, c: Moment, ks: seq<Header>, ls: seq<Header>,
                  n: iset<Header>, o: iset<Header>)
    requires Went(clock, a, b, ks, n) && Went(clock, b, c, ls, o) && forall k | k in ks :: k !in ls
    ensures Went(clock, a, c, ks + ls, n + o)
  {
    NewStampsTrans(clock, a.ticks, b.ticks, a.s.pending, b.s.pending, c.s.pending);
    SpareTrans(a.s, b.s, c.s, ks, ls, n, o);
    ChargeTrans(a.s, b.s, c.s, ks, ls, n, o);
    AcksTrans(a.acks, b.acks, c.acks, n, o);
  }

  lemma DeliveredIsLocal(s: State, p: Packet, result: int, j: Header)
    requires j != p.header
    ensures Same(s, Delivered(s, p, result), j)
  {
  }

  lemma TransmittedIsLocal(s: State, p: Packet, now: int, result: int, j: Header)
    requires j != p.header
    ensures Same(s, Transmitted(s, p, now, result), j)
  {
    DeliveredIsLocal(Added(s, p, now), p, result, j);
  }

  /** A status for `k` changes nothing about another message. */
  lemma NotifiedIsLocal(s: State, k: Header, status: Status, now: int, result: int, j: Header)
    requires Keyed(s.store) && j != k
    ensures Same(s, Notified(s, k, status, now, result), j)
  {
    if k in s.store && status.TIMEOUT? && s.store[k].attemptsRemaining > 0 && s.store[k].isSent {
      TransmittedIsLocal(Charged(s, k), s.store[k].packet, now, result, j);
    }
  }

  lemma TransmittedOnce(s: State, p: Packet, now: int, result: int)
    requires p.header in s.store
    ensures var s' := Transmitted(s, p, now, result);
            && s'.acked == s.acked
            && (p.header in s'.store ==> s'.store == s.store && s'.failed == s.failed)
            && (p.header !in s'.store ==> s'.failed == s.failed + multiset{p.header})
  {
  }

  lemma TimeoutChargesOnce(s: State, k: Header, now: int, result: int)
    requires Keyed(s.store)
    ensures TimedOutOnce(s, Notified(s, k, TIMEOUT, now, result), k)
  {
    if k in s.store && s.store[k].attemptsRemaining > 0 && s.store[k].isSent {
      TransmittedOnce(Charged(s, k), s.store[k].packet, now, result);
    }
  }

  lemma NotifiedStarts(s: State, k: Header, status: Status, now: int, result: int)
    ensures var s' := Notified(s, k, status, now, result);
            && s'.started == s.started && s'.submitted == s.submitted
            && (status.SUCCESS? ==> s'.wire == s.wire && s'.failed == s.failed)
  {
  }

  /** A TIMEOUT, before any script runs. */
  lemma ToldTimeout(clock: nat -> int, m: Moment, listening: bool, k: Header, result: int)
    requires Keyed(m.s.store) && WellKeyed(m.s.pending) && (!listening ==> m.s.store == map[])
    ensures Went(clock, m, Told(m, listening, k, TIMEOUT, clock(m.ticks), result), [k], iset{})
  {
    var s, now := m.s, clock(m.ticks);
    var s' := Told(m, listening, k, TIMEOUT, now, result).s;
    if listening {
      NotifiedShape(s, k, TIMEOUT, now, result);
      NotifiedStarts(s, k, TIMEOUT, now, result);
      TimeoutChargesOnce(s, k, now, result);
      forall j: Header | j !in [k]
        ensures Same(s, s', j)
      {
        NotifiedIsLocal(s, k, TIMEOUT, now, result, j);
      }
    }
    FreshOnly(clock, m.ticks, s.pending, s'.pending);
  }

  /** A TIMEOUT, and the scripts that ran on it. */
  lemma TimeoutWent(clock: nat -> int, m: Moment, m': Moment, listening: bool, k: Header, result: int,
                    named: iset<Header>)
    requires Keyed(m.s.store) && WellKeyed(m.s.pending) && (!listening ==> m.s.store == map[])
    requires Went(clock, Told(m, listening, k, TIMEOUT, clock(m.ticks), result), m', [], named)
    ensures Went(clock, m, m', [k], named)
  {
    hide Went, Told;
    ToldTimeout(clock, m, listening, k, result);
    WentTrans(clock, m, Told(m, listening, k, TIMEOUT, clock(m.ticks), result), m', [k], [], iset{}, named);
    assert [k] + [] == [k] && iset{} + named == named;
  }

  lemma FreshOnly(clock: nat -> int, ticks: nat, p: map<Header, TimeoutData>, p': map<Header, TimeoutData>)
    requires forall j | j in p' :: SameAt(p, p', j) || p'[j].timeStamp == clock(ticks)
    ensures NewStamps(clock, ticks, p, p')
  {
  }

  /** An acknowledgement, before any script runs. */
  function Freed(m: Moment, k: Header): Moment {
    m.(s := m.s.(pending := m.s.pending - {k}))
  }

  /** All there is to an acknowledgement when nobody else listens. */
  lemma AckTaken(m: Moment, m': Moment, k: Header)
    requires m'.(ticks := m.ticks) == Told(Freed(m, k), true, k, SUCCESS, 0, 0)
    ensures m'.s == Acknowledged(m.s, k)
    ensures m'.timeouts == m.timeouts && m'.since == m.since && m'.scripts == m.scripts
  {
  }

  lemma ToldSuccess(clock: nat -> int, m: Moment, listening: bool, k: Header)
    requires Keyed(m.s.store)
    ensures Went(clock, m, Told(Freed(m, k), listening, k, SUCCESS, 0, 0), [], iset{k})
  {
  }

  lemma AddWent(clock: nat -> int, m: Moment, m': Moment, op: MonitorOp)
    requires op.AddOp?
    requires var k := Header(op.remoteId, op.seqNum);
             if Room(m.s.pending, k) then
               m' == m.(s := m.s.(pending := m.s.pending[k := TimeoutData(op.remoteId, op.seqNum, clock(m.ticks))]),
                        ticks := m.ticks + 1)
             else m' == m.(s := m.s.(rejects := m.s.rejects + 1))
    ensures Went(clock, m, m', [], OpKeys(op))
  {
    FreshOnly(clock, m.ticks, m.s.pending, m'.s.pending);
  }

  lemma CancelWent(clock: nat -> int, m: Moment, op: MonitorOp)
    requires op.CancelOp?
    ensures Went(clock, m, Freed(m, Header(op.remoteId, op.seqNum)), [], OpKeys(op))
  {
  }

  lemma WentMore(clock: nat -> int, m: Moment, m': Moment, ks: seq<Header>, n: iset<Header>, o: iset<Header>)
    requires Went(clock, m, m', ks, n) && n <= o
    ensures Went(clock, m, m', ks, o)
  {
  }

  /** Only the clock went on. */
  lemma WentLater(clock: nat -> int, m: Moment, m': Moment)
    requires m' == m.(ticks := m'.ticks) && m.ticks <= m'.ticks
    ensures Went(clock, m, m', [], iset{})
  {
  }

  /** A batch has been collected. */
  ghost function Without(m: Moment, batch: seq<TimeoutData>): Moment {
    m.(s := m.s.(pending := m.s.pending - Keys(batch)), ticks := m.ticks + 1)
  }

  /** Callbacks that went on from there, seen from before. */
  lemma WentAfterCollecting(clock: nat -> int, m: Moment, left: Moment, m': Moment, batch: seq<TimeoutData>,
                            named: iset<Header>)
    requires left == Without(m, batch) && Went(clock, left, m', KeySeq(batch), named)
    ensures Went(clock, m, m', KeySeq(batch), named)
  {
    NewStampsTrans(clock, m.ticks, left.ticks, m.s.pending, left.s.pending, m'.s.pending);
    forall k: Header | k !in KeySeq(batch) && k !in named
      ensures Same(m.s, m'.s, k)
    {
      NotInKeys(batch, k);
      assert Same(left.s, m'.s, k);
    }
    forall k: Header | k in KeySeq(batch) && k !in named
      ensures TimedOutOnce(m.s, m'.s, k)
    {
      assert TimedOutOnce(left.s, m'.s, k);
    }
  }

  /** A stretch of a drain that reported `ks`, with whatever scripts ran. */
  ghost predicate Draining(clock: nat -> int, a: Moment, b: Moment, ks: seq<Header>, epoch: int, quiet: bool) {
    && Later(a.scripts, b.scripts)
    && Went(clock, a, b, ks, Named(a.scripts, b.scripts))
    && Drained(a.s.pending, a.s, b.s.pending, b.s, ks, epoch, quiet)
  }

  lemma DrainBegins(clock: nat -> int, a: Moment, epoch: int, quiet: bool)
    ensures Draining(clock, a, a, [], epoch, quiet)
  {
    NothingNamed(a.scripts);
    WentNowhere(clock, a);
  }

  /** Two stretches, seen as one. */
  lemma PassesCompose(clock: nat -> int, a: Moment, b: Moment, c: Moment, ks: seq<Header>, ls: seq<Header>,
                      epoch: int, quiet: bool)
    requires Draining(clock, a, b, ks, epoch, quiet) && Draining(clock, b, c, ls, epoch, quiet)
    ensures Draining(clock, a, c, ks + ls, epoch, quiet)
    ensures Stale(c.s.pending, epoch) <= Stale(b.s.pending, epoch)
    ensures ls != [] ==> Stale(c.s.pending, epoch) < Stale(b.s.pending, epoch)
  {
    LaterTrans(a.scripts, b.scripts, c.scripts);
    DrainedTrans(a.s.pending, a.s, b.s.pending, b.s, c.s.pending, c.s, ks, ls, epoch, quiet);
    GoneApart(a.s.pending, b.s.pending, c.s.pending, ks, ls, epoch);
    WentTrans(clock, a, b, c, ks, ls, Named(a.scripts, b.scripts), Named(b.scripts, c.scripts));
  }

  /** The operations of one script, seen as one. */
  lemma OpsCompose(clock: nat -> int, a: Moment, b: Moment, c: Moment, script: seq<MonitorOp>, i: nat,
                   rest: seq<seq<MonitorOp>>)
    requires i < |script| && Later(rest, b.scripts) && Later(b.scripts, c.scripts)
    requires Went(clock, a, b, [], ScriptKeys(script[..i]) + Named(rest, b.scripts))
    requires Went(clock, b, c, [], OpKeys(script[i]) + Named(b.scripts, c.scripts))
    ensures Later(rest, c.scripts)
    ensures Went(clock, a, c, [], ScriptKeys(script[..i + 1]) + Named(rest, c.scripts))
  {
    var n, o := ScriptKeys(script[..i]) + Named(rest, b.scripts), OpKeys(script[i]) + Named(b.scripts, c.scripts);
    LaterTrans(rest, b.scripts, c.scripts);
    ScriptGrows(script, i);
    WentTrans(clock, a, b, c, [], [], n, o);
    assert n + o == ScriptKeys(script[..i + 1]) + Named(rest, c.scripts);
  }

  lemma RemoveWent(clock: nat -> int, m: Moment, m': Moment, listening: bool, op: MonitorOp, found: bool, k: Header)
    requires op.RemoveOp? && Keyed(m.s.store) && Later(m.scripts, m'.scripts)
    requires !found ==> m' == m
    requires found ==> Names(op, k) && Went(clock, Told(Freed(m, k), listening, k, SUCCESS, 0, 0), m', [],
                                            Named(m.scripts, m'.scripts))
    ensures Went(clock, m, m', [], OpKeys(op) + Named(m.scripts, m'.scripts))
  {
    var named := Named(m.scripts, m'.scripts);
    if found {
      var told := Told(Freed(m, k), listening, k, SUCCESS, 0, 0);
      ToldSuccess(clock, m, listening, k);
      WentTrans(clock, m, told, m', [], [], iset{k}, named);
      WentMore(clock, m, m', [], iset{k} + named, OpKeys(op) + named);
    } else {
      WentNowhere(clock, m);
      WentMore(clock, m, m', [], iset{}, OpKeys(op) + named);
    }
  }

  /** Nothing has expired at `now`. */
  ghost predicate AllCurrent(p: map<Header, TimeoutData>, now: int, timeout: int) {
    forall k | k in p :: !Expired(p[k], now, timeout)
  }

  /** What a `Process` call that began at `epoch` did to the entries no script named: each was
      reported or is still there as it was, and each that had expired at the start was reported. */
  ghost predicate Cleared(p: map<Header, TimeoutData>, p': map<Header, TimeoutData>, ks: seq<Header>,
                          named: iset<Header>, epoch: int, timeout: int)
  {
    forall k | k in p && k !in named ::
      && (k in ks || (k in p' && p'[k] == p[k]))
      && (Expired(p[k], epoch, timeout) ==> k in ks)
  }

  lemma AllCleared(clock: nat -> int, m: Moment, m': Moment, ks: seq<Header>, named: iset<Header>,
                   epoch: int, last: int, timeout: int)
    requires Went(clock, m, m', ks, named) && epoch <= last && AllCurrent(m'.s.pending, last, timeout)
    ensures Cleared(m.s.pending, m'.s.pending, ks, named, epoch, timeout)
  {
    forall k | k in m.s.pending && k !in named
      ensures k in ks || (k in m'.s.pending && m'.s.pending[k] == m.s.pending[k])
      ensures Expired(m.s.pending[k], epoch, timeout) ==> k in ks
    {
      assert k !in ks ==> Same(m.s, m'.s, k);
    }
  }
}
