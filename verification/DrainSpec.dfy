/**
 * The drain of `TransportMonitor::Process` as relations on values: what one pass collects, what
 * the callbacks may add meanwhile, and how passes compose.
 */
module DrainSpec {
  import opened MapFacts
  import opened SenderSpec

  /** Every entry of `after` is an untouched entry of `before` or carries a stamp read from the
      clock at reading `ticks` or later. */
  ghost predicate NewStamps(clock: nat -> int, ticks: nat, before: map<Header, TimeoutData>,
                            after: map<Header, TimeoutData>) {
    forall k | k in after :: (k in before && after[k] == before[k]) || Reading(clock, ticks, after[k].timeStamp)
  }

  ghost predicate Reading(clock: nat -> int, ticks: nat, t: int) {
    exists i: nat :: ticks <= i && t == clock(i)
  }

  lemma ReadingLater(clock: nat -> int, t0: nat, t1: nat, t: int)
    requires t0 <= t1 && Reading(clock, t1, t)
    ensures Reading(clock, t0, t)
  {
  }

  lemma NewStampsTrans(clock: nat -> int, t0: nat, t1: nat, a: map<Header, TimeoutData>, b: map<Header, TimeoutData>,
                       c: map<Header, TimeoutData>)
    requires t0 <= t1 && NewStamps(clock, t0, a, b) && NewStamps(clock, t1, b, c)
    ensures NewStamps(clock, t0, a, c)
  {
    forall k | k in c && !(k in a && c[k] == a[k])
      ensures Reading(clock, t0, c[k].timeStamp)
    {
      if Reading(clock, t1, c[k].timeStamp) {
        ReadingLater(clock, t0, t1, c[k].timeStamp);
      }
    }
  }

  /** The keys of entries stamped before `epoch`: what the drain loop uses up. */
  ghost function Stale(pending: map<Header, TimeoutData>, epoch: int): set<Header> {
    set k | k in pending && pending[k].timeStamp < epoch
  }

  function KeyOf(d: TimeoutData): Header {
    Header(d.remoteId, d.seqNum)
  }

  predicate From(d: TimeoutData, pending: map<Header, TimeoutData>) {
    KeyOf(d) in pending && pending[KeyOf(d)] == d
  }

  ghost function Keys(batch: seq<TimeoutData>): set<Header> {
    set d | d in batch :: KeyOf(d)
  }

  lemma KeysTail(batch: seq<TimeoutData>)
    requires batch != [] && forall i, j | 0 <= i < j < |batch| :: KeyOf(batch[i]) != KeyOf(batch[j])
    ensures KeyOf(batch[0]) in Keys(batch)
    ensures Keys(batch[1..]) == Keys(batch) - {KeyOf(batch[0])}
  {
    assert batch == [batch[0]] + batch[1..];
    assert KeyOf(batch[0]) !in Keys(batch[1..]);
  }

  lemma KeysAppend(batch: seq<TimeoutData>, d: TimeoutData)
    ensures Keys(batch + [d]) == Keys(batch) + {KeyOf(d)}
  {
    assert forall c :: c in batch + [d] <==> c in batch || c == d;
  }

  ghost predicate Ascending(batch: seq<TimeoutData>) {
    forall i, j | 0 <= i < j < |batch| :: Before(KeyOf(batch[i]), KeyOf(batch[j]))
  }

  ghost predicate AllBefore(batch: seq<TimeoutData>, k: Header) {
    forall i | 0 <= i < |batch| :: Before(KeyOf(batch[i]), k)
  }

  /** What one pass collects from `pending` at time `now`: the first expired entries in key order. */
  ghost predicate Collected(pending: map<Header, TimeoutData>, batch: seq<TimeoutData>, now: int, timeout: int) {
    && |batch| <= MAX_TIMER_EXPIRED
    && Ascending(batch)
    && (forall i | 0 <= i < |batch| :: From(batch[i], pending) && Expired(batch[i], now, timeout))
    && (forall k | k in pending && Expired(pending[k], now, timeout) && k !in Keys(batch) ::
          |batch| == MAX_TIMER_EXPIRED && AllBefore(batch, k))
  }

  /** Midway through the scan: `left` is what the map still holds, `rest` the keys not reached yet. */
  ghost predicate Scanning(pending: map<Header, TimeoutData>, left: map<Header, TimeoutData>, rest: set<Header>,
                           batch: seq<TimeoutData>, now: int, timeout: int)
  {
    && |batch| <= MAX_TIMER_EXPIRED
    && WellKeyed(left)
    && rest <= left.Keys
    && left == pending - Keys(batch)
    && (forall i | 0 <= i < |batch| :: From(batch[i], pending) && Expired(batch[i], now, timeout))
    && (forall k | k in left && k !in rest :: !Expired(left[k], now, timeout))
  }

  ghost predicate InOrder(batch: seq<TimeoutData>, rest: set<Header>) {
    Ascending(batch) && forall k | k in rest :: AllBefore(batch, k)
  }

  lemma ScanTakes(pending: map<Header, TimeoutData>, left: map<Header, TimeoutData>, rest: set<Header>,
                  batch: seq<TimeoutData>, k: Header, now: int, timeout: int)
    requires Scanning(pending, left, rest, batch, now, timeout) && |batch| < MAX_TIMER_EXPIRED
    requires k in rest && Expired(left[k], now, timeout)
    ensures Scanning(pending, left - {k}, rest - {k}, batch + [left[k]], now, timeout)
  {
    assert KeyOf(left[k]) == k;
    KeysAppend(batch, left[k]);
    WithoutTwice(pending, Keys(batch), k);
    WithoutSize(left, k);
  }

  lemma OrderTakes(batch: seq<TimeoutData>, rest: set<Header>, d: TimeoutData)
    requires InOrder(batch, rest) && KeyOf(d) in rest && forall j | j in rest :: j == KeyOf(d) || Before(KeyOf(d), j)
    ensures InOrder(batch + [d], rest - {KeyOf(d)})
  {
  }

  lemma ScanSkips(pending: map<Header, TimeoutData>, left: map<Header, TimeoutData>, rest: set<Header>,
                  batch: seq<TimeoutData>, k: Header, now: int, timeout: int)
    requires Scanning(pending, left, rest, batch, now, timeout) && k in rest && !Expired(left[k], now, timeout)
    requires InOrder(batch, rest)
    ensures Scanning(pending, left, rest - {k}, batch, now, timeout) && InOrder(batch, rest - {k})
  {
  }

  /** The scan ends at the end of the map, or at an expired entry the full batch has no room for. */
  lemma ScanEnds(pending: map<Header, TimeoutData>, left: map<Header, TimeoutData>, rest: set<Header>,
                 batch: seq<TimeoutData>, now: int, timeout: int)
    requires Scanning(pending, left, rest, batch, now, timeout) && InOrder(batch, rest)
    requires rest == {} || |batch| == MAX_TIMER_EXPIRED
    ensures Collected(pending, batch, now, timeout)
  {
  }

  ghost function KeySeq(batch: seq<TimeoutData>): seq<Header> {
    seq(|batch|, i requires 0 <= i < |batch| => KeyOf(batch[i]))
  }

  ghost predicate Distinct(ks: seq<Header>) {
    forall i, j | 0 <= i < j < |ks| :: ks[i] != ks[j]
  }

  /** Every clock reading from `ticks` on lies in the given window. */
  ghost predicate Window(clock: nat -> int, ticks: nat, lo: int, hi: int) {
    forall i: nat | ticks <= i :: lo <= clock(i) <= hi
  }

  /** An untouched entry of `before`, or one stamped at `epoch` or later. */
  ghost predicate OnlyFresh(before: map<Header, TimeoutData>, after: map<Header, TimeoutData>, epoch: int) {
    forall k | k in after :: (k in before && after[k] == before[k]) || epoch <= after[k].timeStamp
  }

  /** `gone` are the entries, all stamped before `epoch`, that the drain took out, each once. */
  ghost predicate Gone(before: map<Header, TimeoutData>, after: map<Header, TimeoutData>, gone: seq<Header>,
                       epoch: int) {
    && OnlyFresh(before, after, epoch)
    && Distinct(gone)
    && (forall k | k in gone :: k in before && before[k].timeStamp < epoch)
    && (forall k | k in gone && k in after :: epoch <= after[k].timeStamp)
  }

  /** A pass that collected `batch` at time `now` and whose callbacks turned `left` into `after`. */
  lemma PassGone(before: map<Header, TimeoutData>, left: map<Header, TimeoutData>, after: map<Header, TimeoutData>,
                 batch: seq<TimeoutData>, now: int, timeout: int, clock: nat -> int, ticks: nat, epoch: int)
    requires Collected(before, batch, now, timeout) && left == before - Keys(batch)
    requires NewStamps(clock, ticks, left, after) && Window(clock, ticks, epoch, epoch + timeout)
             && now <= epoch + timeout
    ensures Gone(before, after, KeySeq(batch), epoch)
    ensures |batch| < MAX_TIMER_EXPIRED ==> forall k | k in after :: !Expired(after[k], now, timeout)
  {
    forall k | k in after
      ensures (k in left && after[k] == left[k]) || epoch <= after[k].timeStamp
    {
    }
    var ks := KeySeq(batch);
    forall i | 0 <= i < |batch|
      ensures ks[i] in before && before[ks[i]].timeStamp < epoch && ks[i] in Keys(batch)
    {
      assert From(batch[i], before) && Expired(batch[i], now, timeout);
    }
  }

  lemma GoneTrans(a: map<Header, TimeoutData>, b: map<Header, TimeoutData>, c: map<Header, TimeoutData>,
                  ks: seq<Header>, ls: seq<Header>, epoch: int)
    requires Gone(a, b, ks, epoch) && Gone(b, c, ls, epoch)
    ensures Gone(a, c, ks + ls, epoch)
    ensures Stale(c, epoch) <= Stale(b, epoch)
    ensures ls != [] ==> Stale(c, epoch) < Stale(b, epoch)
  {
    forall i, j | 0 <= i < |ks| && 0 <= j < |ls|
      ensures ks[i] != ls[j]
    {
      assert ks[i] in ks && ls[j] in ls;
    }
    if ls != [] {
      assert ls[0] in Stale(b, epoch) && ls[0] !in Stale(c, epoch);
    }
  }

  /** What one stretch took out, a later one does not take out again. */
  lemma GoneApart(a: map<Header, TimeoutData>, b: map<Header, TimeoutData>, c: map<Header, TimeoutData>,
                  ks: seq<Header>, ls: seq<Header>, epoch: int)
    requires Gone(a, b, ks, epoch) && Gone(b, c, ls, epoch)
    ensures forall k | k in ks :: k !in ls
  {
    forall k | k in ks
      ensures k !in ls
    {
      assert k in b ==> epoch <= b[k].timeStamp;
    }
  }

  /** What the passes so far did to `p0`, and, when the retry monitor alone listens, to `s0`. */
  ghost predicate Drained(p0: map<Header, TimeoutData>, s0: State, p: map<Header, TimeoutData>, s: State,
                          gone: seq<Header>, epoch: int, quiet: bool)
  {
    Gone(p0, p, gone, epoch) && (quiet ==> Settled(s0, s, gone))
  }

  lemma DrainedTrans(p0: map<Header, TimeoutData>, s0: State, p: map<Header, TimeoutData>, s: State,
                     p': map<Header, TimeoutData>, s': State, ks: seq<Header>, ls: seq<Header>, epoch: int, quiet: bool)
    requires Drained(p0, s0, p, s, ks, epoch, quiet) && Drained(p, s, p', s', ls, epoch, quiet)
    ensures Drained(p0, s0, p', s', ks + ls, epoch, quiet)
    ensures Stale(p', epoch) <= Stale(p, epoch)
    ensures ls != [] ==> Stale(p', epoch) < Stale(p, epoch)
  {
    GoneTrans(p0, p, p', ks, ls, epoch);
    if quiet {
      GoneApart(p0, p, p', ks, ls, epoch);
      SettledTrans(s0, s, s', ks, ls);
    }
  }

  lemma Assoc<T>(a: seq<T>, b: seq<T>, c: seq<T>)
    ensures a + b + c == a + (b + c)
  {
  }

  predicate SameAt<V(==)>(m: map<Header, V>, n: map<Header, V>, k: Header) {
    (k in m <==> k in n) && (k in m ==> m[k] == n[k])
  }

  /** What TIMEOUTs for `ks` send: the stored packet of each message that has attempts left. */
  ghost function Resent(store: map<Header, RetryEntry>, ks: seq<Header>): seq<Packet> {
    if ks == [] then []
    else
      var n := |ks| - 1;
      Resent(store, ks[..n])
      + if ks[n] in store && store[ks[n]].attemptsRemaining > 0 then [store[ks[n]].packet] else []
  }

  lemma {:induction false} ResentSame(store: map<Header, RetryEntry>, store': map<Header, RetryEntry>, ks: seq<Header>)
    requires forall k | k in ks :: SameAt(store, store', k)
    ensures Resent(store, ks) == Resent(store', ks)
  {
    if ks != [] {
      ResentSame(store, store', ks[..|ks| - 1]);
      assert ks[|ks| - 1] in ks;
    }
  }

  lemma {:induction false} ResentConcat(store: map<Header, RetryEntry>, ks: seq<Header>, ls: seq<Header>)
    ensures Resent(store, ks + ls) == Resent(store, ks) + Resent(store, ls)
  {
    if ls == [] {
      assert ks + ls == ks;
    } else {
      var n := |ls| - 1;
      ResentConcat(store, ks, ls[..n]);
      assert (ks + ls)[..|ks + ls| - 1] == ks + ls[..n];
    }
  }

  /** Each of `ks` lost one attempt or was dropped, none as ACKed; every other message is as it was. */
  ghost predicate Settled(s: State, s': State, ks: seq<Header>) {
    && s'.rejects == s.rejects
    && s'.started == s.started && s'.acked == s.acked
    && s'.wire == s.wire + Resent(s.store, ks)
    && (forall k | k !in ks :: SameAt(s.store, s'.store, k) && SameAt(s.pending, s'.pending, k))
    && (forall k | k in ks :: k in s.store && OneLess(s.store[k], s'.store, k))
  }

  predicate OneLess(e: RetryEntry, store: map<Header, RetryEntry>, k: Header) {
    k in store ==> e.attemptsRemaining > 0 && store[k] == e.(attemptsRemaining := e.attemptsRemaining - 1)
  }

  lemma NotifyIsLocal(s: State, s': State, k: Header, now: int, kept: bool)
    requires k in s.store && NotifyOutcome(s, s', k, TIMEOUT, now, kept)
    ensures forall j | j != k :: SameAt(s.store, s'.store, j) && SameAt(s.pending, s'.pending, j)
    ensures OneLess(s.store[k], s'.store, k)
  {
  }

  lemma ResendOne(s: State, mid: State, s': State, ks: seq<Header>, k: Header, now: int, kept: bool)
    requires mid.wire == s.wire + Resent(s.store, ks) && k in mid.store && SameAt(s.store, mid.store, k)
    requires NotifyOutcome(mid, s', k, TIMEOUT, now, kept)
    ensures s'.wire == s.wire + Resent(s.store, ks + [k])
  {
    assert (ks + [k])[..|ks|] == ks;
  }

  lemma SameAtTrans<V>(a: map<Header, V>, b: map<Header, V>, c: map<Header, V>, k: Header)
    requires SameAt(a, b, k) && SameAt(b, c, k)
    ensures SameAt(a, c, k)
  {
  }

  lemma NotifyKeepsCounts(s: State, s': State, k: Header, now: int, kept: bool)
    requires k in s.store && NotifyOutcome(s, s', k, TIMEOUT, now, kept)
    ensures s'.rejects == s.rejects && s'.started == s.started && s'.acked == s.acked
  {
  }

  lemma OneLessAt(a: map<Header, RetryEntry>, b: map<Header, RetryEntry>, c: map<Header, RetryEntry>, k: Header)
    requires k in b && SameAt(a, b, k) && OneLess(b[k], c, k)
    ensures k in a && OneLess(a[k], c, k)
  {
  }

  lemma OneLessStays(e: RetryEntry, b: map<Header, RetryEntry>, c: map<Header, RetryEntry>, k: Header)
    requires OneLess(e, b, k) && SameAt(b, c, k)
    ensures OneLess(e, c, k)
  {
  }

  lemma SettleOne(s: State, mid: State, s': State, ks: seq<Header>, k: Header, now: int, kept: bool)
    requires Settled(s, mid, ks) && k !in ks && k in mid.store && NotifyOutcome(mid, s', k, TIMEOUT, now, kept)
    ensures Settled(s, s', ks + [k])
  {
    hide NotifyOutcome, Resent, SameAt, OneLess;
    NotifyIsLocal(mid, s', k, now, kept);
    NotifyKeepsCounts(mid, s', k, now, kept);
    ResendOne(s, mid, s', ks, k, now, kept);
    forall j | j !in ks + [k]
      ensures SameAt(s.store, s'.store, j) && SameAt(s.pending, s'.pending, j)
    {
      assert j !in ks && j != k;
      SameAtTrans(s.store, mid.store, s'.store, j);
      SameAtTrans(s.pending, mid.pending, s'.pending, j);
    }
    forall j | j in ks + [k]
      ensures j in s.store && OneLess(s.store[j], s'.store, j)
    {
      if j == k {
        OneLessAt(s.store, mid.store, s'.store, k);
      } else {
        assert j in ks;
        OneLessStays(s.store[j], mid.store, s'.store, j);
      }
    }
  }

  /** One TIMEOUT callback settles one message of the batch. */
  lemma TimeoutSettles(s: State, mid: State, ks: seq<Header>, k: Header, batch: set<Header>, maxRetries: int,
                       now: int, result: int)
    requires Settled(s, mid, ks) && k !in ks && Inv(mid, batch, maxRetries) && k in batch
    ensures Settled(s, Notified(mid, k, TIMEOUT, now, result), ks + [k])
    ensures Inv(Notified(mid, k, TIMEOUT, now, result), batch - {k}, maxRetries)
  {
    NotifyKeeps(mid, k, TIMEOUT, batch, maxRetries, now, result);
    RetryHasRoom(mid, k, batch);
    NotifyCases(mid, k, TIMEOUT, now, result);
    SettleOne(s, mid, Notified(mid, k, TIMEOUT, now, result), ks, k, now,
              mid.store[k].attemptsRemaining > 0 && result == 0);
  }

  lemma TransmittedShape(s: State, p: Packet, now: int, result: int)
    requires Keyed(s.store) && WellKeyed(s.pending)
    ensures Keyed(Transmitted(s, p, now, result).store) && WellKeyed(Transmitted(s, p, now, result).pending)
    ensures forall k | k in Transmitted(s, p, now, result).pending ::
      SameAt(s.pending, Transmitted(s, p, now, result).pending, k)
        || Transmitted(s, p, now, result).pending[k].timeStamp == now
  {
    var k := p.header;
    PutSize(s.pending, k, TimeoutData(k.id, k.seqNum, now));
    if k !in s.pending {
      PutTake(s.pending, k, TimeoutData(k.id, k.seqNum, now));
    }
  }

  lemma NotifiedWell(s: State, k: Header, status: Status, now: int, result: int)
    requires Keyed(s.store) && WellKeyed(s.pending)
    ensures Keyed(Notified(s, k, status, now, result).store) && WellKeyed(Notified(s, k, status, now, result).pending)
  {
    NotifiedShape(s, k, status, now, result);
  }

  /** Whatever the status, both maps stay well formed and only a fresh stamp is added. */
  lemma NotifiedShape(s: State, k: Header, status: Status, now: int, result: int)
    requires Keyed(s.store) && WellKeyed(s.pending)
    ensures Keyed(Notified(s, k, status, now, result).store) && WellKeyed(Notified(s, k, status, now, result).pending)
    ensures forall j | j in Notified(s, k, status, now, result).pending ::
      SameAt(s.pending, Notified(s, k, status, now, result).pending, j)
        || Notified(s, k, status, now, result).pending[j].timeStamp == now
  {
    if k in s.store && status.TIMEOUT? {
      var e := s.store[k];
      if e.attemptsRemaining > 0 && e.isSent {
        TransmittedShape(s.(store := s.store[k := e.(attemptsRemaining := e.attemptsRemaining - 1)]), e.packet, now,
                         result);
      } else {
        PutSize(s.pending, k, TimeoutData(k.id, k.seqNum, now));
      }
    }
  }

  lemma BatchStep(batch: seq<TimeoutData>, i: nat)
    requires i < |batch| && Ascending(batch)
    ensures KeySeq(batch)[..i + 1] == KeySeq(batch)[..i] + [KeyOf(batch[i])]
    ensures KeyOf(batch[i]) !in KeySeq(batch)[..i]
    ensures KeyOf(batch[i]) in Keys(batch[i..])
    ensures Keys(batch[i + 1..]) == Keys(batch[i..]) - {KeyOf(batch[i])}
  {
    assert batch[i..][1..] == batch[i + 1..];
    KeysTail(batch[i..]);
  }

  lemma CollectedKeys(pending: map<Header, TimeoutData>, batch: seq<TimeoutData>, now: int, timeout: int)
    requires Collected(pending, batch, now, timeout)
    ensures Keys(batch) <= pending.Keys
  {
    forall k | k in Keys(batch)
      ensures k in pending
    {
      var d :| d in batch && KeyOf(d) == k;
      var i :| 0 <= i < |batch| && batch[i] == d;
      assert From(batch[i], pending);
    }
  }

  /** Collecting a batch turns "both maps agree" into "they agree but for the batch". */
  lemma CollectKeeps(s: State, s': State, batch: seq<TimeoutData>, now: int, timeout: int, maxRetries: int)
    requires Inv(s, {}, maxRetries) && Collected(s.pending, batch, now, timeout)
    requires s' == s.(pending := s.pending - Keys(batch))
    ensures Inv(s', Keys(batch), maxRetries)
  {
    CollectedKeys(s.pending, batch, now, timeout);
    RemoveMany(s.pending, Keys(batch));
  }

  /** The first `i` entries of the batch have been reported, the others have not. */
  ghost predicate Midway(s: State, mid: State, batch: seq<TimeoutData>, i: nat, maxRetries: int)
    requires i <= |batch|
  {
    Inv(mid, Keys(batch[i..]), maxRetries) && Settled(s, mid, KeySeq(batch)[..i])
  }

  lemma MidwayStep(s: State, mid: State, batch: seq<TimeoutData>, i: nat, maxRetries: int, now: int, result: int)
    requires i < |batch| && Ascending(batch) && Midway(s, mid, batch, i, maxRetries)
    ensures Midway(s, Notified(mid, KeyOf(batch[i]), TIMEOUT, now, result), batch, i + 1, maxRetries)
  {
    BatchStep(batch, i);
    TimeoutSettles(s, mid, KeySeq(batch)[..i], KeyOf(batch[i]), Keys(batch[i..]), maxRetries, now, result);
  }

  lemma MidwayGoesOn(s: State, mid: State, batch: seq<TimeoutData>, i: nat, maxRetries: int, now: int, result: int)
    requires i < |batch|
    ensures Ascending(batch) && Midway(s, mid, batch, i, maxRetries) ==>
      Midway(s, Notified(mid, KeyOf(batch[i]), TIMEOUT, now, result), batch, i + 1, maxRetries)
  {
    hide Midway;
    if Ascending(batch) && Midway(s, mid, batch, i, maxRetries) {
      MidwayStep(s, mid, batch, i, maxRetries, now, result);
    }
  }

  lemma MidwayEnds(s: State, batch: seq<TimeoutData>, maxRetries: int)
    ensures Inv(s, Keys(batch), maxRetries) ==> Midway(s, s, batch, 0, maxRetries)
    ensures forall t | Midway(s, t, batch, |batch|, maxRetries) ::
      Inv(t, {}, maxRetries) && Settled(s, t, KeySeq(batch))
  {
    assert batch[0..] == batch && batch[|batch|..] == [] && Keys([]) == {};
    assert KeySeq(batch)[..|batch|] == KeySeq(batch);
  }

  lemma SettledPass(a: State, collected: State, b: State, batch: seq<TimeoutData>)
    requires collected == a.(pending := a.pending - Keys(batch)) && Settled(collected, b, KeySeq(batch))
    ensures Settled(a, b, KeySeq(batch))
  {
    forall k | k !in KeySeq(batch)
      ensures SameAt(a.store, b.store, k) && SameAt(a.pending, b.pending, k)
    {
      NotInKeys(batch, k);
    }
  }

  lemma CollectBegins(s: State, s': State, batch: seq<TimeoutData>, now: int, timeout: int, maxRetries: int)
    requires s' == s.(pending := s.pending - Keys(batch))
    ensures Inv(s, {}, maxRetries) && Collected(s.pending, batch, now, timeout) ==> Midway(s', s', batch, 0, maxRetries)
  {
    if Inv(s, {}, maxRetries) && Collected(s.pending, batch, now, timeout) {
      CollectKeeps(s, s', batch, now, timeout, maxRetries);
      MidwayEnds(s', batch, maxRetries);
    }
  }

  /** A whole pass: the map drains, and when the retry monitor alone listens, the batch is settled. */
  lemma PassDrains(p0: map<Header, TimeoutData>, s0: State, left: map<Header, TimeoutData>, start: State,
                   p: map<Header, TimeoutData>, s: State, batch: seq<TimeoutData>, now: int, timeout: int,
                   clock: nat -> int, ticks: nat, epoch: int, quiet: bool, maxRetries: int)
    requires Collected(p0, batch, now, timeout) && left == p0 - Keys(batch)
    requires NewStamps(clock, ticks, left, p) && Window(clock, ticks, epoch, epoch + timeout) && now <= epoch + timeout
    requires quiet ==> start == s0.(pending := s0.pending - Keys(batch)) && Midway(start, s, batch, |batch|, maxRetries)
    ensures Drained(p0, s0, p, s, KeySeq(batch), epoch, quiet)
    ensures quiet ==> Inv(s, {}, maxRetries)
    ensures |batch| < MAX_TIMER_EXPIRED ==> forall k | k in p :: !Expired(p[k], now, timeout)
  {
    PassGone(p0, left, p, batch, now, timeout, clock, ticks, epoch);
    if quiet {
      MidwayEnds(start, batch, maxRetries);
      SettledPass(s0, start, s, batch);
    }
  }

  lemma SettledTrans(a: State, b: State, c: State, ks: seq<Header>, ls: seq<Header>)
    requires Settled(a, b, ks) && Settled(b, c, ls) && forall k | k in ks :: k !in ls
    ensures Settled(a, c, ks + ls)
  {
    ResentSame(a.store, b.store, ls);
    ResentConcat(a.store, ks, ls);
  }

  lemma NotInKeys(batch: seq<TimeoutData>, k: Header)
    ensures k in Keys(batch) <==> k in KeySeq(batch)
  {
    if k in KeySeq(batch) {
      var i :| 0 <= i < |batch| && KeySeq(batch)[i] == k;
      assert batch[i] in batch;
    }
    if k in Keys(batch) {
      var d :| d in batch && KeyOf(d) == k;
      var i :| 0 <= i < |batch| && batch[i] == d;
      assert KeySeq(batch)[i] == k;
    }
  }
}
