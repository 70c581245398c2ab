/**
 * What an expiry check, `Start`, `Stop` and destruction do to the state of timers, as functions
 * on values, and the measure that makes the drain of `ProcessTimers` end. The clock stands still
 * at `now` while timers are processed.
 */
module TimerSpec {
  import opened Common

  const MAX_TIMER_EXPIRED: nat := 16

  /** A timer; `shots` counts its expirations since it was last started. */
  datatype Data = Data(enabled: bool, expireTime: int, timeout: int, once: bool, shots: nat)

  /** A timeout is positive, and a one-shot expires at most once per start. */
  predicate Sound(d: Data) {
    && (d.enabled ==> d.timeout > 0)
    && (d.once ==> d.shots + One(d.enabled) <= 1)
  }

  predicate Due(d: Data, now: int) {
    d.enabled && d.expireTime <= now
  }

  /** `CheckExpired` on a timer that is due. */
  function Fired(d: Data, now: int): Data {
    if d.once then
      d.(enabled := false, shots := d.shots + 1)
    else
      var next := d.expireTime + d.timeout;
      d.(expireTime := if now > next then now else next, shots := d.shots + 1)
  }

  function Started(now: int, timeout: int, once: bool): Data {
    Data(true, now + timeout, timeout, once, 0)
  }

  /** How often a timer can still expire while the clock stands still. */
  function Weight(d: Data, now: int): nat {
    if !d.enabled || d.expireTime > now then 0 else if d.expireTime == now then 1 else 2
  }

  function WeightIn<T>(v: map<T, Data>, t: T, now: int): nat {
    if t in v then Weight(v[t], now) else 0
  }

  /** An expiry makes a timer lighter, falling behind or not, and leaves no deadline in the past. */
  lemma FiredIsLighter(d: Data, now: int)
    requires Sound(d) && Due(d, now)
    ensures Weight(Fired(d, now), now) < Weight(d, now)
    ensures Sound(Fired(d, now)) && (Fired(d, now).enabled ==> Fired(d, now).expireTime >= now)
  {
  }

  ghost predicate AllSound<T>(v: map<T, Data>) {
    forall t | t in v :: Sound(v[t])
  }

  /** One sweep over the timers: exactly those of `batch` expired, each once. */
  ghost predicate Swept<T>(v: map<T, Data>, v': map<T, Data>, batch: seq<T>, now: int) {
    && v'.Keys == v.Keys
    && (forall i, j | 0 <= i < j < |batch| :: batch[i] != batch[j])
    && (forall t | t in batch :: t in v && Due(v[t], now))
    && (forall t | t in v :: v'[t] == if t in batch then Fired(v[t], now) else v[t])
  }

  /** Callbacks started, stopped or destroyed timers in `touched`, and no others. */
  ghost predicate Tampered<T>(v: map<T, Data>, v': map<T, Data>, touched: set<T>, now: int) {
    && v'.Keys <= v.Keys
    && (forall t | t in v && t !in touched :: t in v' && v'[t] == v[t])
    && (forall t | t in v' && t in touched :: Weight(v'[t], now) == 0)
  }

  function Count<T(==)>(s: seq<T>, t: T): nat {
    multiset(s)[t]
  }

  /** What `n` expiries at `now` have made of a timer that was `d`, in terms of its deadline and period:
      none before the deadline; a one-shot expires once and is disabled; a periodic one moves its
      deadline on by its period, or to `now` if that is past, which can bring a second expiry. */
  ghost predicate Lived(d: Data, d': Data, n: nat, now: int) {
    && d'.timeout == d.timeout && d'.once == d.once
    && (n == 0 ==> d' == d)
    && (n > 0 ==> d.enabled && d.expireTime <= now)
    && (n > 0 && d.once ==> n == 1 && !d'.enabled)
    && (n > 0 && !d.once ==>
          && d'.enabled
          && (n == 1 ==> d'.expireTime == if d.expireTime + d.timeout < now then now else d.expireTime + d.timeout)
          && (n > 1 ==> n == 2 && d.expireTime + d.timeout <= now && d'.expireTime == now + d.timeout))
  }

  /** What has become of timer `t`, which was `d` when the drain began: it expired `n` times, and
      was `touched` by a callback or not. */
  ghost predicate Advanced<T>(d: Data, v: map<T, Data>, t: T, n: nat, touched: bool, now: int) {
    && n + WeightIn(v, t, now) <= Weight(d, now)
    && (touched ==> WeightIn(v, t, now) == 0)
    && (!touched ==> t in v && Lived(d, v[t], n, now))
    && (d.once ==> n <= 1 && (n == 1 ==> WeightIn(v, t, now) == 0))
  }

  ghost predicate Progress<T>(v0: map<T, Data>, v: map<T, Data>, fired: seq<T>, touched: set<T>, now: int) {
    && v.Keys <= v0.Keys
    && forall t | t in v0 :: Advanced(v0[t], v, t, Count(fired, t), t in touched, now)
  }

  lemma {:induction false} CountAppend<T>(s: seq<T>, batch: seq<T>, t: T)
    requires forall i, j | 0 <= i < j < |batch| :: batch[i] != batch[j]
    ensures Count(s + batch, t) == Count(s, t) + One(t in batch)
  {
    assert multiset(s + batch) == multiset(s) + multiset(batch);
    DistinctCount(batch, t);
  }

  lemma {:induction false} DistinctCount<T>(batch: seq<T>, t: T)
    requires forall i, j | 0 <= i < j < |batch| :: batch[i] != batch[j]
    ensures Count(batch, t) == One(t in batch)
  {
    if batch != [] {
      var n := |batch| - 1;
      DistinctCount(batch[..n], t);
      assert batch == batch[..n] + [batch[n]];
    }
  }

  /** One timer through one pass: the sweep, then the callbacks. */
  lemma AdvancedPass<T>(d: Data, v: map<T, Data>, v1: map<T, Data>, v2: map<T, Data>, batch: seq<T>, t: T, n: nat,
                        was: bool, touched: set<T>, now: int)
    requires AllSound(v) && Swept(v, v1, batch, now) && Tampered(v1, v2, touched, now)
    requires Advanced(d, v, t, n, was, now)
    ensures Advanced(d, v2, t, n + One(t in batch), was || t in touched, now)
  {
    if t in batch {
      FiredIsLighter(v[t], now);
    }
  }

  lemma ProgressPass<T>(v0: map<T, Data>, v: map<T, Data>, v1: map<T, Data>, v2: map<T, Data>, fired: seq<T>,
                        batch: seq<T>, was: set<T>, touched: set<T>, now: int)
    requires AllSound(v) && Progress(v0, v, fired, was, now)
    requires Swept(v, v1, batch, now) && Tampered(v1, v2, touched, now)
    ensures Progress(v0, v2, fired + batch, was + touched, now)
  {
    forall t | t in v0
      ensures Advanced(v0[t], v2, t, Count(fired + batch, t), t in was + touched, now)
    {
      CountAppend(fired, batch, t);
      AdvancedPass(v0[t], v, v1, v2, batch, t, Count(fired, t), t in was, touched, now);
    }
  }

  /** The measure of the drain, over all timers. */
  ghost function Total<T>(ts: seq<T>, v: map<T, Data>, now: int): nat {
    if ts == [] then 0 else WeightIn(v, ts[0], now) + Total(ts[1..], v, now)
  }

  lemma {:induction false} TotalDrops<T>(ts: seq<T>, v: map<T, Data>, v': map<T, Data>, x: T, now: int)
    requires forall t | t in ts :: WeightIn(v', t, now) <= WeightIn(v, t, now)
    ensures Total(ts, v', now) <= Total(ts, v, now)
    ensures x in ts && WeightIn(v', x, now) < WeightIn(v, x, now) ==> Total(ts, v', now) < Total(ts, v, now)
  {
    if ts != [] {
      TotalDrops(ts[1..], v, v', x, now);
      assert ts == [ts[0]] + ts[1..];
    }
  }

  lemma PassIsLighter<T>(ts: seq<T>, v: map<T, Data>, v1: map<T, Data>, v2: map<T, Data>, batch: seq<T>,
                         touched: set<T>, now: int)
    requires AllSound(v) && Swept(v, v1, batch, now) && Tampered(v1, v2, touched, now)
    requires batch != [] && batch[0] in ts
    ensures Total(ts, v2, now) < Total(ts, v, now)
  {
    forall t | t in ts
      ensures WeightIn(v2, t, now) <= WeightIn(v, t, now)
      ensures t in batch ==> WeightIn(v2, t, now) < WeightIn(v, t, now)
    {
      if t in batch {
        FiredIsLighter(v[t], now);
      }
    }
    TotalDrops(ts, v, v2, batch[0], now);
  }

  /** No enabled timer has its deadline in the past. */
  ghost predicate Settled<T>(v: map<T, Data>, now: int) {
    forall t | t in v && v[t].enabled :: v[t].expireTime >= now
  }

  /** A pass that was not cut off by the batch limit has seen every due timer. */
  lemma LastPassSettles<T>(v: map<T, Data>, v1: map<T, Data>, v2: map<T, Data>, batch: seq<T>, touched: set<T>,
                           now: int)
    requires AllSound(v) && Swept(v, v1, batch, now) && Tampered(v1, v2, touched, now)
    requires forall t | t in v && Due(v[t], now) :: t in batch
    ensures Settled(v2, now)
  {
    forall t | t in v2 && v2[t].enabled
      ensures v2[t].expireTime >= now
    {
      if t !in touched && t in batch {
        FiredIsLighter(v[t], now);
      }
    }
  }

  /** What a whole drain amounts to, for every timer: it expired at most twice, a one-shot at most
      once, no more often than its overdue deadline allows; and if it was due it expired, unless a
      callback started, stopped or destroyed it. */
  lemma DrainOutcome<T>(v0: map<T, Data>, v: map<T, Data>, v1: map<T, Data>, v2: map<T, Data>, fired: seq<T>,
                        batch: seq<T>, was: set<T>, touched: set<T>, now: int, t: T)
    requires AllSound(v) && Progress(v0, v, fired, was, now)
    requires Swept(v, v1, batch, now) && Tampered(v1, v2, touched, now)
    requires forall u | u in v && Due(v[u], now) :: u in batch
    requires t in v0
    ensures Count(fired + batch, t) <= Weight(v0[t], now) <= 2
    ensures v0[t].once ==> Count(fired + batch, t) <= 1
    ensures Due(v0[t], now) ==> t in fired + batch || t in was + touched
    ensures t !in was + touched ==> t in v2 && Passed(v0[t], v2[t], Count(fired + batch, t), now)
  {
    ProgressPass(v0, v, v1, v2, fired, batch, was, touched, now);
    assert Advanced(v0[t], v2, t, Count(fired + batch, t), t in was + touched, now);
    CountAppend(fired, batch, t);
    if Due(v0[t], now) && Count(fired, t) == 0 && t !in was {
      assert Advanced(v0[t], v, t, Count(fired, t), false, now);
      assert t in batch;
    }
  }

  /** A whole drain, for a timer that no callback started, stopped or destroyed. */
  ghost predicate Passed(d: Data, d': Data, n: nat, now: int) {
    Lived(d, d', n, now) && (d.enabled && d.expireTime <= now ==> n > 0)
  }

  /** A timer's life: what it was before each of the drains at `nows`, which it came through with
      `ns` expiries and without any other action on it. */
  ghost predicate Life(ds: seq<Data>, ns: seq<nat>, nows: seq<int>) {
    && |ds| == |ns| + 1 == |nows| + 1
    && forall i | 0 <= i < |ns| :: Passed(ds[i], ds[i + 1], ns[i], nows[i])
  }

  /** A `Start` at `start`, of a timeout that is not refused. */
  predicate StartedAt(d: Data, start: int, timeout: int, once: bool) {
    d.enabled && d.expireTime == start + timeout && d.timeout == timeout && d.once == once && timeout > 0
  }

  function Sum(ns: seq<nat>): nat {
    if ns == [] then 0 else ns[0] + Sum(ns[1..])
  }

  lemma LifeGoesOn(ds: seq<Data>, ns: seq<nat>, nows: seq<int>)
    requires Life(ds, ns, nows) && ns != []
    ensures Passed(ds[0], ds[1], ns[0], nows[0]) && Life(ds[1..], ns[1..], nows[1..])
  {
  }

  /** Nothing expires any more once a one-shot is disabled. */
  lemma {:induction false} DisabledStays(ds: seq<Data>, ns: seq<nat>, nows: seq<int>)
    requires Life(ds, ns, nows) && !ds[0].enabled
    ensures Sum(ns) == 0 && !ds[|ns|].enabled
  {
    if ns != [] {
      LifeGoesOn(ds, ns, nows);
      DisabledStays(ds[1..], ns[1..], nows[1..]);
    }
  }

  /** A timer started with a timeout does not expire before it has passed. */
  lemma {:induction false} NotBeforeTimeout(ds: seq<Data>, ns: seq<nat>, nows: seq<int>, start: int, timeout: int,
                                            once: bool)
    requires Life(ds, ns, nows) && StartedAt(ds[0], start, timeout, once)
    requires forall i | 0 <= i < |nows| :: nows[i] < start + timeout
    ensures Sum(ns) == 0 && ds[|ns|] == ds[0]
  {
    if ns != [] {
      LifeGoesOn(ds, ns, nows);
      assert nows[0] < start + timeout;
      NotBeforeTimeout(ds[1..], ns[1..], nows[1..], start, timeout, once);
    }
  }

  /** Started as a one-shot, it expires once in its life, in the first drain at or after its timeout, and
      not at all without one; then it is disabled. */
  lemma {:induction false} OneShotExpiresOnce(ds: seq<Data>, ns: seq<nat>, nows: seq<int>, start: int, timeout: int)
    requires Life(ds, ns, nows) && StartedAt(ds[0], start, timeout, true)
    ensures Sum(ns) == if exists i :: 0 <= i < |nows| && nows[i] >= start + timeout then 1 else 0
    ensures ds[|ns|].enabled <==> Sum(ns) == 0
    ensures forall i | 0 <= i < |ns| && ns[i] > 0 ::
      nows[i] >= start + timeout && forall j | 0 <= j < i :: nows[j] < start + timeout
  {
    if ns != [] {
      LifeGoesOn(ds, ns, nows);
      if nows[0] >= start + timeout {
        DisabledStays(ds[1..], ns[1..], nows[1..]);
        NoneOfZero(ns[1..]);
        assert forall i | 0 < i < |ns| :: ns[i] == ns[1..][i - 1];
      } else {
        OneShotExpiresOnce(ds[1..], ns[1..], nows[1..], start, timeout);
        LaterOnes(nows, start + timeout);
        assert forall i | 0 < i < |ns| :: ns[i] == ns[1..][i - 1] && nows[i] == nows[1..][i - 1];
      }
    }
  }

  lemma {:induction false} NoneOfZero(ns: seq<nat>)
    requires Sum(ns) == 0
    ensures forall i | 0 <= i < |ns| :: ns[i] == 0
  {
    if ns != [] {
      NoneOfZero(ns[1..]);
      assert forall i | 0 < i < |ns| :: ns[i] == ns[1..][i - 1];
    }
  }

  lemma LaterOnes(nows: seq<int>, deadline: int)
    requires nows != [] && nows[0] < deadline
    ensures (exists i :: 0 <= i < |nows| && nows[i] >= deadline)
       <==> (exists i :: 0 <= i < |nows[1..]| && nows[1..][i] >= deadline)
  {
    if i :| 0 <= i < |nows| && nows[i] >= deadline {
      assert nows[1..][i - 1] >= deadline;
    }
    if i :| 0 <= i < |nows[1..]| && nows[1..][i] >= deadline {
      assert nows[i + 1] >= deadline;
    }
  }

  /** Started as periodic, it expires in the first drain at or after its timeout and stays enabled, its
      next deadline a period after the first, unless a whole period has been missed by then. */
  lemma PeriodicExpiresAgain(ds: seq<Data>, ns: seq<nat>, nows: seq<int>, start: int, timeout: int, i: nat)
    requires Life(ds, ns, nows) && StartedAt(ds[0], start, timeout, false) && i < |nows|
    requires nows[i] >= start + timeout && forall j | 0 <= j < i :: nows[j] < start + timeout
    ensures Sum(ns[..i]) == 0 && 1 <= ns[i] <= 2
    ensures ds[i + 1].enabled && !ds[i + 1].once && ds[i + 1].timeout == timeout
    ensures nows[i] < start + 2 * timeout ==> ns[i] == 1 && ds[i + 1].expireTime == start + 2 * timeout
    ensures nows[i] <= ds[i + 1].expireTime <= nows[i] + timeout
  {
    NotBeforeTimeout(ds[..i + 1], ns[..i], nows[..i], start, timeout, false);
    assert Passed(ds[i], ds[i + 1], ns[i], nows[i]);
  }
}
