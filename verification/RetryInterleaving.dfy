/**
 * `SendWithRetry`, `OnStatusChanged`, ACKs and expiries running on any number of threads. Each
 * lock region, and each start and return of a physical send, is one step; steps of different
 * threads interleave freely. What survives the interleaving is the budget: how often a message
 * is transmitted, in which order, and with which packet. Message keys are fresh.
 */
module RetryInterleaving {
  import opened Common
  import opened SenderSpec

  /** Where one thread stands; finished threads are gone. */
  datatype Thread =
    | Stored(p: Packet)        // SendWithRetry: stored, about to Add
    | Refused(p: Packet)       // Add failed, about to erase
    | Sending(p: Packet)       // about to start the first send
    | InFirst(p: Packet)       // inside the first send
    | FirstFailed(p: Packet)   // it failed, about to Cancel
    | FirstOver(p: Packet)     // cancelled, about to erase
    | MarkSent(p: Packet)      // it succeeded, about to set isSent
    | Acked(k: Header)         // Remove found the entry, about to notify SUCCESS
    | Timeout(k: Header)       // Process took the entry, about to notify TIMEOUT
    | RetryAdd(p: Packet)      // charged an attempt, about to Add
    | RetrySend(p: Packet)     // about to start a retransmission
    | InRetry(p: Packet)       // inside a retransmission
    | RetryFailed(p: Packet)   // it failed, about to Cancel
    | RetryOver(p: Packet)     // about to erase
    | Reregister(p: Packet)    // expired during the first send, about to Add
    | Reporting(k: Header)     // about to fire OnDeliveryFailed

  /** What an observer of the transport and of the two signals sees. */
  datatype Obs =
    | FirstBegin(p: Packet)
    | FirstReturn(k: Header, ok: bool)
    | RetryBegin(p: Packet)
    | Success(k: Header)
    | Failure(k: Header)

  datatype Config = Config(maxRetries: int, cap: nat)

  datatype World = World(
    store: map<Header, RetryEntry>,
    pending: set<Header>,
    threads: multiset<Thread>,
    origin: map<Header, Packet>,
    log: seq<Obs>)

  datatype Event =
    | Begin(p: Packet)
    | Ack(k: Header)
    | Expire(k: Header)
    | Run(t: Thread, ok: bool)

  const START := World(map[], {}, multiset{}, map[], [])

  /** What one step of a thread does: what the thread does next, if anything, and what it changed. */
  datatype Effect = Effect(next: Option<Thread>, store: map<Header, RetryEntry>, pending: set<Header>, obs: Option<Obs>)

  predicate CanAdd(c: Config, w: World, k: Header) {
    |w.pending| < c.cap && k !in w.pending
  }

  /** One step of a thread; `ok` is the outcome of a physical send that returns in it. */
  function Advance(c: Config, w: World, t: Thread, ok: bool): Effect {
    match t
    case Stored(p) =>
      if CanAdd(c, w, p.header) then Effect(Some(Sending(p)), w.store, w.pending + {p.header}, None)
      else Effect(Some(Refused(p)), w.store, w.pending, None)
    case Refused(p) => Effect(Some(Reporting(p.header)), w.store - {p.header}, w.pending, None)
    case Sending(p) => Effect(Some(InFirst(p)), w.store, w.pending, Some(FirstBegin(p)))
    case InFirst(p) =>
      Effect(Some(if ok then MarkSent(p) else FirstFailed(p)), w.store, w.pending, Some(FirstReturn(p.header, ok)))
    case FirstFailed(p) => Effect(Some(FirstOver(p)), w.store, w.pending - {p.header}, None)
    case FirstOver(p) => Effect(Some(Reporting(p.header)), w.store - {p.header}, w.pending, None)
    case MarkSent(p) =>
      if p.header in w.store then
        Effect(None, w.store[p.header := w.store[p.header].(isSent := true)], w.pending, None)
      else Effect(None, w.store, w.pending, None)
    case Acked(k) => Effect(None, w.store - {k}, w.pending, None)
    case Timeout(k) =>
      if k !in w.store then Effect(None, w.store, w.pending, None)
      else
        var e := w.store[k];
        if e.attemptsRemaining <= 0 then Effect(Some(Reporting(k)), w.store - {k}, w.pending, None)
        else if !e.isSent then Effect(Some(Reregister(e.packet)), w.store, w.pending, None)
        else
          Effect(Some(RetryAdd(e.packet)), w.store[k := e.(attemptsRemaining := e.attemptsRemaining - 1)], w.pending,
                 None)
    case RetryAdd(p) =>
      if CanAdd(c, w, p.header) then Effect(Some(RetrySend(p)), w.store, w.pending + {p.header}, None)
      else Effect(Some(RetryOver(p)), w.store, w.pending, None)
    case RetrySend(p) => Effect(Some(InRetry(p)), w.store, w.pending, Some(RetryBegin(p)))
    case InRetry(p) => Effect(if ok then None else Some(RetryFailed(p)), w.store, w.pending, None)
    case RetryFailed(p) => Effect(Some(RetryOver(p)), w.store, w.pending - {p.header}, None)
    case RetryOver(p) => Effect(Some(Reporting(p.header)), w.store - {p.header}, w.pending, None)
    case Reregister(p) =>
      // the result of this Add is ignored
      Effect(None, w.store, if CanAdd(c, w, p.header) then w.pending + {p.header} else w.pending, None)
    case Reporting(k) => Effect(None, w.store, w.pending, Some(Failure(k)))
  }

  function Joined(threads: multiset<Thread>, next: Option<Thread>): multiset<Thread> {
    if next.None? then threads else threads + multiset{next.value}
  }

  function Logged(log: seq<Obs>, obs: Option<Obs>): seq<Obs> {
    if obs.None? then log else log + [obs.value]
  }

  function Applied(w: World, t: Thread, f: Effect): World {
    World(f.store, f.pending, Joined(w.threads - multiset{t}, f.next), w.origin, Logged(w.log, f.obs))
  }

  /** One atomic step; an event that is not possible now changes nothing. */
  function Step(c: Config, w: World, e: Event): World {
    match e
    case Begin(p) =>
      if p.header in w.origin then w
      else
        World(w.store[p.header := RetryEntry(p, c.maxRetries, false)], w.pending, w.threads + multiset{Stored(p)},
              w.origin[p.header := p], w.log)
    case Ack(k) =>
      if k !in w.pending then w
      else World(w.store, w.pending - {k}, w.threads + multiset{Acked(k)}, w.origin, w.log + [Success(k)])
    case Expire(k) =>
      if k !in w.pending then w
      else World(w.store, w.pending - {k}, w.threads + multiset{Timeout(k)}, w.origin, w.log)
    case Run(t, ok) => if t in w.threads then Applied(w, t, Advance(c, w, t, ok)) else w
  }

  function Exec(c: Config, w: World, events: seq<Event>): World {
    if events == [] then w else Step(c, Exec(c, w, events[..|events| - 1]), events[|events| - 1])
  }

  predicate IsFirst(o: Obs, k: Header) {
    o.FirstBegin? && o.p.header == k
  }

  predicate IsRetry(o: Obs, k: Header) {
    o.RetryBegin? && o.p.header == k
  }

  /** First transmissions of `k` that have begun. */
  ghost function Firsts(log: seq<Obs>, k: Header): nat {
    if log == [] then 0 else
      Firsts(log[..|log| - 1], k) + if IsFirst(log[|log| - 1], k) then 1 else 0
  }

  /** Retransmissions of `k` that have begun. */
  ghost function Retries(log: seq<Obs>, k: Header): nat {
    if log == [] then 0 else
      Retries(log[..|log| - 1], k) + if IsRetry(log[|log| - 1], k) then 1 else 0
  }

  lemma CountLogged(log: seq<Obs>, obs: Option<Obs>, k: Header)
    ensures Firsts(Logged(log, obs), k) == Firsts(log, k) + if obs.Some? && IsFirst(obs.value, k) then 1 else 0
    ensures Retries(Logged(log, obs), k) == Retries(log, k) + if obs.Some? && IsRetry(obs.value, k) then 1 else 0
  {
    if obs.Some? {
      assert (log + [obs.value])[..|log|] == log;
    }
  }

  /** Is the thread still going to start a first transmission, or a retransmission, of `p`? */
  predicate WillFirst(t: Thread, p: Packet) {
    t == Stored(p) || t == Sending(p)
  }

  predicate WillRetry(t: Thread, p: Packet) {
    t == RetryAdd(p) || t == RetrySend(p)
  }

  ghost function FirstTokens(threads: multiset<Thread>, p: Packet): nat {
    threads[Stored(p)] + threads[Sending(p)]
  }

  ghost function RetryTokens(threads: multiset<Thread>, p: Packet): nat {
    threads[RetryAdd(p)] + threads[RetrySend(p)]
  }

  lemma TokensLeave(threads: multiset<Thread>, t: Thread, p: Packet)
    requires t in threads
    ensures FirstTokens(threads - multiset{t}, p) == FirstTokens(threads, p) - if WillFirst(t, p) then 1 else 0
    ensures RetryTokens(threads - multiset{t}, p) == RetryTokens(threads, p) - if WillRetry(t, p) then 1 else 0
    ensures (threads - multiset{t})[MarkSent(p)] == threads[MarkSent(p)] - if t == MarkSent(p) then 1 else 0
  {
  }

  lemma TokensJoin(threads: multiset<Thread>, next: Option<Thread>, p: Packet)
    ensures FirstTokens(Joined(threads, next), p)
         == FirstTokens(threads, p) + if next.Some? && WillFirst(next.value, p) then 1 else 0
    ensures RetryTokens(Joined(threads, next), p)
         == RetryTokens(threads, p) + if next.Some? && WillRetry(next.value, p) then 1 else 0
    ensures Joined(threads, next)[MarkSent(p)] == threads[MarkSent(p)] + if next == Some(MarkSent(p)) then 1 else 0
  {
  }

  ghost predicate FirstOk(log: seq<Obs>, k: Header) {
    FirstReturn(k, true) in log
  }

  function MaxRetries(c: Config): nat {
    if c.maxRetries > 0 then c.maxRetries else 0
  }

  predicate Carries(t: Thread, origin: map<Header, Packet>) {
    t.Acked? || t.Timeout? || t.Reporting? || (t.p.header in origin && origin[t.p.header] == t.p)
  }

  ghost predicate StoreAuthentic(store: map<Header, RetryEntry>, origin: map<Header, Packet>) {
    forall k | k in store :: k in origin && store[k].packet == origin[k]
  }

  /** Every packet in play is the one its key was started with. */
  ghost predicate Authentic(w: World) {
    && (forall k | k in w.origin :: w.origin[k].header == k)
    && StoreAuthentic(w.store, w.origin)
    && (forall t | t in w.threads :: Carries(t, w.origin))
  }

  ghost predicate WithinLimits(c: Config, w: World, k: Header)
    requires k in w.origin
  {
    && Firsts(w.log, k) + FirstTokens(w.threads, w.origin[k]) <= 1
    && Retries(w.log, k) + RetryTokens(w.threads, w.origin[k]) + Credit(w.store, k) <= MaxRetries(c)
  }

  /** Nothing about `k` is retried, or may be, unless its first send returned 0. */
  ghost predicate Ordered(w: World, k: Header)
    requires k in w.origin
  {
    || FirstOk(w.log, k)
    || (w.threads[MarkSent(w.origin[k])] == 0 && RetryTokens(w.threads, w.origin[k]) == 0 && Retries(w.log, k) == 0
        && (k in w.store ==> !w.store[k].isSent))
  }

  lemma EffectAuthentic(c: Config, w: World, t: Thread, ok: bool)
    requires Authentic(w) && t in w.threads
    ensures StoreAuthentic(Advance(c, w, t, ok).store, w.origin)
    ensures Advance(c, w, t, ok).next.Some? ==> Carries(Advance(c, w, t, ok).next.value, w.origin)
  {
    assert Carries(t, w.origin);
  }

  lemma AuthenticStep(c: Config, w: World, e: Event)
    requires Authentic(w)
    ensures Authentic(Step(c, w, e))
  {
    if e.Run? && e.t in w.threads {
      EffectAuthentic(c, w, e.t, e.ok);
    }
  }

  /** A step of thread `t` moves tokens and credit around but creates none. */
  ghost predicate Balanced(w: World, t: Thread, f: Effect, k: Header, p: Packet) {
    && One(f.next.Some? && WillFirst(f.next.value, p)) + One(f.obs.Some? && IsFirst(f.obs.value, k))
      <= One(WillFirst(t, p))
    && One(f.next.Some? && WillRetry(f.next.value, p)) + One(f.obs.Some? && IsRetry(f.obs.value, k))
       + Credit(f.store, k)
       <= One(WillRetry(t, p)) + Credit(w.store, k)
  }

  lemma EffectBalances(c: Config, w: World, t: Thread, ok: bool, k: Header)
    requires Authentic(w) && t in w.threads && k in w.origin
    ensures Balanced(w, t, Advance(c, w, t, ok), k, w.origin[k])
  {
    hide Advance;
    EffectStartsOnce(c, w, t, ok, k);
    EffectPays(c, w, t, ok, k);
  }

  lemma EffectStartsOnce(c: Config, w: World, t: Thread, ok: bool, k: Header)
    requires Authentic(w) && t in w.threads && k in w.origin
    ensures var p, f := w.origin[k], Advance(c, w, t, ok);
            One(f.next.Some? && WillFirst(f.next.value, p)) + One(f.obs.Some? && IsFirst(f.obs.value, k))
              <= One(WillFirst(t, p))
  {
    assert Carries(t, w.origin);
  }

  lemma EffectPays(c: Config, w: World, t: Thread, ok: bool, k: Header)
    requires Authentic(w) && t in w.threads && k in w.origin
    ensures var p, f := w.origin[k], Advance(c, w, t, ok);
            One(f.next.Some? && WillRetry(f.next.value, p)) + One(f.obs.Some? && IsRetry(f.obs.value, k))
            + Credit(f.store, k)
            <= One(WillRetry(t, p)) + Credit(w.store, k)
  {
    assert Carries(t, w.origin);
  }

  lemma LimitsApplied(c: Config, w: World, t: Thread, f: Effect, k: Header)
    requires t in w.threads && k in w.origin && WithinLimits(c, w, k)
    requires Balanced(w, t, f, k, w.origin[k])
    ensures WithinLimits(c, Applied(w, t, f), k)
  {
    TokensLeave(w.threads, t, w.origin[k]);
    TokensJoin(w.threads - multiset{t}, f.next, w.origin[k]);
    CountLogged(w.log, f.obs, k);
  }

  lemma LimitsGrow(c: Config, w: World, w': World, k: Header, t: Thread, obs: Option<Obs>)
    requires k in w.origin && k in w'.origin && w'.origin[k] == w.origin[k] && WithinLimits(c, w, k)
    requires w'.threads == Joined(w.threads, Some(t)) && !WillFirst(t, w.origin[k]) && !WillRetry(t, w.origin[k])
    requires w'.log == Logged(w.log, obs) && (obs.Some? ==> obs.value.Success?)
    requires Credit(w'.store, k) == Credit(w.store, k)
    ensures WithinLimits(c, w', k)
  {
    TokensJoin(w.threads, Some(t), w.origin[k]);
    CountLogged(w.log, obs, k);
  }

  lemma StartLimits(c: Config, w: World, e: Event, k: Header)
    requires !e.Run? && Authentic(w) && k in w.origin && WithinLimits(c, w, k)
    ensures k in Step(c, w, e).origin && WithinLimits(c, Step(c, w, e), k)
  {
    var w' := Step(c, w, e);
    if w' != w {
      match e
      case Begin(q) =>
        assert w.origin[k].header == k;
        LimitsGrow(c, w, w', k, Stored(q), None);
      case Ack(j) => LimitsGrow(c, w, w', k, Acked(j), Some(Success(j)));
      case Expire(j) => LimitsGrow(c, w, w', k, Timeout(j), None);
    }
  }

  lemma LimitsStep(c: Config, w: World, e: Event, k: Header)
    requires Authentic(w) && k in w.origin && WithinLimits(c, w, k)
    ensures k in Step(c, w, e).origin && WithinLimits(c, Step(c, w, e), k)
  {
    if !e.Run? {
      StartLimits(c, w, e, k);
    } else if e.t in w.threads {
      EffectBalances(c, w, e.t, e.ok, k);
      LimitsApplied(c, w, e.t, Advance(c, w, e.t, e.ok), k);
    }
  }

  /** A step of thread `t` records the first success of `k`, or does nothing towards a retry of it. */
  predicate Unretried(t: Thread, f: Effect, k: Header, p: Packet) {
    || f.obs == Some(FirstReturn(k, true))
    || (f.next != Some(MarkSent(p)) && t != MarkSent(p) && (f.next.Some? ==> !WillRetry(f.next.value, p))
        && (f.obs.Some? ==> !IsRetry(f.obs.value, k)) && (k in f.store ==> !f.store[k].isSent))
  }

  lemma OrderedApplied(w: World, t: Thread, f: Effect, k: Header)
    requires t in w.threads && k in w.origin && Ordered(w, k) && !FirstOk(w.log, k) && Unretried(t, f, k, w.origin[k])
    ensures Ordered(Applied(w, t, f), k)
  {
    TokensLeave(w.threads, t, w.origin[k]);
    TokensJoin(w.threads - multiset{t}, f.next, w.origin[k]);
    CountLogged(w.log, f.obs, k);
  }

  lemma EffectOrdered(c: Config, w: World, t: Thread, ok: bool, k: Header)
    requires Authentic(w) && t in w.threads && k in w.origin && Ordered(w, k) && !FirstOk(w.log, k)
    ensures Unretried(t, Advance(c, w, t, ok), k, w.origin[k])
  {
    assert Carries(t, w.origin);
    assert w.origin[k].header == k;
  }

  lemma StartOrdered(c: Config, w: World, e: Event, k: Header)
    requires !e.Run? && k in w.origin && Ordered(w, k)
    ensures k in Step(c, w, e).origin && Ordered(Step(c, w, e), k)
  {
    var p := w.origin[k];
    match e
    case Begin(q) => TokensJoin(w.threads, Some(Stored(q)), p);
    case Ack(j) =>
      TokensJoin(w.threads, Some(Acked(j)), p);
      CountLogged(w.log, Some(Success(j)), k);
    case Expire(j) => TokensJoin(w.threads, Some(Timeout(j)), p);
  }

  lemma OrderedStep(c: Config, w: World, e: Event, k: Header)
    requires Authentic(w) && k in w.origin && Ordered(w, k)
    ensures k in Step(c, w, e).origin && Ordered(Step(c, w, e), k)
  {
    if !e.Run? {
      StartOrdered(c, w, e, k);
    } else if e.t in w.threads && !FirstOk(w.log, k) {
      EffectOrdered(c, w, e.t, e.ok, k);
      OrderedApplied(w, e.t, Advance(c, w, e.t, e.ok), k);
    }
  }

  predicate Known(p: Packet, origin: map<Header, Packet>) {
    p.header in origin && origin[p.header] == p
  }

  /** A transmission logged after `before`: it carries its message's own packet, and a
      retransmission comes after a first send that returned 0. */
  ghost predicate ObsSound(before: seq<Obs>, o: Obs, origin: map<Header, Packet>) {
    && (o.FirstBegin? || o.RetryBegin? ==> Known(o.p, origin))
    && (o.RetryBegin? ==> FirstOk(before, o.p.header))
  }

  ghost predicate LogSound(log: seq<Obs>, origin: map<Header, Packet>) {
    forall i | 0 <= i < |log| :: ObsSound(log[..i], log[i], origin)
  }

  lemma LogSoundGrows(log: seq<Obs>, obs: Option<Obs>, origin: map<Header, Packet>, origin': map<Header, Packet>)
    requires LogSound(log, origin) && (obs.Some? ==> ObsSound(log, obs.value, origin))
    requires forall p: Packet | Known(p, origin) :: Known(p, origin')
    ensures LogSound(Logged(log, obs), origin')
  {
    var log' := Logged(log, obs);
    forall i | 0 <= i < |log'|
      ensures ObsSound(log'[..i], log'[i], origin')
    {
      assert log'[..i] == log[..i];
      assert i < |log| ==> ObsSound(log[..i], log[i], origin);
      assert log[..|log|] == log;
    }
  }

  lemma {:induction false} UnknownUncounted(log: seq<Obs>, origin: map<Header, Packet>, k: Header)
    requires LogSound(log, origin) && k !in origin
    ensures Firsts(log, k) == 0 && Retries(log, k) == 0
  {
    if log != [] {
      var n := |log| - 1;
      forall i | 0 <= i < n
        ensures ObsSound(log[..n][..i], log[..n][i], origin)
      {
        assert log[..n][..i] == log[..i];
        assert ObsSound(log[..i], log[i], origin);
      }
      UnknownUncounted(log[..n], origin, k);
      assert ObsSound(log[..n], log[n], origin);
    }
  }

  ghost predicate KeySafe(c: Config, w: World, k: Header) {
    k in w.origin ==> WithinLimits(c, w, k) && Ordered(w, k)
  }

  /** What every step of every thread keeps. */
  ghost predicate Safe(c: Config, w: World) {
    && Authentic(w)
    && LogSound(w.log, w.origin)
    && forall k: Header :: KeySafe(c, w, k)
  }

  lemma ObservedSound(c: Config, w: World, t: Thread, ok: bool)
    requires Safe(c, w) && t in w.threads
    ensures var f := Advance(c, w, t, ok); f.obs.Some? ==> ObsSound(w.log, f.obs.value, w.origin)
  {
    assert Carries(t, w.origin);
    if t.RetrySend? {
      assert KeySafe(c, w, t.p.header);
    }
  }

  lemma LogStep(c: Config, w: World, e: Event)
    requires Safe(c, w)
    ensures LogSound(Step(c, w, e).log, Step(c, w, e).origin)
  {
    match e
    case Begin(q) => LogSoundGrows(w.log, None, w.origin, Step(c, w, e).origin);
    case Ack(j) => LogSoundGrows(w.log, Some(Success(j)), w.origin, w.origin);
    case Expire(j) =>
    case Run(t, ok) =>
      if t in w.threads {
        ObservedSound(c, w, t, ok);
        LogSoundGrows(w.log, Advance(c, w, t, ok).obs, w.origin, w.origin);
      }
  }

  /** A fresh key starts with its whole budget and nothing sent. */
  lemma BeginSafe(c: Config, w: World, p: Packet)
    requires Safe(c, w) && p.header !in w.origin
    ensures KeySafe(c, Step(c, w, Begin(p)), p.header)
  {
    UnknownUncounted(w.log, w.origin, p.header);
    assert forall t | t in w.threads :: Carries(t, w.origin);
    assert Stored(p) !in w.threads && Sending(p) !in w.threads && RetryAdd(p) !in w.threads
      && RetrySend(p) !in w.threads;
    assert MarkSent(p) !in w.threads;
    TokensJoin(w.threads, Some(Stored(p)), p);
  }

  /** Every atomic step of any thread keeps `Safe`. */
  lemma StepSafe(c: Config, w: World, e: Event)
    requires Safe(c, w)
    ensures Safe(c, Step(c, w, e))
  {
    AuthenticStep(c, w, e);
    LogStep(c, w, e);
    forall k: Header
      ensures KeySafe(c, Step(c, w, e), k)
    {
      assert KeySafe(c, w, k);
      if k in w.origin {
        LimitsStep(c, w, e, k);
        OrderedStep(c, w, e, k);
      } else if e.Begin? && e.p.header == k {
        BeginSafe(c, w, e.p);
      }
    }
  }

  lemma {:induction false} RunsSafe(c: Config, events: seq<Event>)
    ensures Safe(c, Exec(c, START, events))
  {
    if events != [] {
      var n := |events| - 1;
      RunsSafe(c, events[..n]);
      StepSafe(c, Exec(c, START, events[..n]), events[n]);
    }
  }

  /** In every interleaving, one `SendWithRetry` causes at most one first transmission and at most
      `maxRetries` retransmissions. */
  lemma RetryBudget(c: Config, events: seq<Event>, k: Header)
    ensures Firsts(Exec(c, START, events).log, k) <= 1
    ensures Retries(Exec(c, START, events).log, k) <= MaxRetries(c)
  {
    RunsSafe(c, events);
    var w := Exec(c, START, events);
    assert KeySafe(c, w, k);
    if k !in w.origin {
      UnknownUncounted(w.log, w.origin, k);
    }
  }

  /** In every interleaving, a retransmission follows a first send that returned 0, and carries
      the header and payload of that first transmission. */
  lemma RetransmissionsAreFaithful(c: Config, events: seq<Event>, i: nat, j: nat)
    requires i < |Exec(c, START, events).log| && j < |Exec(c, START, events).log|
    requires Exec(c, START, events).log[i].RetryBegin?
    ensures FirstReturn(Exec(c, START, events).log[i].p.header, true) in Exec(c, START, events).log[..i]
    ensures var o := Exec(c, START, events).log[j];
            (o.FirstBegin? || o.RetryBegin?) && o.p.header == Exec(c, START, events).log[i].p.header
            ==> o.p == Exec(c, START, events).log[i].p
  {
    RunsSafe(c, events);
    var w := Exec(c, START, events);
    assert ObsSound(w.log[..i], w.log[i], w.origin);
    assert ObsSound(w.log[..j], w.log[j], w.origin);
  }

  /** Nothing stored is forgotten: its first transmission has begun, is to come, or was refused, and
      every attempt not left has been transmitted, is to be, or was refused. */
  ghost predicate Spent(c: Config, w: World, k: Header)
    requires k in w.origin
  {
    var p := w.origin[k];
    k in w.store ==>
      && Firsts(w.log, k) + FirstTokens(w.threads, p) + w.threads[Refused(p)] >= 1
      && Retries(w.log, k) + RetryTokens(w.threads, p) + Credit(w.store, k) + w.threads[RetryOver(p)] >= MaxRetries(c)
  }

  /** A step of thread `t` that leaves the message stored loses no token and no credit. */
  ghost predicate Lossless(w: World, t: Thread, f: Effect, k: Header, p: Packet) {
    k in f.store ==>
      && k in w.store
      && One(f.next.Some? && WillFirst(f.next.value, p)) + One(f.obs.Some? && IsFirst(f.obs.value, k))
         + One(f.next == Some(Refused(p)))
         >= One(WillFirst(t, p)) + One(t == Refused(p))
      && One(f.next.Some? && WillRetry(f.next.value, p)) + One(f.obs.Some? && IsRetry(f.obs.value, k))
         + Credit(f.store, k) + One(f.next == Some(RetryOver(p)))
         >= One(WillRetry(t, p)) + Credit(w.store, k) + One(t == RetryOver(p))
  }

  lemma EffectLossless(c: Config, w: World, t: Thread, ok: bool, k: Header)
    requires Authentic(w) && t in w.threads && k in w.origin
    ensures Lossless(w, t, Advance(c, w, t, ok), k, w.origin[k])
  {
    assert Carries(t, w.origin);
    assert w.origin[k].header == k;
  }

  lemma RefusalsMove(threads: multiset<Thread>, t: Thread, next: Option<Thread>, u: Thread)
    requires t in threads
    ensures Joined(threads - multiset{t}, next)[u] == threads[u] - One(t == u) + One(next == Some(u))
  {
  }

  lemma SpentApplied(c: Config, w: World, t: Thread, f: Effect, k: Header)
    requires t in w.threads && k in w.origin && Spent(c, w, k) && Lossless(w, t, f, k, w.origin[k])
    ensures Spent(c, Applied(w, t, f), k)
  {
    hide FirstTokens, RetryTokens, Firsts, Retries, Credit, Joined, Logged;
    var p := w.origin[k];
    TokensLeave(w.threads, t, p);
    TokensJoin(w.threads - multiset{t}, f.next, p);
    RefusalsMove(w.threads, t, f.next, Refused(p));
    RefusalsMove(w.threads, t, f.next, RetryOver(p));
    CountLogged(w.log, f.obs, k);
  }

  lemma SpentGrows(c: Config, w: World, w': World, k: Header, t: Thread, obs: Option<Obs>)
    requires k in w.origin && k in w'.origin && w'.origin[k] == w.origin[k] && Spent(c, w, k)
    requires w'.threads == Joined(w.threads, Some(t)) && w'.log == Logged(w.log, obs)
    requires (k in w'.store ==> k in w.store) && Credit(w'.store, k) == Credit(w.store, k)
    ensures Spent(c, w', k)
  {
    TokensJoin(w.threads, Some(t), w.origin[k]);
    CountLogged(w.log, obs, k);
  }

  lemma SpentStep(c: Config, w: World, e: Event, k: Header)
    requires Authentic(w) && k in w.origin && Spent(c, w, k)
    ensures k in Step(c, w, e).origin && Spent(c, Step(c, w, e), k)
  {
    var w' := Step(c, w, e);
    if w' != w {
      match e
      case Begin(q) => SpentGrows(c, w, w', k, Stored(q), None);
      case Ack(j) => SpentGrows(c, w, w', k, Acked(j), Some(Success(j)));
      case Expire(j) => SpentGrows(c, w, w', k, Timeout(j), None);
      case Run(t, ok) =>
        EffectLossless(c, w, t, ok, k);
        SpentApplied(c, w, t, Advance(c, w, t, ok), k);
    }
  }

  lemma {:induction false} RunsSpend(c: Config, events: seq<Event>, k: Header)
    requires k in Exec(c, START, events).origin
    ensures Spent(c, Exec(c, START, events), k)
  {
    if events != [] {
      var n := |events| - 1;
      var w := Exec(c, START, events[..n]);
      RunsSafe(c, events[..n]);
      if k in w.origin {
        RunsSpend(c, events[..n], k);
        SpentStep(c, w, events[n], k);
      }
    }
  }

  /** While a message is stored, and no thread is just about to transmit or give it up, its one first
      transmission has begun and exactly the attempts it does not have left were retransmitted. */
  lemma AttemptsAreTransmitted(c: Config, events: seq<Event>, k: Header)
    requires k in Exec(c, START, events).store
    ensures k in Exec(c, START, events).origin
    ensures var w := Exec(c, START, events);
            var p := w.origin[k];
            && (Stored(p) !in w.threads && Refused(p) !in w.threads && Sending(p) !in w.threads ==>
                Firsts(w.log, k) == 1)
            && (RetryAdd(p) !in w.threads && RetrySend(p) !in w.threads && RetryOver(p) !in w.threads ==>
                Retries(w.log, k) == MaxRetries(c) - Credit(w.store, k))
  {
    RunsSafe(c, events);
    RunsSpend(c, events, k);
    assert KeySafe(c, Exec(c, START, events), k);
  }

  function KeyOf(t: Thread): Header {
    if t.Acked? || t.Timeout? || t.Reporting? then t.k else t.p.header
  }

  function KeySeen(o: Obs): Header {
    match o
    case FirstBegin(p) => p.header
    case RetryBegin(p) => p.header
    case FirstReturn(j, ok) => j
    case Success(j) => j
    case Failure(j) => j
  }

  ghost predicate KeysKnown(pending: set<Header>, threads: multiset<Thread>, log: seq<Obs>,
                            origin: map<Header, Packet>) {
    && (forall k | k in pending :: k in origin)
    && (forall t | t in threads :: KeyOf(t) in origin)
    && (forall o | o in log :: KeySeen(o) in origin)
  }

  /** Nothing is said or done about a message that was not begun. */
  ghost predicate Rooted(w: World) {
    KeysKnown(w.pending, w.threads, w.log, w.origin)
  }

  predicate EffectKnown(f: Effect, origin: map<Header, Packet>) {
    && (forall k | k in f.pending :: k in origin)
    && (f.next.Some? ==> KeyOf(f.next.value) in origin) && (f.obs.Some? ==> KeySeen(f.obs.value) in origin)
  }

  /** A step leaves a message alone: its entries stay, and nothing is said about it. */
  predicate LeavesAlone(w: World, f: Effect, k: Header) {
    && (f.next.Some? ==> KeyOf(f.next.value) != k)
    && (k in f.store <==> k in w.store) && (k in f.store ==> f.store[k] == w.store[k])
    && (k in f.pending <==> k in w.pending)
    && (f.obs.Some? ==> KeySeen(f.obs.value) != k)
  }

  lemma OtherKeysOnly(c: Config, w: World, t: Thread, ok: bool, k: Header)
    requires Authentic(w) && t in w.threads && KeyOf(t) != k
    ensures LeavesAlone(w, Advance(c, w, t, ok), k)
  {
    assert Carries(t, w.origin);
  }

  lemma SameKey(c: Config, w: World, t: Thread, ok: bool)
    requires Authentic(w)
    ensures var f := Advance(c, w, t, ok);
            && (f.next.Some? ==> KeyOf(f.next.value) == KeyOf(t)) && (f.obs.Some? ==> KeySeen(f.obs.value) == KeyOf(t))
  {
  }

  lemma OnlyOwnEntry(c: Config, w: World, t: Thread, ok: bool)
    ensures Advance(c, w, t, ok).pending <= w.pending + {KeyOf(t)}
  {
  }

  lemma EffectStaysKnown(c: Config, w: World, t: Thread, ok: bool)
    requires Authentic(w) && Rooted(w) && t in w.threads
    ensures EffectKnown(Advance(c, w, t, ok), w.origin)
  {
    hide Advance;
    SameKey(c, w, t, ok);
    OnlyOwnEntry(c, w, t, ok);
  }

  lemma Members(threads: multiset<Thread>, t: Thread, next: Option<Thread>, u: Thread)
    requires t in threads
    ensures u in Joined(threads - multiset{t}, next) ==> u in threads || next == Some(u)
    ensures u in threads && u != t ==> u in Joined(threads - multiset{t}, next)
    ensures next == Some(u) ==> u in Joined(threads - multiset{t}, next)
  {
  }

  lemma Seen(log: seq<Obs>, obs: Option<Obs>, o: Obs)
    ensures o in Logged(log, obs) <==> o in log || obs == Some(o)
  {
  }

  lemma RootedApplied(w: World, t: Thread, f: Effect)
    requires Rooted(w) && EffectKnown(f, w.origin) && t in w.threads
    ensures Rooted(Applied(w, t, f))
  {
    hide Joined, Logged;
    var w' := Applied(w, t, f);
    forall u | u in w'.threads
      ensures KeyOf(u) in w.origin
    {
      Members(w.threads, t, f.next, u);
    }
    forall o | o in w'.log
      ensures KeySeen(o) in w.origin
    {
      Seen(w.log, f.obs, o);
    }
  }

  lemma RootedStep(c: Config, w: World, e: Event)
    requires Authentic(w) && Rooted(w)
    ensures Rooted(Step(c, w, e))
  {
    if !e.Run? {
      StartRooted(c, w, e);
    } else if e.t in w.threads {
      hide Advance, Rooted;
      EffectStaysKnown(c, w, e.t, e.ok);
      RootedApplied(w, e.t, Advance(c, w, e.t, e.ok));
    }
  }

  lemma RootedJoined(w: World, w': World, t: Thread, obs: Option<Obs>)
    requires Rooted(w) && w'.threads == w.threads + multiset{t} && w'.log == Logged(w.log, obs)
    requires w'.pending <= w.pending && (forall k | k in w.origin :: k in w'.origin)
    requires KeyOf(t) in w'.origin && (obs.Some? ==> KeySeen(obs.value) in w'.origin)
    ensures Rooted(w')
  {
    hide Logged;
    assert forall u :: u in w'.threads <==> u in w.threads || u == t;
    forall o | o in w'.log
      ensures KeySeen(o) in w'.origin
    {
      Seen(w.log, obs, o);
    }
  }

  lemma StartRooted(c: Config, w: World, e: Event)
    requires !e.Run? && Rooted(w)
    ensures Rooted(Step(c, w, e))
  {
    var w' := Step(c, w, e);
    if w' != w {
      match e
      case Begin(q) => RootedJoined(w, w', Stored(q), None);
      case Ack(j) => RootedJoined(w, w', Acked(j), Some(Success(j)));
      case Expire(j) => RootedJoined(w, w', Timeout(j), None);
    }
  }

  lemma {:induction false} RunsRooted(c: Config, events: seq<Event>)
    ensures Authentic(Exec(c, START, events)) && Rooted(Exec(c, START, events))
  {
    if events != [] {
      var n := |events| - 1;
      RunsRooted(c, events[..n]);
      AuthenticStep(c, Exec(c, START, events[..n]), events[n]);
      RootedStep(c, Exec(c, START, events[..n]), events[n]);
    }
  }
}
