/**
 * When a message of the interleaved sender is stranded: stored, but no longer pending, so that
 * neither an ACK nor a TIMEOUT will decide it. `OnStatusChanged` ignores the result of the `Add`
 * with which it re-registers a message that expired during its first send.
 */
module RetryStranding {
  import opened Common
  import opened MapFacts
  import opened SenderSpec
  import opened RetryInterleaving
  import opened RetryOutcomes

  /** Does some thread still have to settle, or re-register, the message? */
  predicate Watches(t: Thread, k: Header) {
    KeyOf(t) == k && !t.Reporting? && !t.Sending? && !t.InFirst? && !t.MarkSent? && !t.RetrySend? && !t.InRetry?
  }

  ghost predicate Watched(w: World, k: Header) {
    k in w.store ==> k in w.pending || exists t :: t in w.threads && Watches(t, k)
  }

  lemma WatcherHandsOver(c: Config, w: World, t: Thread, ok: bool, k: Header)
    requires Authentic(w) && t in w.threads && !Refuses(c, w, Run(t, ok), k) && k in Advance(c, w, t, ok).store
    ensures k in w.store
    ensures var f := Advance(c, w, t, ok);
            Watches(t, k) || k in w.pending ==>
              k in f.pending || (f.next.Some? && Watches(f.next.value, k))
  {
    assert Carries(t, w.origin);
  }

  lemma RunWatched(c: Config, w: World, t: Thread, ok: bool, k: Header)
    requires Authentic(w) && t in w.threads && Watched(w, k)
    requires k in w.store ==> !Refuses(c, w, Run(t, ok), k)
    ensures Watched(Step(c, w, Run(t, ok)), k)
  {
    hide Advance, Watches;
    var w', f := Step(c, w, Run(t, ok)), Advance(c, w, t, ok);
    if k in w'.store {
      StaysStored(c, w, t, ok, k);
      WatcherHandsOver(c, w, t, ok, k);
      if !Watches(t, k) && k !in w.pending {
        var u :| u in w.threads && Watches(u, k);
        Members(w.threads, t, f.next, u);
      }
    }
  }

  lemma StaysStored(c: Config, w: World, t: Thread, ok: bool, k: Header)
    requires k in Advance(c, w, t, ok).store
    ensures k in w.store
  {
  }

  lemma StartWatched(c: Config, w: World, e: Event, k: Header)
    requires !e.Run? && Watched(w, k)
    ensures Watched(Step(c, w, e), k)
  {
    var w' := Step(c, w, e);
    assert forall t | t in w.threads :: t in w'.threads;
    if e.Begin? && k !in w.store {
      assert Stored(e.p) in w'.threads || w' == w;
    } else if e.Ack? && e.k == k && k in w.pending {
      assert Acked(k) in w'.threads;
    } else if e.Expire? && e.k == k && k in w.pending {
      assert Timeout(k) in w'.threads;
    }
  }

  /** A stored message stays watched in every step but a refused re-registration of it. */
  lemma WatchedStep(c: Config, w: World, e: Event, k: Header)
    requires Authentic(w) && Watched(w, k) && !(Refuses(c, w, e, k) && k in w.store)
    ensures Watched(Step(c, w, e), k)
  {
    if !e.Run? {
      StartWatched(c, w, e, k);
    } else if e.t in w.threads {
      RunWatched(c, w, e.t, e.ok, k);
    }
  }

  /** At some point of the run a re-registration of the message is refused while it is stored. */
  ghost predicate RefusedAt(c: Config, events: seq<Event>, k: Header, i: nat)
    requires i < |events|
  {
    Refuses(c, Exec(c, START, events[..i]), events[i], k) && k in Exec(c, START, events[..i]).store
  }

  ghost predicate WasRefused(c: Config, events: seq<Event>, k: Header) {
    exists i :: 0 <= i < |events| && RefusedAt(c, events, k, i)
  }

  lemma RefusedBefore(c: Config, events: seq<Event>, k: Header)
    requires events != []
    ensures WasRefused(c, events, k) <==>
      WasRefused(c, events[..|events| - 1], k) || RefusedAt(c, events, k, |events| - 1)
  {
    hide Refuses, Exec;
    var before := events[..|events| - 1];
    forall i | 0 <= i < |before|
      ensures RefusedAt(c, before, k, i) <==> RefusedAt(c, events, k, i)
    {
      assert before[..i] == events[..i];
    }
    hide RefusedAt;
    if WasRefused(c, before, k) {
      var i :| 0 <= i < |before| && RefusedAt(c, before, k, i);
      assert RefusedAt(c, events, k, i);
    }
    if WasRefused(c, events, k) {
      var i :| 0 <= i < |events| && RefusedAt(c, events, k, i);
      assert i < |before| ==> RefusedAt(c, before, k, i);
    }
  }

  lemma {:induction false} RunsWatched(c: Config, events: seq<Event>, k: Header)
    requires !WasRefused(c, events, k)
    ensures Watched(Exec(c, START, events), k)
  {
    if events != [] {
      var n := |events| - 1;
      RefusedBefore(c, events, k);
      RunsWatched(c, events[..n], k);
      RunsRooted(c, events[..n]);
      WatchedStep(c, Exec(c, START, events[..n]), events[n], k);
    }
  }

  /** The first send of `p` has not returned yet. */
  predicate BeforeReturn(t: Thread, p: Packet) {
    t == Stored(p) || t == Sending(p) || t == InFirst(p)
  }

  ghost function FirstPhase(threads: multiset<Thread>, p: Packet): nat {
    threads[Stored(p)] + threads[Sending(p)] + threads[InFirst(p)]
  }

  predicate IsReturn(o: Obs, k: Header) {
    o.FirstReturn? && o.k == k
  }

  ghost function Returns(log: seq<Obs>, k: Header): nat {
    if log == [] then 0 else Returns(log[..|log| - 1], k) + One(IsReturn(log[|log| - 1], k))
  }

  lemma ReturnsLogged(log: seq<Obs>, obs: Option<Obs>, k: Header)
    ensures Returns(Logged(log, obs), k) == Returns(log, k) + One(obs.Some? && IsReturn(obs.value, k))
  {
    if obs.Some? {
      assert (log + [obs.value])[..|log|] == log;
    }
  }

  lemma {:induction false} ReturnsSeen(log: seq<Obs>, k: Header)
    ensures Returns(log, k) == 0 <==> FirstReturn(k, true) !in log && FirstReturn(k, false) !in log
    ensures FirstReturn(k, true) in log && FirstReturn(k, false) in log ==> Returns(log, k) >= 2
  {
    if log != [] {
      var n := |log| - 1;
      ReturnsSeen(log[..n], k);
      assert log == log[..n] + [log[n]];
    }
  }

  lemma PhaseLeaves(threads: multiset<Thread>, t: Thread, p: Packet)
    requires t in threads
    ensures FirstPhase(threads - multiset{t}, p) == FirstPhase(threads, p) - One(BeforeReturn(t, p))
  {
  }

  lemma PhaseJoins(threads: multiset<Thread>, next: Option<Thread>, p: Packet)
    ensures FirstPhase(Joined(threads, next), p)
         == FirstPhase(threads, p) + One(next.Some? && BeforeReturn(next.value, p))
  {
    if next.Some? {
      var joined := threads + multiset{next.value};
      PhaseLeaves(joined, next.value, p);
      assert joined - multiset{next.value} == threads;
    }
  }

  /** The first send returns at most once. */
  ghost predicate OneReturn(w: World, k: Header) {
    k in w.origin ==> FirstPhase(w.threads, w.origin[k]) + Returns(w.log, k) <= 1
  }

  lemma EffectReturnsOnce(c: Config, w: World, t: Thread, ok: bool, k: Header)
    requires Authentic(w) && t in w.threads && k in w.origin
    ensures var p, f := w.origin[k], Advance(c, w, t, ok);
            One(f.next.Some? && BeforeReturn(f.next.value, p)) + One(f.obs.Some? && IsReturn(f.obs.value, k))
            <= One(BeforeReturn(t, p))
  {
    assert Carries(t, w.origin) && w.origin[k].header == k;
  }

  lemma StartReturnsOnce(c: Config, w: World, e: Event, k: Header)
    requires !e.Run? && Authentic(w) && Rooted(w) && OneReturn(w, k)
    ensures OneReturn(Step(c, w, e), k)
  {
    hide FirstPhase;
    if Step(c, w, e) != w && k in Step(c, w, e).origin {
      var p := Step(c, w, e).origin[k];
      match e
      case Begin(q) =>
        PhaseJoins(w.threads, Some(Stored(q)), p);
        if q.header == k {
          BeginsUnreturned(w, q);
        }
      case Ack(j) =>
        PhaseJoins(w.threads, Some(Acked(j)), p);
        ReturnsLogged(w.log, Some(Success(j)), k);
      case Expire(j) => PhaseJoins(w.threads, Some(Timeout(j)), p);
    }
  }

  lemma BeginsUnreturned(w: World, p: Packet)
    requires Rooted(w) && p.header !in w.origin
    ensures FirstPhase(w.threads, p) == 0 && Returns(w.log, p.header) == 0
  {
    var k := p.header;
    assert KeyOf(Stored(p)) == KeyOf(Sending(p)) == KeyOf(InFirst(p)) == k;
    assert KeySeen(FirstReturn(k, true)) == KeySeen(FirstReturn(k, false)) == k;
    ReturnsSeen(w.log, k);
  }

  lemma OneReturnStep(c: Config, w: World, e: Event, k: Header)
    requires Authentic(w) && Rooted(w) && OneReturn(w, k)
    ensures OneReturn(Step(c, w, e), k)
  {
    if !e.Run? {
      StartReturnsOnce(c, w, e, k);
    } else if e.t in w.threads && k in w.origin {
      hide Advance, FirstPhase;
      var f := Advance(c, w, e.t, e.ok);
      EffectReturnsOnce(c, w, e.t, e.ok, k);
      PhaseLeaves(w.threads, e.t, w.origin[k]);
      PhaseJoins(w.threads - multiset{e.t}, f.next, w.origin[k]);
      ReturnsLogged(w.log, f.obs, k);
    }
  }

  lemma {:induction false} RunsReturnOnce(c: Config, events: seq<Event>, k: Header)
    ensures OneReturn(Exec(c, START, events), k)
  {
    if events != [] {
      var n := |events| - 1;
      RunsReturnOnce(c, events[..n], k);
      RunsRooted(c, events[..n]);
      OneReturnStep(c, Exec(c, START, events[..n]), events[n], k);
    }
  }

  /** The message is retransmitted only after `isSent` was set, and never loses that mark. */
  ghost predicate SentOnce(store: map<Header, RetryEntry>, k: Header) {
    k in store ==> store[k].isSent
  }

  predicate RetryPhase(t: Thread, p: Packet) {
    t == RetryAdd(p) || t == RetrySend(p) || t == InRetry(p) || t == RetryFailed(p) || t == RetryOver(p)
  }

  ghost predicate Retrying(threads: multiset<Thread>, p: Packet) {
    exists t :: t in threads && RetryPhase(t, p)
  }

  predicate FirstActive(t: Thread, p: Packet) {
    BeforeReturn(t, p) || t == Refused(p) || t == FirstFailed(p) || t == FirstOver(p)
  }

  /** The phases of a message: its sender returns before `isSent` is set, and that comes before any
      retransmission. */
  ghost predicate Phased(w: World, k: Header) {
    k in w.origin ==>
      var p := w.origin[k];
      && (Retrying(w.threads, p) ==> SentOnce(w.store, k))
      && (FirstFailed(p) in w.threads || FirstOver(p) in w.threads ==> FirstReturn(k, false) in w.log)
      && (k in w.store ==> FirstReturn(k, true) in w.log || exists t :: t in w.threads && FirstActive(t, p))
  }

  /** What a step of thread `t` does to these phases. */
  ghost predicate Phases(w: World, t: Thread, f: Effect, k: Header, p: Packet) {
    && (k in f.store ==> k in w.store)
    && (SentOnce(w.store, k) ==> SentOnce(f.store, k))
    && (f.next.Some? && RetryPhase(f.next.value, p) ==> RetryPhase(t, p) || (t == Timeout(k) && SentOnce(f.store, k)))
    && (f.next == Some(Reregister(p)) ==> t == Timeout(k) && !SentOnce(w.store, k))
    && (f.next == Some(FirstFailed(p)) ==> f.obs == Some(FirstReturn(k, false)))
    && (f.next == Some(FirstOver(p)) ==> t == FirstFailed(p))
    && (FirstActive(t, p) && k in f.store ==>
          f.obs == Some(FirstReturn(k, true)) || (f.next.Some? && FirstActive(f.next.value, p)))
  }

  lemma OtherPhases(c: Config, w: World, t: Thread, ok: bool, k: Header)
    requires Authentic(w) && t in w.threads && k in w.origin && KeyOf(t) != k
    ensures Phases(w, t, Advance(c, w, t, ok), k, w.origin[k])
  {
    hide Advance;
    assert w.origin[k].header == k;
    SameKey(c, w, t, ok);
    OtherKeysOnly(c, w, t, ok, k);
  }

  lemma SenderPhases(c: Config, w: World, t: Thread, ok: bool, p: Packet)
    requires t == Stored(p) || t == Refused(p) || t == Sending(p)
    ensures Phases(w, t, Advance(c, w, t, ok), p.header, p)
  {
  }

  lemma SentPhases(c: Config, w: World, t: Thread, ok: bool, p: Packet)
    requires t == InFirst(p) || t == FirstFailed(p) || t == FirstOver(p) || t == MarkSent(p)
    ensures Phases(w, t, Advance(c, w, t, ok), p.header, p)
  {
  }

  lemma RetryPhases(c: Config, w: World, t: Thread, ok: bool, p: Packet)
    requires RetryPhase(t, p) || t == Reregister(p)
    ensures Phases(w, t, Advance(c, w, t, ok), p.header, p)
  {
  }

  lemma StatusPhases(c: Config, w: World, t: Thread, ok: bool, p: Packet)
    requires t == Acked(p.header) || t == Timeout(p.header) || t == Reporting(p.header)
    requires p.header in w.store ==> w.store[p.header].packet == p
    ensures Phases(w, t, Advance(c, w, t, ok), p.header, p)
  {
  }

  lemma EffectPhases(c: Config, w: World, t: Thread, ok: bool, k: Header)
    requires Authentic(w) && t in w.threads && k in w.origin
    ensures Phases(w, t, Advance(c, w, t, ok), k, w.origin[k])
  {
    hide Advance, Phases;
    var p := w.origin[k];
    assert Carries(t, w.origin) && p.header == k;
    if KeyOf(t) != k {
      OtherPhases(c, w, t, ok, k);
    } else if t.Acked? || t.Timeout? || t.Reporting? {
      StatusPhases(c, w, t, ok, p);
    } else if RetryPhase(t, p) || t.Reregister? {
      RetryPhases(c, w, t, ok, p);
    } else if t.Stored? || t.Refused? || t.Sending? {
      SenderPhases(c, w, t, ok, p);
    } else {
      SentPhases(c, w, t, ok, p);
    }
  }

  lemma PhasedApplied(w: World, t: Thread, f: Effect, k: Header)
    requires t in w.threads && k in w.origin && Phased(w, k) && Phases(w, t, f, k, w.origin[k])
    ensures Phased(Applied(w, t, f), k)
  {
    hide Joined, Logged;
    var p, w' := w.origin[k], Applied(w, t, f);
    Members(w.threads, t, f.next, FirstFailed(p));
    Members(w.threads, t, f.next, FirstOver(p));
    Seen(w.log, f.obs, FirstReturn(k, true));
    Seen(w.log, f.obs, FirstReturn(k, false));
    if Retrying(w'.threads, p) {
      var u :| u in w'.threads && RetryPhase(u, p);
      Members(w.threads, t, f.next, u);
    }
    if k in w'.store && FirstReturn(k, true) !in w'.log {
      var u :| u in w.threads && FirstActive(u, p);
      var v := if u == t then f.next.value else u;
      Members(w.threads, t, f.next, v);
      assert FirstActive(v, p);
    }
  }

  /** A thread joins that is in no phase of `k`, and the store keeps what it has of `k`. */
  lemma PhasedJoined(w: World, w': World, t: Thread, obs: Option<Obs>, k: Header)
    requires Phased(w, k) && k in w.origin && k in w'.origin && w'.origin[k] == w.origin[k]
    requires w'.threads == w.threads + multiset{t} && w'.log == Logged(w.log, obs)
    requires !RetryPhase(t, w.origin[k]) && t != FirstFailed(w.origin[k]) && t != FirstOver(w.origin[k])
    requires (k in w'.store ==> k in w.store) && (SentOnce(w.store, k) ==> SentOnce(w'.store, k))
    ensures Phased(w', k)
  {
    hide Logged;
    var p := w.origin[k];
    Seen(w.log, obs, FirstReturn(k, true));
    Seen(w.log, obs, FirstReturn(k, false));
    assert forall u :: u in w'.threads <==> u in w.threads || u == t;
  }

  lemma BeginPhased(c: Config, w: World, p: Packet)
    requires Rooted(w) && p.header !in w.origin
    ensures Phased(Step(c, w, Begin(p)), p.header)
  {
    var w' := Step(c, w, Begin(p));
    assert forall t | RetryPhase(t, p) || t == FirstFailed(p) || t == FirstOver(p) :: KeyOf(t) == p.header;
    assert forall u :: u in w'.threads <==> u in w.threads || u == Stored(p);
    assert Stored(p) in w'.threads && FirstActive(Stored(p), p);
  }

  lemma StartPhased(c: Config, w: World, e: Event, k: Header)
    requires !e.Run? && Authentic(w) && Rooted(w) && Phased(w, k)
    ensures Phased(Step(c, w, e), k)
  {
    hide Phased;
    var w' := Step(c, w, e);
    if k !in w.origin {
      if e.Begin? && e.p.header == k {
        BeginPhased(c, w, e.p);
      } else {
        UnbegunPhased(w', k);
      }
    } else if w' != w {
      match e
      case Begin(q) => PhasedJoined(w, w', Stored(q), None, k);
      case Ack(j) => PhasedJoined(w, w', Acked(j), Some(Success(j)), k);
      case Expire(j) => PhasedJoined(w, w', Timeout(j), None, k);
    }
  }

  lemma UnbegunPhased(w: World, k: Header)
    requires k !in w.origin
    ensures Phased(w, k)
  {
  }

  lemma PhasedStep(c: Config, w: World, e: Event, k: Header)
    requires Authentic(w) && Rooted(w) && Phased(w, k)
    ensures Phased(Step(c, w, e), k)
  {
    if !e.Run? {
      StartPhased(c, w, e, k);
    } else if e.t in w.threads && k in w.origin {
      hide Advance, Phased, Phases;
      EffectPhases(c, w, e.t, e.ok, k);
      PhasedApplied(w, e.t, Advance(c, w, e.t, e.ok), k);
    }
  }

  lemma {:induction false} RunsPhased(c: Config, events: seq<Event>, k: Header)
    ensures Phased(Exec(c, START, events), k)
  {
    if events != [] {
      var n := |events| - 1;
      RunsPhased(c, events[..n], k);
      RunsRooted(c, events[..n]);
      PhasedStep(c, Exec(c, START, events[..n]), events[n], k);
    }
  }

  /** What holds of a message at every moment of a run. */
  ghost predicate Sound(w: World, k: Header) {
    Authentic(w) && Rooted(w) && Settling(w, k) && Phased(w, k)
  }

  lemma RunsSound(c: Config, events: seq<Event>, k: Header)
    ensures Sound(Exec(c, START, events), k)
  {
    RunsRooted(c, events);
    RunsSettle(c, events, k);
    RunsPhased(c, events, k);
  }

  /** One stake, and a waiting re-registration excludes retransmissions. */
  ghost predicate Clean(w: World, k: Header)
    requires k in w.origin
  {
    Stakes(w, k) <= 1 && (Reregister(w.origin[k]) in w.threads ==> !Retrying(w.threads, w.origin[k]))
  }

  /** The time of re-registrations is over. */
  ghost predicate PastFirst(w: World, k: Header)
    requires k in w.origin
  {
    SentOnce(w.store, k) && Reregister(w.origin[k]) !in w.threads
  }

  /** As long as the first send has not failed, a re-registration holds its message's only stake. */
  ghost predicate Ready(w: World, k: Header) {
    k in w.origin ==> Clean(w, k) || PastFirst(w, k) || FirstReturn(k, false) in w.log
  }

  lemma PastFirstStays(c: Config, w: World, t: Thread, ok: bool, k: Header)
    requires Authentic(w) && t in w.threads && k in w.origin && PastFirst(w, k)
    ensures PastFirst(Step(c, w, Run(t, ok)), k)
  {
    hide Advance, Joined;
    var f := Advance(c, w, t, ok);
    EffectPhases(c, w, t, ok, k);
    Members(w.threads, t, f.next, Reregister(w.origin[k]));
  }

  lemma TwoStakes(threads: multiset<Thread>, t: Thread, u: Thread, p: Packet)
    requires t in threads && u in threads && t != u && HasStake(t, p) && HasStake(u, p)
    ensures ThreadStakes(threads, p) >= 2
  {
    StakeLeaves(threads, t, p);
    StakeHeld(threads - multiset{t}, u, p);
  }

  /** The only new retransmission is one that has just been charged. */
  lemma NewRetry(c: Config, w: World, t: Thread, ok: bool, k: Header)
    requires Authentic(w) && t in w.threads && k in w.origin && t == Timeout(k)
    ensures var f := Advance(c, w, t, ok);
            f.next.Some? && RetryPhase(f.next.value, w.origin[k]) ==> f.next.value == RetryAdd(w.origin[k])
  {
  }

  /** While a re-registration holds the only stake, no retransmission starts. */
  lemma NoNewRetry(c: Config, w: World, t: Thread, ok: bool, k: Header)
    requires Sound(w, k) && t in w.threads && k in w.origin && Clean(w, k)
    requires t != Reregister(w.origin[k]) && Reregister(w.origin[k]) in w.threads
    requires Stakes(Step(c, w, Run(t, ok)), k) <= 1
    ensures var f := Advance(c, w, t, ok); f.next.Some? ==> !RetryPhase(f.next.value, w.origin[k])
  {
    hide Advance, Joined, ThreadStakes;
    var p, f, w' := w.origin[k], Advance(c, w, t, ok), Step(c, w, Run(t, ok));
    EffectPhases(c, w, t, ok, k);
    if f.next.Some? && RetryPhase(f.next.value, p) && t == Timeout(k) {
      NewRetry(c, w, t, ok, k);
      Members(w.threads, t, f.next, f.next.value);
      Members(w.threads, t, f.next, Reregister(p));
      TwoStakes(w'.threads, f.next.value, Reregister(p), p);
    }
  }

  lemma NoRetryBeside(c: Config, w: World, t: Thread, ok: bool, k: Header)
    requires Sound(w, k) && t in w.threads && k in w.origin && Clean(w, k)
    requires Stakes(Step(c, w, Run(t, ok)), k) <= 1
    ensures Clean(Step(c, w, Run(t, ok)), k)
  {
    hide Advance, Joined, ThreadStakes;
    var p, f, w' := w.origin[k], Advance(c, w, t, ok), Step(c, w, Run(t, ok));
    EffectPhases(c, w, t, ok, k);
    Members(w.threads, t, f.next, Reregister(p));
    if Retrying(w'.threads, p) && Reregister(p) in w'.threads {
      var u :| u in w'.threads && RetryPhase(u, p);
      Members(w.threads, t, f.next, u);
      if Reregister(p) in w.threads && t != Reregister(p) {
        NoNewRetry(c, w, t, ok, k);
      }
    }
  }

  lemma FailedStays(c: Config, w: World, e: Event, k: Header)
    requires FirstReturn(k, false) in w.log
    ensures FirstReturn(k, false) in Step(c, w, e).log
  {
  }

  lemma MissReady(c: Config, w: World, t: Thread, ok: bool, k: Header)
    requires Sound(w, k) && k in w.origin && Clean(w, k) && Misses(w, Run(t, ok), k)
    ensures PastFirst(w, k) || FirstReturn(k, false) in w.log
  {
    var p := w.origin[k];
    assert Carries(t, w.origin);
    if t.RetryFailed? {
      assert RetryPhase(t, p);
    }
  }

  lemma RunReady(c: Config, w: World, t: Thread, ok: bool, k: Header)
    requires Sound(w, k) && t in w.threads && k in w.origin && Ready(w, k)
    ensures Ready(Step(c, w, Run(t, ok)), k)
  {
    hide Advance, Step, Stakes, PastFirst, Sound, Misses, Clean;
    assert Authentic(w) && Rooted(w) && Step(c, w, Run(t, ok)).origin == w.origin by { RunKeepsOrigin(c, w, t, ok, k); }
    if FirstReturn(k, false) in w.log {
      FailedStays(c, w, Run(t, ok), k);
    } else if PastFirst(w, k) {
      PastFirstStays(c, w, t, ok, k);
    } else if Misses(w, Run(t, ok), k) {
      MissReady(c, w, t, ok, k);
    } else {
      CleanStays(c, w, t, ok, k);
    }
  }

  lemma RunKeepsOrigin(c: Config, w: World, t: Thread, ok: bool, k: Header)
    requires Sound(w, k)
    ensures Authentic(w) && Rooted(w) && Step(c, w, Run(t, ok)).origin == w.origin
  {
  }

  lemma CleanStays(c: Config, w: World, t: Thread, ok: bool, k: Header)
    requires Sound(w, k) && t in w.threads && k in w.origin && Clean(w, k) && !Misses(w, Run(t, ok), k)
    ensures k in Step(c, w, Run(t, ok)).origin && Clean(Step(c, w, Run(t, ok)), k)
  {
    hide Advance, Stakes;
    RunKeepsOrigin(c, w, t, ok, k);
    OneStakeStep(c, w, Run(t, ok), k);
    NoRetryBeside(c, w, t, ok, k);
  }

  lemma JoinedReady(w: World, w': World, t: Thread, k: Header)
    requires k in w.origin && k in w'.origin && w'.origin[k] == w.origin[k] && Ready(w, k)
    requires w'.threads == w.threads + multiset{t} && !RetryPhase(t, w.origin[k]) && t != Reregister(w.origin[k])
    requires Stakes(w', k) == Stakes(w, k) && (SentOnce(w.store, k) ==> SentOnce(w'.store, k))
    requires FirstReturn(k, false) in w.log ==> FirstReturn(k, false) in w'.log
    ensures Ready(w', k)
  {
    assert forall u :: u in w'.threads <==> u in w.threads || u == t;
  }

  lemma BeginReady(c: Config, w: World, p: Packet)
    requires Rooted(w) && p.header !in w.origin
    ensures Ready(Step(c, w, Begin(p)), p.header)
  {
    BeginStakes(c, w, p);
    assert KeyOf(Reregister(p)) == p.header;
    assert Reregister(p) !in Step(c, w, Begin(p)).threads;
  }

  lemma StartReady(c: Config, w: World, e: Event, k: Header)
    requires !e.Run? && Sound(w, k) && Ready(w, k)
    ensures Ready(Step(c, w, e), k)
  {
    hide Ready, Stakes;
    var w' := Step(c, w, e);
    if k !in w.origin {
      if e.Begin? && e.p.header == k {
        BeginReady(c, w, e.p);
      } else {
        UnbegunReady(w', k);
      }
    } else if w' != w {
      StartKeepsStakes(c, w, e, k);
      match e
      case Begin(q) => JoinedReady(w, w', Stored(q), k);
      case Ack(j) => JoinedReady(w, w', Acked(j), k);
      case Expire(j) => JoinedReady(w, w', Timeout(j), k);
    }
  }

  lemma UnbegunReady(w: World, k: Header)
    requires k !in w.origin
    ensures Ready(w, k)
  {
  }

  lemma {:induction false} RunsReady(c: Config, events: seq<Event>, k: Header)
    ensures Ready(Exec(c, START, events), k)
  {
    if events != [] {
      hide Step, Ready, Sound;
      var n := |events| - 1;
      var w := Exec(c, START, events[..n]);
      RunsReady(c, events[..n], k);
      RunsSound(c, events[..n], k);
      ReadyStep(c, w, events[n], k);
    } else {
      UnbegunReady(START, k);
    }
  }

  lemma ReadyStep(c: Config, w: World, e: Event, k: Header)
    requires Sound(w, k) && Ready(w, k)
    ensures Ready(Step(c, w, e), k)
  {
    if !e.Run? {
      StartReady(c, w, e, k);
    } else if e.t in w.threads && k in w.origin {
      RunReady(c, w, e.t, e.ok, k);
    }
  }

  /** Stored and out of everybody's hands but its sender's, who is inside the first send or has just
      returned from it. */
  ghost predicate Lost(w: World, k: Header) {
    && k in w.store && k in w.origin && k !in w.pending
    && forall t | t in w.threads && KeyOf(t) == k :: t.Sending? || t.InFirst? || t.MarkSent? || t.FirstFailed?
  }

  /** A refused re-registration was the message's last hope, unless its first send has failed. */
  lemma RefusalLoses(c: Config, w: World, t: Thread, ok: bool, k: Header)
    requires Sound(w, k) && Ready(w, k) && Refuses(c, w, Run(t, ok), k) && k in w.store
    ensures Lost(Step(c, w, Run(t, ok)), k) || FirstReturn(k, false) in w.log
  {
    hide Stakes;
    var p, w' := w.origin[k], Step(c, w, Run(t, ok));
    assert Carries(t, w.origin) && t == Reregister(p) && p.header == k;
    if FirstReturn(k, false) !in w.log {
      assert w'.store == w.store && w'.pending == w.pending && w'.threads == w.threads - multiset{t};
      forall u | u in w'.threads && KeyOf(u) == k
        ensures u.Sending? || u.InFirst? || u.MarkSent? || u.FirstFailed?
      {
        OnlyStake(w, t, u, k);
      }
    }
  }

  lemma OnlyStake(w: World, t: Thread, u: Thread, k: Header)
    requires Sound(w, k) && k in w.origin && Clean(w, k) && t == Reregister(w.origin[k]) && t in w.threads
    requires u in w.threads - multiset{t} && KeyOf(u) == k
    ensures u.Sending? || u.InFirst? || u.MarkSent? || u.FirstFailed?
  {
    var p := w.origin[k];
    assert Carries(u, w.origin) && u in w.threads && p.header == k;
    StakeLeaves(w.threads, t, p);
    OutcomesSeen(w.log, k);
    if HasStake(u, p) {
      StakeHeld(w.threads - multiset{t}, u, p);
    }
  }

  lemma LostStep(c: Config, w: World, e: Event, k: Header)
    requires Sound(w, k) && Lost(w, k)
    ensures Lost(Step(c, w, e), k) || FirstReturn(k, false) in Step(c, w, e).log
  {
    if !e.Run? {
      StartLost(c, w, e, k);
    } else if e.t in w.threads {
      RunLost(c, w, e.t, e.ok, k);
    }
  }

  lemma StartLost(c: Config, w: World, e: Event, k: Header)
    requires !e.Run? && Lost(w, k)
    ensures Lost(Step(c, w, e), k)
  {
  }

  lemma SenderLost(c: Config, w: World, t: Thread, ok: bool, k: Header)
    requires Lost(w, k) && t in w.threads && KeyOf(t) == k && (t.Sending? || t.MarkSent? || (t.InFirst? && ok))
    ensures Lost(Step(c, w, Run(t, ok)), k)
  {
    hide Lost;
    assert Lost(w, k) && k in w.store && k !in w.pending by { LostIsStored(w, k); }
    LostApplied(w, t, Advance(c, w, t, ok), k);
  }

  lemma LostIsStored(w: World, k: Header)
    requires Lost(w, k)
    ensures k in w.store && k !in w.pending
  {
  }

  lemma SenderFails(c: Config, w: World, t: Thread, k: Header)
    requires t in w.threads && KeyOf(t) == k && t.InFirst?
    ensures FirstReturn(k, false) in Step(c, w, Run(t, false)).log
  {
  }

  lemma OtherLost(c: Config, w: World, t: Thread, ok: bool, k: Header)
    requires Authentic(w) && Lost(w, k) && t in w.threads && KeyOf(t) != k
    ensures Lost(Step(c, w, Run(t, ok)), k)
  {
    hide Advance;
    OtherKeysOnly(c, w, t, ok, k);
    LostApplied(w, t, Advance(c, w, t, ok), k);
  }

  lemma RunLost(c: Config, w: World, t: Thread, ok: bool, k: Header)
    requires Sound(w, k) && Lost(w, k) && t in w.threads
    ensures Lost(Step(c, w, Run(t, ok)), k) || FirstReturn(k, false) in Step(c, w, Run(t, ok)).log
  {
    hide Step;
    if KeyOf(t) != k {
      OtherLost(c, w, t, ok, k);
    } else if t.FirstFailed? {
      assert Carries(t, w.origin);
      FailedStays(c, w, Run(t, ok), k);
    } else if t.InFirst? && !ok {
      SenderFails(c, w, t, k);
    } else {
      SenderLost(c, w, t, ok, k);
    }
  }

  lemma LostApplied(w: World, t: Thread, f: Effect, k: Header)
    requires Lost(w, k) && k in f.store && k !in f.pending
    requires f.next.Some? && KeyOf(f.next.value) == k ==> f.next.value.InFirst? || f.next.value.MarkSent?
    ensures Lost(Applied(w, t, f), k)
  {
  }

  lemma {:induction false} RefusedStaysLost(c: Config, events: seq<Event>, k: Header)
    requires WasRefused(c, events, k)
    ensures Lost(Exec(c, START, events), k) || FirstReturn(k, false) in Exec(c, START, events).log
  {
    hide Step, Refuses, Sound, Ready, Lost;
    var n := |events| - 1;
    var w := Exec(c, START, events[..n]);
    RunsSound(c, events[..n], k);
    RunsReady(c, events[..n], k);
    RefusedBefore(c, events, k);
    if WasRefused(c, events[..n], k) {
      RefusedStaysLost(c, events[..n], k);
      LostOrFailed(c, w, events[n], k);
    } else {
      RefusalStep(c, w, events[n], k);
    }
  }

  lemma RefusalStep(c: Config, w: World, e: Event, k: Header)
    requires Sound(w, k) && Ready(w, k) && Refuses(c, w, e, k) && k in w.store
    ensures Lost(Step(c, w, e), k) || FirstReturn(k, false) in Step(c, w, e).log
  {
    RefusalLoses(c, w, e.t, e.ok, k);
    if FirstReturn(k, false) in w.log {
      FailedStays(c, w, e, k);
    }
  }

  lemma LostOrFailed(c: Config, w: World, e: Event, k: Header)
    requires Sound(w, k) && (Lost(w, k) || FirstReturn(k, false) in w.log)
    ensures Lost(Step(c, w, e), k) || FirstReturn(k, false) in Step(c, w, e).log
  {
    if Lost(w, k) {
      LostStep(c, w, e, k);
    } else {
      FailedStays(c, w, e, k);
    }
  }

  /** At rest a message is stranded if, and only if, a re-registration of it was refused while it
      was stored, and its first send returned 0. */
  lemma StrandedIffRefused(c: Config, events: seq<Event>, k: Header)
    requires Exec(c, START, events).threads == multiset{}
    ensures var w := Exec(c, START, events);
            k in w.store && k !in w.pending <==> WasRefused(c, events, k) && FirstReturn(k, true) in w.log
  {
    var w := Exec(c, START, events);
    RunsSound(c, events, k);
    if k in w.store && !WasRefused(c, events, k) {
      RunsWatched(c, events, k);
    }
    if WasRefused(c, events, k) && FirstReturn(k, true) in w.log {
      RefusedStaysLost(c, events, k);
      RunsReturnOnce(c, events, k);
      ReturnsSeen(w.log, k);
      assert KeySeen(FirstReturn(k, true)) == k;
    }
  }

  lemma FewNeverRefused(c: Config, w: World, e: Event, k: Header)
    requires Authentic(w) && Rooted(w) && |w.origin| <= c.cap
    ensures !Refuses(c, w, e, k)
  {
    if e.Run? && e.t in w.threads && e.t.Reregister? && e.t.p.header == k && k !in w.pending {
      assert Carries(e.t, w.origin);
      assert |w.origin| == |w.origin.Keys| && w.pending <= w.origin.Keys - {k};
      Smaller(w.pending, w.origin.Keys - {k});
    }
  }

  lemma Smaller(a: set<Header>, b: set<Header>)
    requires a <= b
    ensures |a| <= |b|
  {
    if a != {} {
      var x :| x in a;
      Smaller(a - {x}, b - {x});
    }
  }

  lemma BegunGrows(c: Config, w: World, e: Event)
    ensures |w.origin| <= |Step(c, w, e).origin|
  {
    if e.Begin? && e.p.header !in w.origin {
      PutSize(w.origin, e.p.header, e.p);
    }
  }

  lemma {:induction false} FewNeverRefuse(c: Config, events: seq<Event>, k: Header)
    requires |Exec(c, START, events).origin| <= c.cap
    ensures NeverRefuses(c, events, k)
  {
    if events != [] {
      hide Refuses, Step, NeverRefuses;
      var n := |events| - 1;
      var w := Exec(c, START, events[..n]);
      BegunGrows(c, w, events[n]);
      FewNeverRefuse(c, events[..n], k);
      RunsRooted(c, events[..n]);
      FewNeverRefused(c, w, events[n], k);
      NeverRefusesBefore(c, events, k);
    }
  }

  /** What a caller can rely on: if no physical send fails and no more messages were begun than the
      pending map can hold, then at rest every message begun was reported as a success or as a
      failure exactly once and is forgotten, or is stored and pending, whatever the interleaving. */
  lemma ReliableTransportReportsOnce(c: Config, events: seq<Event>, k: Header)
    requires forall e | e in events && e.Run? :: e.ok
    requires Exec(c, START, events).threads == multiset{} && |Exec(c, START, events).origin| <= c.cap
    requires k in Exec(c, START, events).origin
    ensures SettledOrPending(Exec(c, START, events), k)
  {
    SuccessfulSendsNeverMiss(c, events, k);
    FewNeverRefuse(c, events, k);
    OrdinarilyReportedOnce(c, events, k);
  }

  /** Nothing is stranded while no more messages have been begun than the pending map can hold. */
  lemma FewAreNeverStranded(c: Config, events: seq<Event>, k: Header)
    requires Exec(c, START, events).threads == multiset{} && |Exec(c, START, events).origin| <= c.cap
    ensures var w := Exec(c, START, events); k in w.store ==> k in w.pending
  {
    FewNeverRefuse(c, events, k);
    StrandedIffRefused(c, events, k);
  }

  /** Stored, not pending, and no thread will look at it again. */
  ghost predicate Stranded(w: World, k: Header) {
    k in w.store && k !in w.pending && k in w.origin && forall t | t in w.threads :: KeyOf(t) != k
  }

  ghost predicate QuietAbout(log: seq<Obs>, log': seq<Obs>, k: Header) {
    && |log| <= |log'| && log'[..|log|] == log
    && forall i | |log| <= i < |log'| :: KeySeen(log'[i]) != k
  }

  lemma StrandedApplied(w: World, t: Thread, f: Effect, k: Header)
    requires Stranded(w, k) && t in w.threads && LeavesAlone(w, f, k)
    ensures Stranded(Applied(w, t, f), k) && QuietAbout(w.log, Applied(w, t, f).log, k)
  {
  }

  lemma StartStranded(c: Config, w: World, e: Event, k: Header)
    requires !e.Run? && Stranded(w, k)
    ensures Stranded(Step(c, w, e), k) && QuietAbout(w.log, Step(c, w, e).log, k)
  {
  }

  lemma StrandedStep(c: Config, w: World, e: Event, k: Header)
    requires Authentic(w) && Stranded(w, k)
    ensures Stranded(Step(c, w, e), k)
    ensures QuietAbout(w.log, Step(c, w, e).log, k)
  {
    if !e.Run? {
      StartStranded(c, w, e, k);
    } else if e.t in w.threads {
      OtherKeysOnly(c, w, e.t, e.ok, k);
      StrandedApplied(w, e.t, Advance(c, w, e.t, e.ok), k);
    }
  }

  /** A stranded message is never decided: no continuation of the run mentions it again. */
  lemma {:induction false} StrandedForever(c: Config, w: World, events: seq<Event>, k: Header)
    requires Authentic(w) && Stranded(w, k)
    ensures Authentic(Exec(c, w, events)) && Stranded(Exec(c, w, events), k)
    ensures QuietAbout(w.log, Exec(c, w, events).log, k)
  {
    if events != [] {
      var n := |events| - 1;
      StrandedForever(c, w, events[..n], k);
      AuthenticStep(c, Exec(c, w, events[..n]), events[n]);
      StrandedStep(c, Exec(c, w, events[..n]), events[n], k);
    }
  }
}
