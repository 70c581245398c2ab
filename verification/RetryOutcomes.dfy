/**
 * How often a message of the interleaved sender is reported. The law of the serialised sender, one
 * outcome each, can fail in two ways: a physical send fails and the `Cancel` after it finds no
 * pending entry, because an ACK or an expiry took it meanwhile; or a TIMEOUT finds nothing stored,
 * or a re-registration is refused. The code ignores the results of both. The first adds a report,
 * the second takes one away, and a balance of the two says exactly how many there are.
 */
module RetryOutcomes {
  import opened Common
  import opened SenderSpec
  import opened RetryInterleaving

  /** The `Cancel` after a failed send finds no entry of its message. */
  predicate Misses(w: World, e: Event, k: Header) {
    e.Run? && e.t in w.threads && (e.t.FirstFailed? || e.t.RetryFailed?) && e.t.p.header == k && k !in w.pending
  }

  ghost predicate NeverMisses(c: Config, events: seq<Event>, k: Header) {
    forall i | 0 <= i < |events| :: !Misses(Exec(c, START, events[..i]), events[i], k)
  }

  /** The re-registration whose result the code ignores is refused because the map is full. */
  predicate Refuses(c: Config, w: World, e: Event, k: Header) {
    e.Run? && e.t in w.threads && e.t.Reregister? && e.t.p.header == k && k !in w.pending && |w.pending| >= c.cap
  }

  ghost predicate NeverRefuses(c: Config, events: seq<Event>, k: Header) {
    forall i | 0 <= i < |events| :: !Refuses(c, Exec(c, START, events[..i]), events[i], k)
  }

  predicate IsOutcome(o: Obs, k: Header) {
    o == Success(k) || o == Failure(k)
  }

  /** How often the message was reported, as a success or a failure. */
  ghost function Outcomes(log: seq<Obs>, k: Header): nat {
    if log == [] then 0 else Outcomes(log[..|log| - 1], k) + One(IsOutcome(log[|log| - 1], k))
  }

  lemma OutcomesLogged(log: seq<Obs>, obs: Option<Obs>, k: Header)
    ensures Outcomes(Logged(log, obs), k) == Outcomes(log, k) + One(obs.Some? && IsOutcome(obs.value, k))
  {
    if obs.Some? {
      assert (log + [obs.value])[..|log|] == log;
    }
  }

  lemma {:induction false} OutcomesSeen(log: seq<Obs>, k: Header)
    ensures Outcomes(log, k) == 0 <==> Success(k) !in log && Failure(k) !in log
    ensures Success(k) in log && Failure(k) in log ==> Outcomes(log, k) >= 2
  {
    if log != [] {
      var n := |log| - 1;
      OutcomesSeen(log[..n], k);
      assert log == log[..n] + [log[n]];
    }
  }

  /** May the thread lead to an outcome, or to a pending entry, without taking an entry for it? */
  predicate HasStake(t: Thread, p: Packet) {
    || t == Stored(p) || t == Refused(p) || t == FirstOver(p) || t == Timeout(p.header) || t == RetryAdd(p)
    || t == RetryOver(p) || t == Reregister(p) || t == Reporting(p.header)
  }

  ghost function ThreadStakes(threads: multiset<Thread>, p: Packet): nat {
    threads[Stored(p)] + threads[Refused(p)] + threads[FirstOver(p)] + threads[Timeout(p.header)] + threads[RetryAdd(p)]
    + threads[RetryOver(p)] + threads[Reregister(p)] + threads[Reporting(p.header)]
  }

  /** The places a message's fate can be in: its entry, a thread, or a report. */
  ghost function Stakes(w: World, k: Header): nat
    requires k in w.origin
  {
    One(k in w.pending) + ThreadStakes(w.threads, w.origin[k]) + Outcomes(w.log, k)
  }

  lemma StakeLeaves(threads: multiset<Thread>, t: Thread, p: Packet)
    requires t in threads
    ensures ThreadStakes(threads - multiset{t}, p) == ThreadStakes(threads, p) - One(HasStake(t, p))
  {
  }

  lemma StakeJoins(threads: multiset<Thread>, next: Option<Thread>, p: Packet)
    ensures ThreadStakes(Joined(threads, next), p)
         == ThreadStakes(threads, p) + One(next.Some? && HasStake(next.value, p))
  {
    if next.Some? {
      var joined := threads + multiset{next.value};
      StakeLeaves(joined, next.value, p);
      assert joined - multiset{next.value} == threads;
    }
  }

  lemma StakeHeld(threads: multiset<Thread>, t: Thread, p: Packet)
    requires t in threads && HasStake(t, p)
    ensures ThreadStakes(threads, p) >= 1
  {
  }

  lemma NoStakes(threads: multiset<Thread>, p: Packet)
    requires forall t | t in threads :: KeyOf(t) != p.header
    ensures ThreadStakes(threads, p) == 0
  {
    forall t | HasStake(t, p)
      ensures t !in threads
    {
      assert KeyOf(t) == p.header;
    }
  }

  ghost function EffectStakes(f: Effect, k: Header, p: Packet): nat {
    One(k in f.pending) + One(f.next.Some? && HasStake(f.next.value, p)) + One(f.obs.Some? && IsOutcome(f.obs.value, k))
  }

  /** The thread's step gives its stake up: a TIMEOUT finds nothing stored, or a re-registration
      is refused. */
  predicate GivesUp(c: Config, w: World, t: Thread, k: Header) {
    || (t == Timeout(k) && k !in w.store)
    || (t.Reregister? && t.p.header == k && !CanAdd(c, w, k))
  }

  /** The event is such a step. */
  predicate Drops(c: Config, w: World, e: Event, k: Header) {
    e.Run? && e.t in w.threads && GivesUp(c, w, e.t, k)
  }

  /** How often a `Cancel` of the message missed. */
  ghost function Missed(c: Config, events: seq<Event>, k: Header): nat {
    if events == [] then 0
    else
      var n := |events| - 1;
      Missed(c, events[..n], k) + One(Misses(Exec(c, START, events[..n]), events[n], k))
  }

  /** How often a TIMEOUT or a re-registration of the message came to nothing. */
  ghost function GivenUp(c: Config, events: seq<Event>, k: Header): nat {
    if events == [] then 0
    else
      var n := |events| - 1;
      GivenUp(c, events[..n], k) + One(Drops(c, Exec(c, START, events[..n]), events[n], k))
  }

  /** A thread of another message touches no stake. */
  lemma OtherStakes(c: Config, w: World, t: Thread, ok: bool, k: Header)
    requires Authentic(w) && t in w.threads && k in w.origin && KeyOf(t) != k
    ensures !HasStake(t, w.origin[k]) && EffectStakes(Advance(c, w, t, ok), k, w.origin[k]) == One(k in w.pending)
  {
    hide Advance;
    assert w.origin[k].header == k;
    OtherKeysOnly(c, w, t, ok, k);
  }

  predicate FindsNothing(w: World, t: Thread, k: Header) {
    (t.FirstFailed? || t.RetryFailed?) && t.p.header == k && k !in w.pending
  }

  /** What a thread's step does to the stakes of its message. */
  ghost predicate KeepsStake(c: Config, w: World, t: Thread, f: Effect, p: Packet) {
    var k := p.header;
    EffectStakes(f, k, p) + One(GivesUp(c, w, t, k))
    == One(k in w.pending) + One(HasStake(t, p)) + One(FindsNothing(w, t, k))
  }

  lemma SenderStakes(c: Config, w: World, t: Thread, ok: bool, p: Packet)
    requires t == Stored(p) || t == Refused(p) || t == Sending(p)
    ensures KeepsStake(c, w, t, Advance(c, w, t, ok), p)
  {
  }

  lemma SentStakes(c: Config, w: World, t: Thread, ok: bool, p: Packet)
    requires t == InFirst(p) || t == FirstFailed(p) || t == FirstOver(p) || t == MarkSent(p)
    ensures KeepsStake(c, w, t, Advance(c, w, t, ok), p)
  {
  }

  lemma RetryStakes(c: Config, w: World, t: Thread, ok: bool, p: Packet)
    requires t == RetryAdd(p) || t == RetrySend(p) || t == InRetry(p) || t == RetryFailed(p) || t == RetryOver(p)
             || t == Reregister(p)
    ensures KeepsStake(c, w, t, Advance(c, w, t, ok), p)
  {
  }

  lemma StatusStakes(c: Config, w: World, t: Thread, ok: bool, p: Packet)
    requires t == Acked(p.header) || t == Timeout(p.header) || t == Reporting(p.header)
    requires p.header in w.store ==> w.store[p.header].packet == p
    ensures KeepsStake(c, w, t, Advance(c, w, t, ok), p)
  {
  }

  /** A thread's step creates a stake only by a missed `Cancel`, and loses one only by giving up. */
  lemma EffectKeepsStakes(c: Config, w: World, t: Thread, ok: bool, k: Header)
    requires Authentic(w) && t in w.threads && k in w.origin
    ensures KeepsStake(c, w, t, Advance(c, w, t, ok), w.origin[k])
  {
    hide Advance, KeepsStake, EffectStakes, FindsNothing;
    var p := w.origin[k];
    assert Carries(t, w.origin) && p.header == k;
    if KeyOf(t) != k {
      OtherStakes(c, w, t, ok, k);
      OtherKeeps(c, w, t, Advance(c, w, t, ok), p);
    } else if t.Acked? || t.Timeout? || t.Reporting? {
      StatusStakes(c, w, t, ok, p);
    } else if t.RetryAdd? || t.RetrySend? || t.InRetry? || t.RetryFailed? || t.RetryOver? || t.Reregister? {
      RetryStakes(c, w, t, ok, p);
    } else if t.Stored? || t.Refused? || t.Sending? {
      SenderStakes(c, w, t, ok, p);
    } else {
      SentStakes(c, w, t, ok, p);
    }
  }

  lemma OtherKeeps(c: Config, w: World, t: Thread, f: Effect, p: Packet)
    requires KeyOf(t) != p.header && !HasStake(t, p) && EffectStakes(f, p.header, p) == One(p.header in w.pending)
    ensures KeepsStake(c, w, t, f, p)
  {
  }

  lemma StakesApplied(w: World, t: Thread, f: Effect, k: Header)
    requires t in w.threads && k in w.origin
    ensures Stakes(Applied(w, t, f), k) + One(k in w.pending) + One(HasStake(t, w.origin[k]))
         == Stakes(w, k) + EffectStakes(f, k, w.origin[k])
  {
    StakeLeaves(w.threads, t, w.origin[k]);
    StakeJoins(w.threads - multiset{t}, f.next, w.origin[k]);
    OutcomesLogged(w.log, f.obs, k);
  }

  /** Thread `t` joins and `obs` is seen; `moved` says whether the entry goes. */
  lemma StakesJoined(w: World, w': World, t: Thread, obs: Option<Obs>, k: Header, moved: bool)
    requires k in w.origin && k in w'.origin && w'.origin[k] == w.origin[k]
    requires w'.threads == Joined(w.threads, Some(t)) && w'.log == Logged(w.log, obs)
    requires One(k in w.pending) == One(k in w'.pending) + One(moved)
    requires One(HasStake(t, w.origin[k])) + One(obs.Some? && IsOutcome(obs.value, k)) == One(moved)
    ensures Stakes(w', k) == Stakes(w, k)
  {
    hide ThreadStakes, Outcomes, Joined, Logged;
    StakeJoins(w.threads, Some(t), w.origin[k]);
    OutcomesLogged(w.log, obs, k);
  }

  lemma StartKeepsStakes(c: Config, w: World, e: Event, k: Header)
    requires !e.Run? && Authentic(w) && k in w.origin
    ensures k in Step(c, w, e).origin && Stakes(Step(c, w, e), k) == Stakes(w, k)
  {
    hide Stakes;
    var w' := Step(c, w, e);
    assert w.origin[k].header == k;
    if w' != w {
      match e
      case Begin(q) => StakesJoined(w, w', Stored(q), None, k, false);
      case Ack(j) => StakesJoined(w, w', Acked(j), Some(Success(j)), k, j == k);
      case Expire(j) => StakesJoined(w, w', Timeout(j), None, k, j == k);
    }
  }

  /** A fresh message has one stake: its sender. */
  lemma BeginStakes(c: Config, w: World, p: Packet)
    requires Rooted(w) && p.header !in w.origin
    ensures Stakes(Step(c, w, Begin(p)), p.header) == 1
  {
    var k := p.header;
    StakeJoins(w.threads, Some(Stored(p)), p);
    NoStakes(w.threads, p);
    OutcomesSeen(w.log, k);
    assert KeySeen(Success(k)) == k && KeySeen(Failure(k)) == k;
  }

  ghost predicate OneStake(w: World, k: Header) {
    k in w.origin ==> Stakes(w, k) <= 1
  }

  lemma OneStakeStep(c: Config, w: World, e: Event, k: Header)
    requires Authentic(w) && Rooted(w) && OneStake(w, k) && !Misses(w, e, k)
    ensures OneStake(Step(c, w, e), k)
  {
    hide Advance, Stakes;
    if e.Begin? && e.p.header == k && k !in w.origin {
      BeginStakes(c, w, e.p);
    } else if k in w.origin && !e.Run? {
      StartKeepsStakes(c, w, e, k);
    } else if k in w.origin && e.t in w.threads {
      EffectKeepsStakes(c, w, e.t, e.ok, k);
      StakesApplied(w, e.t, Advance(c, w, e.t, e.ok), k);
    }
  }

  lemma NeverMissesBefore(c: Config, events: seq<Event>, k: Header)
    requires events != []
    ensures NeverMisses(c, events, k) <==>
      NeverMisses(c, events[..|events| - 1], k)
        && !Misses(Exec(c, START, events[..|events| - 1]), events[|events| - 1], k)
  {
    hide Misses, Exec;
    var n := |events| - 1;
    assert forall i | 0 <= i < n :: events[..n][..i] == events[..i] && events[..n][i] == events[i];
    if NeverMisses(c, events, k) {
      forall i | 0 <= i < n
        ensures !Misses(Exec(c, START, events[..n][..i]), events[..n][i], k)
      {
        assert !Misses(Exec(c, START, events[..i]), events[i], k);
      }
    }
    if NeverMisses(c, events[..n], k) && !Misses(Exec(c, START, events[..n]), events[n], k) {
      forall i | 0 <= i < |events|
        ensures !Misses(Exec(c, START, events[..i]), events[i], k)
      {
        assert i < n ==> !Misses(Exec(c, START, events[..n][..i]), events[..n][i], k);
      }
    }
  }

  /** Nothing is missed or given up of a message that was not begun. */
  lemma UnbegunIsQuiet(c: Config, w: World, e: Event, k: Header)
    requires Rooted(w) && k !in w.origin
    ensures !Misses(w, e, k) && !Drops(c, w, e, k)
  {
    assert e.Run? && e.t in w.threads ==> KeyOf(e.t) in w.origin;
  }

  /** The stakes of `k` after `misses` missed cancellations and `drops` stakes given up. */
  ghost predicate Balance(w: World, k: Header, misses: nat, drops: nat) {
    if k in w.origin then Stakes(w, k) + drops == 1 + misses else misses == 0 && drops == 0
  }

  lemma RunBalances(c: Config, w: World, e: Event, k: Header)
    requires Authentic(w) && e.Run? && e.t in w.threads && k in w.origin
    ensures k in Step(c, w, e).origin
    ensures Stakes(Step(c, w, e), k) + One(Drops(c, w, e, k)) == Stakes(w, k) + One(Misses(w, e, k))
  {
    hide Advance, Stakes;
    EffectKeepsStakes(c, w, e.t, e.ok, k);
    StakesApplied(w, e.t, Advance(c, w, e.t, e.ok), k);
  }

  lemma UnbegunBalances(c: Config, w: World, e: Event, k: Header)
    requires Rooted(w) && k !in w.origin
    ensures Balance(Step(c, w, e), k, 0, 0)
  {
    hide Stakes;
    if e.Begin? && e.p.header == k {
      BeginStakes(c, w, e.p);
    }
  }

  lemma BalanceStep(c: Config, w: World, e: Event, k: Header, misses: nat, drops: nat)
    requires Authentic(w) && Rooted(w) && Balance(w, k, misses, drops)
    ensures Balance(Step(c, w, e), k, misses + One(Misses(w, e, k)), drops + One(Drops(c, w, e, k)))
  {
    hide Advance, Stakes, GivesUp;
    if k !in w.origin {
      hide Step;
      UnbegunIsQuiet(c, w, e, k);
      UnbegunBalances(c, w, e, k);
    } else if !e.Run? {
      StartKeepsStakes(c, w, e, k);
    } else if e.t in w.threads {
      RunBalances(c, w, e, k);
    }
  }

  lemma {:induction false} RunsBalance(c: Config, events: seq<Event>, k: Header)
    ensures Balance(Exec(c, START, events), k, Missed(c, events, k), GivenUp(c, events, k))
  {
    if events != [] {
      hide Step, Misses, Drops, Balance;
      var n := |events| - 1;
      RunsBalance(c, events[..n], k);
      RunsRooted(c, events[..n]);
      BalanceStep(c, Exec(c, START, events[..n]), events[n], k, Missed(c, events[..n], k), GivenUp(c, events[..n], k));
    }
  }

  /** The balance: at rest, the reports of a message that was begun, its entry if it is still pending
      and the stakes given up are together one more than the cancellations that missed. */
  lemma ReportsBalance(c: Config, events: seq<Event>, k: Header)
    requires Exec(c, START, events).threads == multiset{} && k in Exec(c, START, events).origin
    ensures var w := Exec(c, START, events);
            Outcomes(w.log, k) + One(k in w.pending) + GivenUp(c, events, k) == 1 + Missed(c, events, k)
  {
    RunsBalance(c, events, k);
    RunsRooted(c, events);
    var w := Exec(c, START, events);
    NoStakes(w.threads, w.origin[k]);
  }

  lemma {:induction false} MissedNever(c: Config, events: seq<Event>, k: Header)
    ensures Missed(c, events, k) == 0 <==> NeverMisses(c, events, k)
  {
    if events != [] {
      hide Misses, NeverMisses, Exec;
      NeverMissesBefore(c, events, k);
      MissedNever(c, events[..|events| - 1], k);
    } else {
      assert NeverMisses(c, events, k);
    }
  }

  /** At most once, in every interleaving and at every moment, while no `Cancel` after a failed send
      has missed. */
  lemma ReportedOnceWhileNoneMissed(c: Config, events: seq<Event>, k: Header)
    requires NeverMisses(c, events, k)
    ensures Outcomes(Exec(c, START, events).log, k) <= 1
  {
    RunsBalance(c, events, k);
    MissedNever(c, events, k);
    RunsRooted(c, events);
    var w := Exec(c, START, events);
    OutcomesSeen(w.log, k);
    assert KeySeen(Success(k)) == k && KeySeen(Failure(k)) == k;
  }

  /** At most once: a message at rest was reported at most once if, and only if, no more of its
      cancellations missed than stakes of it were given up, an entry still pending counting as one. */
  lemma ReportedAtMostOnce(c: Config, events: seq<Event>, k: Header)
    requires Exec(c, START, events).threads == multiset{} && k in Exec(c, START, events).origin
    ensures var w := Exec(c, START, events);
            Outcomes(w.log, k) <= 1 <==> Missed(c, events, k) <= GivenUp(c, events, k) + One(k in w.pending)
  {
    ReportsBalance(c, events, k);
  }

  /** The message was, or is about to be, reported failed. */
  ghost predicate Ended(w: World, k: Header) {
    Failure(k) in w.log || Reporting(k) in w.threads
  }

  /** What has left the store was decided, and what is decided leaves the store. */
  ghost predicate Settling(w: World, k: Header) {
    k in w.origin ==>
      && (k !in w.store ==> Success(k) in w.log || Ended(w, k))
      && (Ended(w, k) ==> k !in w.store)
      && (Success(k) in w.log ==> k !in w.store || Acked(k) in w.threads)
      && (Acked(k) in w.threads ==> Success(k) in w.log)
  }

  /** What a step of thread `t` may do to the decision about `k`. */
  ghost predicate Decides(w: World, t: Thread, f: Effect, k: Header) {
    && (k in f.store ==> k in w.store)
    && (k in w.store && k !in f.store ==> t == Acked(k) || f.next == Some(Reporting(k)))
    && (f.next == Some(Reporting(k)) ==> k !in f.store)
    && (t == Reporting(k) ==> f.obs == Some(Failure(k)))
    && (f.obs == Some(Failure(k)) ==> t == Reporting(k))
    && (t == Acked(k) ==> k !in f.store)
    && f.next != Some(Acked(k)) && f.obs != Some(Success(k))
  }

  lemma EffectDecides(c: Config, w: World, t: Thread, ok: bool, k: Header)
    requires Authentic(w) && t in w.threads && k in w.origin
    ensures Decides(w, t, Advance(c, w, t, ok), k)
  {
    assert Carries(t, w.origin);
  }

  lemma SettlingApplied(w: World, t: Thread, f: Effect, k: Header)
    requires t in w.threads && k in w.origin && Settling(w, k) && Decides(w, t, f, k)
    ensures Settling(Applied(w, t, f), k)
  {
    hide Joined, Logged;
    Members(w.threads, t, f.next, Reporting(k));
    Members(w.threads, t, f.next, Acked(k));
    Seen(w.log, f.obs, Success(k));
    Seen(w.log, f.obs, Failure(k));
  }

  lemma StartSettles(c: Config, w: World, e: Event, k: Header)
    requires !e.Run? && Rooted(w) && Settling(w, k)
    ensures Settling(Step(c, w, e), k)
  {
    var w' := Step(c, w, e);
    assert k !in w.origin ==> KeySeen(Success(k)) == KeySeen(Failure(k)) == KeyOf(Reporting(k)) == KeyOf(Acked(k)) == k;
    if e.Ack? && w' != w {
      Seen(w.log, Some(Success(e.k)), Success(k));
      Seen(w.log, Some(Success(e.k)), Failure(k));
    }
  }

  lemma RunSettles(c: Config, w: World, t: Thread, ok: bool, k: Header)
    requires Authentic(w) && Settling(w, k) && t in w.threads && k in w.origin
    ensures Settling(Step(c, w, Run(t, ok)), k)
  {
    hide Advance, Settling;
    EffectDecides(c, w, t, ok, k);
    SettlingApplied(w, t, Advance(c, w, t, ok), k);
  }

  lemma SettlingStep(c: Config, w: World, e: Event, k: Header)
    requires Authentic(w) && Rooted(w) && Settling(w, k)
    ensures Settling(Step(c, w, e), k)
  {
    if !e.Run? {
      StartSettles(c, w, e, k);
    } else if e.t in w.threads && k in w.origin {
      RunSettles(c, w, e.t, e.ok, k);
    }
  }

  lemma {:induction false} RunsSettle(c: Config, events: seq<Event>, k: Header)
    ensures Settling(Exec(c, START, events), k)
  {
    if events != [] {
      var n := |events| - 1;
      RunsSettle(c, events[..n], k);
      RunsRooted(c, events[..n]);
      SettlingStep(c, Exec(c, START, events[..n]), events[n], k);
    }
  }

  ghost predicate ExactStake(w: World, k: Header) {
    k in w.origin ==> Stakes(w, k) == 1
  }

  /** With one stake, a TIMEOUT finds its message stored, and a re-registration finds its key free. */
  lemma NothingGivenUp(c: Config, w: World, t: Thread, ok: bool, k: Header)
    requires Authentic(w) && Settling(w, k) && t in w.threads && k in w.origin && Stakes(w, k) == 1
    requires !Refuses(c, w, Run(t, ok), k)
    ensures !GivesUp(c, w, t, k)
  {
    var p := w.origin[k];
    assert Carries(t, w.origin) && p.header == k;
    if GivesUp(c, w, t, k) {
      OutcomesSeen(w.log, k);
      StakeHeld(w.threads, t, p);
      if Reporting(k) in w.threads {
        StakeLeaves(w.threads, Reporting(k), p);
        StakeHeld(w.threads - multiset{Reporting(k)}, t, p);
      }
      assert false;
    }
  }

  lemma ExactStakeStep(c: Config, w: World, e: Event, k: Header)
    requires Authentic(w) && Rooted(w) && Settling(w, k) && ExactStake(w, k) && !Misses(w, e, k) && !Refuses(c, w, e, k)
    ensures ExactStake(Step(c, w, e), k)
  {
    hide Advance, Stakes;
    if e.Begin? && e.p.header == k && k !in w.origin {
      BeginStakes(c, w, e.p);
    } else if k in w.origin && !e.Run? {
      StartKeepsStakes(c, w, e, k);
    } else if k in w.origin && e.t in w.threads {
      NothingGivenUp(c, w, e.t, e.ok, k);
      EffectKeepsStakes(c, w, e.t, e.ok, k);
      StakesApplied(w, e.t, Advance(c, w, e.t, e.ok), k);
    }
  }

  lemma NeverRefusesBefore(c: Config, events: seq<Event>, k: Header)
    requires events != []
    ensures NeverRefuses(c, events, k) <==>
      NeverRefuses(c, events[..|events| - 1], k)
        && !Refuses(c, Exec(c, START, events[..|events| - 1]), events[|events| - 1], k)
  {
    hide Refuses, Exec;
    var n := |events| - 1;
    assert forall i | 0 <= i < n :: events[..n][..i] == events[..i] && events[..n][i] == events[i];
    if NeverRefuses(c, events, k) {
      forall i | 0 <= i < n
        ensures !Refuses(c, Exec(c, START, events[..n][..i]), events[..n][i], k)
      {
        assert !Refuses(c, Exec(c, START, events[..i]), events[i], k);
      }
    }
    if NeverRefuses(c, events[..n], k) && !Refuses(c, Exec(c, START, events[..n]), events[n], k) {
      forall i | 0 <= i < |events|
        ensures !Refuses(c, Exec(c, START, events[..i]), events[i], k)
      {
        assert i < n ==> !Refuses(c, Exec(c, START, events[..n][..i]), events[..n][i], k);
      }
    }
  }

  lemma {:induction false} RunsKeepExactStake(c: Config, events: seq<Event>, k: Header)
    requires NeverMisses(c, events, k) && NeverRefuses(c, events, k)
    ensures ExactStake(Exec(c, START, events), k)
  {
    if events != [] {
      var n := |events| - 1;
      NeverMissesBefore(c, events, k);
      NeverRefusesBefore(c, events, k);
      RunsKeepExactStake(c, events[..n], k);
      RunsRooted(c, events[..n]);
      RunsSettle(c, events[..n], k);
      ExactStakeStep(c, Exec(c, START, events[..n]), events[n], k);
    }
  }

  /** Reported once and forgotten, or not reported, stored and pending. */
  ghost predicate SettledOrPending(w: World, k: Header) {
    (k in w.store <==> k in w.pending) && Outcomes(w.log, k) == if k in w.store then 0 else 1
  }

  /** Exactly once: a message at rest was reported exactly once and is forgotten, or was not reported
      and is stored and pending, if, and only if, as many of its cancellations missed as stakes of it
      were given up. */
  lemma ReportedExactlyOnce(c: Config, events: seq<Event>, k: Header)
    requires Exec(c, START, events).threads == multiset{} && k in Exec(c, START, events).origin
    ensures SettledOrPending(Exec(c, START, events), k) <==> Missed(c, events, k) == GivenUp(c, events, k)
  {
    ReportsBalance(c, events, k);
    RunsSettle(c, events, k);
    OutcomesSeen(Exec(c, START, events).log, k);
  }

  /** In particular if no cancellation of it missed and no re-registration of it was refused. */
  lemma OrdinarilyReportedOnce(c: Config, events: seq<Event>, k: Header)
    requires NeverMisses(c, events, k) && NeverRefuses(c, events, k)
    requires Exec(c, START, events).threads == multiset{} && k in Exec(c, START, events).origin
    ensures SettledOrPending(Exec(c, START, events), k)
  {
    RunsKeepExactStake(c, events, k);
    RunsSettle(c, events, k);
    var w := Exec(c, START, events);
    NoStakes(w.threads, w.origin[k]);
    OutcomesSeen(w.log, k);
  }

  /** Is the thread going to report the message failed? */
  predicate WillReport(t: Thread, k: Header) {
    t == Reporting(k) || ((t.FirstFailed? || t.FirstOver? || t.RetryFailed? || t.RetryOver?) && t.p.header == k)
  }

  ghost predicate Failing(w: World, k: Header) {
    Failure(k) in w.log || exists t :: t in w.threads && WillReport(t, k)
  }

  lemma EffectReports(c: Config, w: World, t: Thread, ok: bool, k: Header)
    requires WillReport(t, k)
    ensures var f := Advance(c, w, t, ok); f.obs == Some(Failure(k)) || (f.next.Some? && WillReport(f.next.value, k))
  {
  }

  lemma FailingApplied(w: World, t: Thread, f: Effect, k: Header)
    requires t in w.threads && Failing(w, k)
    requires WillReport(t, k) ==> f.obs == Some(Failure(k)) || (f.next.Some? && WillReport(f.next.value, k))
    ensures Failing(Applied(w, t, f), k)
  {
    var w' := Applied(w, t, f);
    Seen(w.log, f.obs, Failure(k));
    if Failure(k) !in w'.log {
      var u :| u in w.threads && WillReport(u, k);
      Members(w.threads, t, f.next, if u == t then f.next.value else u);
      assert u == t ==> f.next.value in w'.threads;
    }
  }

  lemma StartFailing(c: Config, w: World, e: Event, k: Header)
    requires !e.Run? && Failing(w, k)
    ensures Failing(Step(c, w, e), k)
  {
    var w' := Step(c, w, e);
    assert forall t | t in w.threads :: t in w'.threads;
    assert Failure(k) in w.log ==> Failure(k) in w'.log;
  }

  lemma FailingStep(c: Config, w: World, e: Event, k: Header)
    requires Failing(w, k)
    ensures Failing(Step(c, w, e), k)
  {
    hide Advance, Failing;
    if !e.Run? {
      StartFailing(c, w, e, k);
    } else if e.t in w.threads {
      if WillReport(e.t, k) {
        EffectReports(c, w, e.t, e.ok, k);
      }
      FailingApplied(w, e.t, Advance(c, w, e.t, e.ok), k);
    }
  }

  /** A send whose `Cancel` misses is going to be reported failed, in all that follows. */
  lemma {:induction false} MissFails(c: Config, events: seq<Event>, k: Header, i: nat)
    requires i < |events| && Misses(Exec(c, START, events[..i]), events[i], k)
    ensures Failing(Exec(c, START, events), k)
    decreases |events|
  {
    hide Advance, Step;
    var n := |events| - 1;
    if i < n {
      assert events[..n][..i] == events[..i];
      MissFails(c, events[..n], k, i);
    } else {
      assert WillReport(events[i].t, k);
    }
    FailingStep(c, Exec(c, START, events[..n]), events[n], k);
  }

  /** Both: at rest a message was reported as a success and as a failure if, and only if, an ACK took
      its entry and a `Cancel` after a failed send of it missed. */
  lemma BothReportedIffMissed(c: Config, events: seq<Event>, k: Header)
    requires Exec(c, START, events).threads == multiset{}
    ensures var w := Exec(c, START, events);
            Success(k) in w.log && Failure(k) in w.log <==> Success(k) in w.log && !NeverMisses(c, events, k)
  {
    var w := Exec(c, START, events);
    if NeverMisses(c, events, k) {
      ReportedOnceWhileNoneMissed(c, events, k);
      OutcomesSeen(w.log, k);
    } else {
      var i :| 0 <= i < |events| && Misses(Exec(c, START, events[..i]), events[i], k);
      MissFails(c, events, k, i);
    }
  }

  predicate Failed(t: Thread) {
    t.FirstFailed? || t.RetryFailed?
  }

  ghost predicate NoFailedSend(threads: multiset<Thread>) {
    forall t | t in threads :: !Failed(t)
  }

  lemma SuccessNeverFails(c: Config, w: World, t: Thread)
    ensures var f := Advance(c, w, t, true); f.next.Some? ==> !Failed(f.next.value)
  {
  }

  lemma NoFailedSendStep(c: Config, w: World, e: Event)
    requires NoFailedSend(w.threads) && (e.Run? ==> e.ok)
    ensures NoFailedSend(Step(c, w, e).threads)
  {
    hide Advance;
    if e.Run? {
      SuccessNeverFails(c, w, e.t);
    }
  }

  /** When no physical send fails there is no `Cancel` that could miss. */
  lemma {:induction false} SuccessfulSendsNeverMiss(c: Config, events: seq<Event>, k: Header)
    requires forall e | e in events && e.Run? :: e.ok
    ensures NoFailedSend(Exec(c, START, events).threads) && NeverMisses(c, events, k)
  {
    if events != [] {
      hide Step, NeverMisses;
      var n := |events| - 1;
      SuccessfulSendsNeverMiss(c, events[..n], k);
      NoFailedSendStep(c, Exec(c, START, events[..n]), events[n]);
      NeverMissesBefore(c, events, k);
    }
  }
}
