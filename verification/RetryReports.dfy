/**
 * The two kinds of report one by one: a success is reported at most once in every interleaving, and
 * a failure at most once as long as no TIMEOUT of a message is handled during a retransmission of
 * it and there are retries at all. One caller of `Process` handles its TIMEOUTs one after the other,
 * retransmissions included, so it takes two callers to violate the first condition.
 */
module RetryReports {
  import opened Common
  import opened SenderSpec
  import opened RetryInterleaving
  import opened RetryOutcomes
  import opened RetryStranding

  ghost function Times(log: seq<Obs>, o: Obs): nat {
    if log == [] then 0 else Times(log[..|log| - 1], o) + One(log[|log| - 1] == o)
  }

  lemma TimesLogged(log: seq<Obs>, obs: Option<Obs>, o: Obs)
    ensures Times(Logged(log, obs), o) == Times(log, o) + One(obs == Some(o))
  {
    if obs.Some? {
      assert (log + [obs.value])[..|log|] == log;
    }
  }

  lemma {:induction false} OutcomesAreReports(log: seq<Obs>, k: Header)
    ensures Outcomes(log, k) == Times(log, Success(k)) + Times(log, Failure(k))
  {
    if log != [] {
      OutcomesAreReports(log[..|log| - 1], k);
    }
  }

  lemma {:induction false} NeverSeen(log: seq<Obs>, o: Obs)
    ensures Times(log, o) == 0 <==> o !in log
  {
    if log != [] {
      NeverSeen(log[..|log| - 1], o);
      assert log == log[..|log| - 1] + [log[|log| - 1]];
    }
  }

  /** May the thread still make the message pending? */
  predicate Hopes(t: Thread, p: Packet) {
    t == Stored(p) || t == Timeout(p.header) || t == RetryAdd(p) || t == Reregister(p)
  }

  ghost function Hopeful(threads: multiset<Thread>, p: Packet): nat {
    threads[Stored(p)] + threads[Timeout(p.header)] + threads[RetryAdd(p)] + threads[Reregister(p)]
  }

  lemma HopeLeaves(threads: multiset<Thread>, t: Thread, p: Packet)
    requires t in threads
    ensures Hopeful(threads - multiset{t}, p) == Hopeful(threads, p) - One(Hopes(t, p))
  {
  }

  lemma HopeJoins(threads: multiset<Thread>, next: Option<Thread>, p: Packet)
    ensures Hopeful(Joined(threads, next), p) == Hopeful(threads, p) + One(next.Some? && Hopes(next.value, p))
  {
    if next.Some? {
      var joined := threads + multiset{next.value};
      HopeLeaves(joined, next.value, p);
      assert joined - multiset{next.value} == threads;
    }
  }

  /** Whatever is missed or refused, one entry at most can still be acknowledged, or was. */
  ghost predicate OneHope(w: World, k: Header) {
    k in w.origin ==> One(k in w.pending) + Hopeful(w.threads, w.origin[k]) + Times(w.log, Success(k)) <= 1
  }

  ghost predicate HopeFalls(w: World, t: Thread, f: Effect, p: Packet) {
    && One(p.header in f.pending) + One(f.next.Some? && Hopes(f.next.value, p))
       <= One(p.header in w.pending) + One(Hopes(t, p))
    && f.obs != Some(Success(p.header))
  }

  lemma OtherHopes(c: Config, w: World, t: Thread, ok: bool, p: Packet)
    requires Authentic(w) && t in w.threads && KeyOf(t) != p.header
    ensures HopeFalls(w, t, Advance(c, w, t, ok), p)
  {
    hide Advance;
    OtherKeysOnly(c, w, t, ok, p.header);
  }

  lemma SenderHopes(c: Config, w: World, t: Thread, ok: bool, p: Packet)
    requires t == Stored(p) || t == Refused(p) || t == Sending(p) || t == InFirst(p) || t == FirstFailed(p)
             || t == FirstOver(p) || t == MarkSent(p)
    ensures HopeFalls(w, t, Advance(c, w, t, ok), p)
  {
  }

  lemma RetryHopes(c: Config, w: World, t: Thread, ok: bool, p: Packet)
    requires RetryPhase(t, p) || t == Reregister(p)
    ensures HopeFalls(w, t, Advance(c, w, t, ok), p)
  {
  }

  lemma StatusHopes(c: Config, w: World, t: Thread, ok: bool, p: Packet)
    requires t == Acked(p.header) || t == Timeout(p.header) || t == Reporting(p.header)
    requires p.header in w.store ==> w.store[p.header].packet == p
    ensures HopeFalls(w, t, Advance(c, w, t, ok), p)
  {
  }

  lemma OwnHopes(c: Config, w: World, t: Thread, ok: bool, p: Packet)
    requires Authentic(w) && Carries(t, w.origin) && KeyOf(t) == p.header && Known(p, w.origin)
    ensures HopeFalls(w, t, Advance(c, w, t, ok), p)
  {
    hide Advance, HopeFalls;
    if t.Acked? || t.Timeout? || t.Reporting? {
      StatusHopes(c, w, t, ok, p);
    } else if RetryPhase(t, p) || t.Reregister? {
      RetryHopes(c, w, t, ok, p);
    } else {
      SenderHopes(c, w, t, ok, p);
    }
  }

  lemma RunHopes(c: Config, w: World, t: Thread, ok: bool, k: Header)
    requires Authentic(w) && t in w.threads && k in w.origin && OneHope(w, k)
    ensures OneHope(Step(c, w, Run(t, ok)), k)
  {
    hide Advance, Hopeful;
    var p, f := w.origin[k], Advance(c, w, t, ok);
    assert Carries(t, w.origin) && p.header == k;
    if KeyOf(t) == k {
      OwnHopes(c, w, t, ok, p);
    } else {
      OtherHopes(c, w, t, ok, p);
    }
    HopeLeaves(w.threads, t, p);
    HopeJoins(w.threads - multiset{t}, f.next, p);
    TimesLogged(w.log, f.obs, Success(k));
  }

  /** Thread `t` joins and `obs` is seen; `moved` says whether the entry goes. */
  lemma HopesJoined(w: World, w': World, t: Thread, obs: Option<Obs>, k: Header, moved: bool)
    requires k in w.origin && k in w'.origin && w'.origin[k] == w.origin[k] && OneHope(w, k)
    requires w'.threads == Joined(w.threads, Some(t)) && w'.log == Logged(w.log, obs)
    requires One(k in w.pending) == One(k in w'.pending) + One(moved)
    requires One(Hopes(t, w.origin[k])) + One(obs == Some(Success(k))) <= One(moved)
    ensures OneHope(w', k)
  {
    hide Hopeful, Times, Joined, Logged;
    HopeJoins(w.threads, Some(t), w.origin[k]);
    TimesLogged(w.log, obs, Success(k));
  }

  lemma StartHopes(c: Config, w: World, e: Event, k: Header)
    requires !e.Run? && Authentic(w) && k in w.origin && OneHope(w, k)
    ensures OneHope(Step(c, w, e), k)
  {
    hide OneHope;
    var w' := Step(c, w, e);
    assert w.origin[k].header == k;
    if w' != w {
      match e
      case Begin(q) => HopesJoined(w, w', Stored(q), None, k, false);
      case Ack(j) => HopesJoined(w, w', Acked(j), Some(Success(j)), k, j == k);
      case Expire(j) => HopesJoined(w, w', Timeout(j), None, k, j == k);
    }
  }

  lemma BeginHopes(c: Config, w: World, p: Packet)
    requires Rooted(w) && p.header !in w.origin
    ensures OneHope(Step(c, w, Begin(p)), p.header)
  {
    var k := p.header;
    assert KeyOf(Stored(p)) == KeyOf(Timeout(k)) == KeyOf(RetryAdd(p)) == KeyOf(Reregister(p)) == k;
    assert KeySeen(Success(k)) == k;
    HopeJoins(w.threads, Some(Stored(p)), p);
    NeverSeen(w.log, Success(k));
  }

  lemma HopeStep(c: Config, w: World, e: Event, k: Header)
    requires Authentic(w) && Rooted(w) && OneHope(w, k)
    ensures OneHope(Step(c, w, e), k)
  {
    hide Advance, Hopeful;
    if k !in w.origin {
      if e.Begin? && e.p.header == k {
        BeginHopes(c, w, e.p);
      }
    } else if !e.Run? {
      StartHopes(c, w, e, k);
    } else if e.t in w.threads {
      RunHopes(c, w, e.t, e.ok, k);
    }
  }

  lemma {:induction false} RunsKeepOneHope(c: Config, events: seq<Event>, k: Header)
    ensures OneHope(Exec(c, START, events), k)
  {
    if events != [] {
      hide Step, OneHope;
      var n := |events| - 1;
      RunsKeepOneHope(c, events[..n], k);
      RunsRooted(c, events[..n]);
      HopeStep(c, Exec(c, START, events[..n]), events[n], k);
    } else {
      assert START.log == [];
    }
  }

  /** No message is reported delivered twice, in any interleaving. */
  lemma SucceedsAtMostOnce(c: Config, events: seq<Event>, k: Header)
    ensures Times(Exec(c, START, events).log, Success(k)) <= 1
  {
    RunsKeepOneHope(c, events, k);
    RunsRooted(c, events);
    NeverSeen(Exec(c, START, events).log, Success(k));
    assert KeySeen(Success(k)) == k;
  }

  /** At rest a message was reported failed twice or more if, and only if, more of its cancellations
      missed than stakes of it were given up or came to a success, an entry still pending included. */
  lemma FailsTwiceIff(c: Config, events: seq<Event>, k: Header)
    requires Exec(c, START, events).threads == multiset{} && k in Exec(c, START, events).origin
    ensures var w := Exec(c, START, events);
            Times(w.log, Failure(k)) > 1 <==>
              Missed(c, events, k) > GivenUp(c, events, k) + One(k in w.pending) + One(Success(k) in w.log)
  {
    var w := Exec(c, START, events);
    ReportsBalance(c, events, k);
    OutcomesAreReports(w.log, k);
    SucceedsAtMostOnce(c, events, k);
    NeverSeen(w.log, Success(k));
  }

  /** The thread is between charging an attempt for `k` and the end of that retransmission. */
  predicate Retransmits(t: Thread, k: Header) {
    (t.RetryAdd? || t.RetrySend? || t.InRetry? || t.RetryFailed? || t.RetryOver?) && t.p.header == k
  }

  /** A TIMEOUT of the message is handled while a retransmission of it goes on. */
  ghost predicate Overlaps(w: World, e: Event, k: Header) {
    e.Run? && e.t == Timeout(k) && e.t in w.threads && exists t :: t in w.threads && Retransmits(t, k)
  }

  ghost predicate NeverOverlaps(c: Config, events: seq<Event>, k: Header) {
    forall i | 0 <= i < |events| :: !Overlaps(Exec(c, START, events[..i]), events[i], k)
  }

  lemma NeverOverlapsBefore(c: Config, events: seq<Event>, k: Header)
    requires events != [] && NeverOverlaps(c, events, k)
    ensures NeverOverlaps(c, events[..|events| - 1], k)
    ensures !Overlaps(Exec(c, START, events[..|events| - 1]), events[|events| - 1], k)
  {
    hide Overlaps, Exec;
    var n := |events| - 1;
    forall i | 0 <= i < n
      ensures !Overlaps(Exec(c, START, events[..n][..i]), events[..n][i], k)
    {
      assert events[..n][..i] == events[..i] && events[..n][i] == events[i];
      assert !Overlaps(Exec(c, START, events[..i]), events[i], k);
    }
  }

  /** The first phase of a message, from its storage to the return of its sender or its report. */
  predicate Opens(t: Thread, p: Packet) {
    t == Stored(p) || t == Sending(p) || t == InFirst(p) || t == Refused(p) || t == FirstFailed(p) || t == FirstOver(p)
  }

  ghost function Opening(threads: multiset<Thread>, p: Packet): nat {
    threads[Stored(p)] + threads[Sending(p)] + threads[InFirst(p)] + threads[Refused(p)] + threads[FirstFailed(p)]
    + threads[FirstOver(p)]
  }

  ghost function Resending(threads: multiset<Thread>, p: Packet): nat {
    threads[RetryAdd(p)] + threads[RetrySend(p)] + threads[InRetry(p)] + threads[RetryFailed(p)] + threads[RetryOver(p)]
  }

  /** Failure reports, made or about to be. */
  ghost function Reports(w: World, k: Header): nat {
    w.threads[Reporting(k)] + Times(w.log, Failure(k))
  }

  lemma PhasesLeave(threads: multiset<Thread>, t: Thread, p: Packet)
    requires t in threads
    ensures Opening(threads - multiset{t}, p) == Opening(threads, p) - One(Opens(t, p))
    ensures Resending(threads - multiset{t}, p) == Resending(threads, p) - One(RetryPhase(t, p))
    ensures (threads - multiset{t})[Reporting(p.header)] == threads[Reporting(p.header)] - One(t == Reporting(p.header))
  {
  }

  lemma PhasesJoin(threads: multiset<Thread>, next: Option<Thread>, p: Packet)
    ensures Opening(Joined(threads, next), p) == Opening(threads, p) + One(next.Some? && Opens(next.value, p))
    ensures Resending(Joined(threads, next), p) == Resending(threads, p) + One(next.Some? && RetryPhase(next.value, p))
    ensures Joined(threads, next)[Reporting(p.header)]
         == threads[Reporting(p.header)] + One(next == Some(Reporting(p.header)))
  {
    if next.Some? {
      var joined := threads + multiset{next.value};
      PhasesLeave(joined, next.value, p);
      assert joined - multiset{next.value} == threads;
    }
  }

  function NextOpens(f: Effect, p: Packet): nat {
    One(f.next.Some? && Opens(f.next.value, p))
  }

  function NextResends(f: Effect, p: Packet): nat {
    One(f.next.Some? && RetryPhase(f.next.value, p))
  }

  function NextReports(f: Effect, k: Header): nat {
    One(f.next == Some(Reporting(k))) + One(f.obs == Some(Failure(k)))
  }

  lemma PhasesApplied(w: World, t: Thread, f: Effect, p: Packet)
    requires t in w.threads
    ensures var w' := Applied(w, t, f);
            && Opening(w'.threads, p) + One(Opens(t, p)) == Opening(w.threads, p) + NextOpens(f, p)
            && Resending(w'.threads, p) + One(RetryPhase(t, p)) == Resending(w.threads, p) + NextResends(f, p)
            && Reports(w', p.header) + One(t == Reporting(p.header)) == Reports(w, p.header) + NextReports(f, p.header)
  {
    hide Opening, Resending, Joined;
    PhasesLeave(w.threads, t, p);
    PhasesJoin(w.threads - multiset{t}, f.next, p);
    TimesLogged(w.log, f.obs, Failure(p.header));
  }

  /** Before the first send has returned 0: no retransmission, all attempts left. */
  ghost predicate Young(c: Config, w: World, p: Packet) {
    && FirstReturn(p.header, true) !in w.log && MarkSent(p) !in w.threads
    && Resending(w.threads, p) == 0 && Opening(w.threads, p) + Reports(w, p.header) <= 1
    && (p.header in w.store ==>
          w.store[p.header].attemptsRemaining == c.maxRetries && !w.store[p.header].isSent)
  }

  /** After it: one retransmission or one failure report, and no report while stored. */
  ghost predicate Old(w: World, p: Packet) {
    && Opening(w.threads, p) == 0 && Resending(w.threads, p) + Reports(w, p.header) <= 1
    && (Reports(w, p.header) > 0 ==> p.header !in w.store)
  }

  /** The step adds to no count, and takes nothing in hand. */
  ghost predicate Idles(w: World, t: Thread, f: Effect, p: Packet) {
    && NextOpens(f, p) == 0 && NextResends(f, p) == 0 && NextReports(f, p.header) == One(t == Reporting(p.header))
    && f.next != Some(MarkSent(p)) && f.obs != Some(FirstReturn(p.header, true))
    && (p.header in f.store ==>
          p.header in w.store && f.store[p.header].attemptsRemaining == w.store[p.header].attemptsRemaining)
    && (p.header in f.store && t != MarkSent(p) ==> f.store[p.header] == w.store[p.header])
  }

  lemma OtherIdles(c: Config, w: World, t: Thread, ok: bool, p: Packet)
    requires Authentic(w) && t in w.threads && KeyOf(t) != p.header
    ensures Idles(w, t, Advance(c, w, t, ok), p)
  {
    hide Advance;
    OtherKeysOnly(c, w, t, ok, p.header);
    SameKey(c, w, t, ok);
  }

  lemma StatusIdles(c: Config, w: World, t: Thread, ok: bool, p: Packet)
    requires t == Acked(p.header) || t == Reporting(p.header) || t == Reregister(p) || t == MarkSent(p)
             || (t == Timeout(p.header) && p.header !in w.store)
    ensures Idles(w, t, Advance(c, w, t, ok), p)
  {
  }

  /** A TIMEOUT before the first send has returned 0. */
  lemma YoungTimeout(c: Config, w: World, ok: bool, p: Packet)
    requires Young(c, w, p) && c.maxRetries > 0
    ensures Idles(w, Timeout(p.header), Advance(c, w, Timeout(p.header), ok), p)
  {
  }

  lemma YoungIdles(c: Config, w: World, t: Thread, f: Effect, p: Packet)
    requires t in w.threads && Young(c, w, p) && Idles(w, t, f, p) && !Opens(t, p)
    ensures Young(c, Applied(w, t, f), p)
  {
    hide Opening, Resending, Reports, Joined, Logged;
    PhasesApplied(w, t, f, p);
    Members(w.threads, t, f.next, MarkSent(p));
    Seen(w.log, f.obs, FirstReturn(p.header, true));
    MarkAbsent(w, t, p);
  }

  lemma MarkAbsent(w: World, t: Thread, p: Packet)
    requires MarkSent(p) !in w.threads && t in w.threads
    ensures t != MarkSent(p)
  {
  }

  lemma OldIdles(w: World, t: Thread, f: Effect, p: Packet)
    requires t in w.threads && Old(w, p) && Idles(w, t, f, p) && !Opens(t, p)
    ensures Old(Applied(w, t, f), p)
  {
    hide Opening, Resending, Reports, Joined, Logged;
    PhasesApplied(w, t, f, p);
  }

  /** A step of the first phase goes on with it, reports, or ends it by a return of 0. */
  ghost predicate Opened(w: World, f: Effect, p: Packet) {
    && NextResends(f, p) == 0
    && (p.header in f.store ==> p.header in w.store && f.store[p.header] == w.store[p.header])
    && (if f.next == Some(MarkSent(p)) then NextOpens(f, p) == 0 && NextReports(f, p.header) == 0
        else f.obs != Some(FirstReturn(p.header, true)) && NextOpens(f, p) + NextReports(f, p.header) <= 1)
  }

  lemma OpenEffect(c: Config, w: World, t: Thread, ok: bool, p: Packet)
    requires Opens(t, p)
    ensures Opened(w, Advance(c, w, t, ok), p)
  {
  }

  lemma YoungOpens(c: Config, w: World, t: Thread, f: Effect, p: Packet)
    requires t in w.threads && Young(c, w, p) && Opens(t, p) && Opened(w, f, p)
    ensures Young(c, Applied(w, t, f), p) || Old(Applied(w, t, f), p)
  {
    hide Opening, Resending, Reports, Joined, Logged;
    PhasesApplied(w, t, f, p);
    OpenIsOne(w.threads, t, p);
    Members(w.threads, t, f.next, MarkSent(p));
    Seen(w.log, f.obs, FirstReturn(p.header, true));
  }

  lemma OpenIsOne(threads: multiset<Thread>, t: Thread, p: Packet)
    requires t in threads && Opens(t, p)
    ensures Opening(threads, p) > 0 && !RetryPhase(t, p)
  {
  }

  /** A step of a retransmission goes on with it, ends it, or reports; and erases what it reports. */
  ghost predicate Resent(w: World, f: Effect, p: Packet) {
    && NextOpens(f, p) == 0 && NextResends(f, p) + NextReports(f, p.header) <= 1
    && (p.header in f.store ==> p.header in w.store && NextReports(f, p.header) == 0)
  }

  lemma RetryEffect(c: Config, w: World, t: Thread, ok: bool, p: Packet)
    requires RetryPhase(t, p) || (t == Timeout(p.header) && p.header in w.store && w.store[p.header].packet == p)
    ensures Resent(w, Advance(c, w, t, ok), p)
  {
  }

  /** The thread is a retransmission's, or the first of one. */
  lemma OldResends(w: World, t: Thread, f: Effect, p: Packet)
    requires t in w.threads && Old(w, p) && Resent(w, f, p)
    requires RetryPhase(t, p) || (t == Timeout(p.header) && Resending(w.threads, p) == 0 && p.header in w.store)
    ensures Old(Applied(w, t, f), p)
  {
    hide Opening, Resending, Reports, Joined, Logged;
    PhasesApplied(w, t, f, p);
    if RetryPhase(t, p) {
      ResendIsOne(w.threads, t, p);
    }
  }

  lemma ResendIsOne(threads: multiset<Thread>, t: Thread, p: Packet)
    requires t in threads && RetryPhase(t, p)
    ensures Resending(threads, p) > 0
  {
  }

  lemma NoneResends(threads: multiset<Thread>, p: Packet)
    requires forall t | t in threads :: !Retransmits(t, p.header)
    ensures Resending(threads, p) == 0
  {
    forall t | RetryPhase(t, p)
      ensures t !in threads
    {
      assert Retransmits(t, p.header);
    }
  }

  lemma YoungHasNoRetry(c: Config, w: World, t: Thread, p: Packet)
    requires Young(c, w, p) && t in w.threads
    ensures !RetryPhase(t, p)
  {
    if RetryPhase(t, p) {
      ResendIsOne(w.threads, t, p);
    }
  }

  lemma YoungRun(c: Config, w: World, t: Thread, ok: bool, p: Packet)
    requires Authentic(w) && t in w.threads && c.maxRetries > 0 && Young(c, w, p) && Known(p, w.origin)
    ensures Young(c, Step(c, w, Run(t, ok)), p) || Old(Step(c, w, Run(t, ok)), p)
  {
    assert Carries(t, w.origin);
    YoungHasNoRetry(c, w, t, p);
    hide Advance, Opened, Idles, Young, Old;
    var f := Advance(c, w, t, ok);
    if KeyOf(t) != p.header {
      OtherIdles(c, w, t, ok, p);
      YoungIdles(c, w, t, f, p);
    } else if Opens(t, p) {
      OpenEffect(c, w, t, ok, p);
      YoungOpens(c, w, t, f, p);
    } else if t.Timeout? {
      YoungTimeout(c, w, ok, p);
      YoungIdles(c, w, t, f, p);
    } else {
      StatusIdles(c, w, t, ok, p);
      YoungIdles(c, w, t, f, p);
    }
  }

  lemma OldTimeout(c: Config, w: World, ok: bool, p: Packet)
    requires Authentic(w) && Old(w, p) && Known(p, w.origin) && p.header in w.store
    requires Timeout(p.header) in w.threads && !Overlaps(w, Run(Timeout(p.header), ok), p.header)
    ensures Old(Step(c, w, Run(Timeout(p.header), ok)), p)
  {
    hide Advance, Resent, Old, Resending;
    NoneResends(w.threads, p);
    RetryEffect(c, w, Timeout(p.header), ok, p);
    OldResends(w, Timeout(p.header), Advance(c, w, Timeout(p.header), ok), p);
  }

  lemma OldRetry(c: Config, w: World, t: Thread, ok: bool, p: Packet)
    requires Old(w, p) && t in w.threads && RetryPhase(t, p)
    ensures Old(Step(c, w, Run(t, ok)), p)
  {
    hide Advance, Resent, Old, Resending;
    RetryEffect(c, w, t, ok, p);
    OldResends(w, t, Advance(c, w, t, ok), p);
  }

  lemma OldRest(c: Config, w: World, t: Thread, ok: bool, p: Packet)
    requires Authentic(w) && Old(w, p) && t in w.threads && !Opens(t, p) && !RetryPhase(t, p)
    requires Carries(t, w.origin) && Known(p, w.origin)
    requires KeyOf(t) == p.header && t.Timeout? ==> p.header !in w.store
    ensures Old(Step(c, w, Run(t, ok)), p)
  {
    hide Advance, Idles, Old;
    if KeyOf(t) != p.header {
      OtherIdles(c, w, t, ok, p);
    } else {
      StatusIdles(c, w, t, ok, p);
    }
    OldIdles(w, t, Advance(c, w, t, ok), p);
  }

  lemma OldRun(c: Config, w: World, t: Thread, ok: bool, p: Packet)
    requires Authentic(w) && t in w.threads && Old(w, p) && Known(p, w.origin) && !Overlaps(w, Run(t, ok), p.header)
    ensures Old(Step(c, w, Run(t, ok)), p)
  {
    assert Carries(t, w.origin);
    NotOpenAnyMore(w, t, p);
    hide Step, Old, Overlaps;
    if RetryPhase(t, p) {
      OldRetry(c, w, t, ok, p);
    } else if t == Timeout(p.header) && p.header in w.store {
      OldTimeout(c, w, ok, p);
    } else {
      OldRest(c, w, t, ok, p);
    }
  }

  lemma NotOpenAnyMore(w: World, t: Thread, p: Packet)
    requires Old(w, p) && t in w.threads
    ensures !Opens(t, p)
  {
    if Opens(t, p) {
      OpenIsOne(w.threads, t, p);
    }
  }

  ghost predicate Aged(c: Config, w: World, k: Header) {
    k in w.origin ==> Young(c, w, w.origin[k]) || Old(w, w.origin[k])
  }

  lemma RunAges(c: Config, w: World, t: Thread, ok: bool, k: Header)
    requires Authentic(w) && t in w.threads && c.maxRetries > 0 && k in w.origin && Aged(c, w, k)
    requires !Overlaps(w, Run(t, ok), k)
    ensures Aged(c, Step(c, w, Run(t, ok)), k)
  {
    hide Advance, Young, Old, Overlaps;
    var p := w.origin[k];
    assert p.header == k;
    if Young(c, w, p) {
      YoungRun(c, w, t, ok, p);
    } else {
      OldRun(c, w, t, ok, p);
    }
  }

  /** A thread joins that is in no phase of `p`. */
  lemma JoinedAges(c: Config, w: World, w': World, t: Thread, obs: Option<Obs>, p: Packet)
    requires Young(c, w, p) || Old(w, p)
    requires w'.threads == Joined(w.threads, Some(t)) && w'.log == Logged(w.log, obs)
    requires !Opens(t, p) && !RetryPhase(t, p) && !t.Reporting? && !t.MarkSent? && (obs.Some? ==> obs.value.Success?)
    requires p.header in w'.store ==> p.header in w.store && w'.store[p.header] == w.store[p.header]
    ensures Young(c, w', p) || Old(w', p)
  {
    hide Opening, Resending, Logged;
    PhasesJoin(w.threads, Some(t), p);
    TimesLogged(w.log, obs, Failure(p.header));
    Seen(w.log, obs, FirstReturn(p.header, true));
  }

  lemma StartAges(c: Config, w: World, e: Event, k: Header)
    requires !e.Run? && Authentic(w) && k in w.origin && Aged(c, w, k)
    ensures Aged(c, Step(c, w, e), k)
  {
    hide Young, Old;
    var p, w' := w.origin[k], Step(c, w, e);
    assert p.header == k;
    if w' != w {
      match e
      case Begin(q) => JoinedAges(c, w, w', Stored(q), None, p);
      case Ack(j) => JoinedAges(c, w, w', Acked(j), Some(Success(j)), p);
      case Expire(j) => JoinedAges(c, w, w', Timeout(j), None, p);
    }
  }

  lemma BeginAges(c: Config, w: World, p: Packet)
    requires Rooted(w) && p.header !in w.origin
    ensures Young(c, Step(c, w, Begin(p)), p)
  {
    var k, w' := p.header, Step(c, w, Begin(p));
    assert KeySeen(FirstReturn(k, true)) == KeySeen(Failure(k)) == k;
    assert KeyOf(MarkSent(p)) == KeyOf(Reporting(k)) == k;
    NeverSeen(w.log, Failure(k));
    NoPhase(w.threads, p);
    PhasesJoin(w.threads, Some(Stored(p)), p);
    assert MarkSent(p) !in w'.threads;
  }

  lemma NoPhase(threads: multiset<Thread>, p: Packet)
    requires forall t | t in threads :: KeyOf(t) != p.header
    ensures Opening(threads, p) == 0 && Resending(threads, p) == 0
  {
    forall t | Opens(t, p) || RetryPhase(t, p)
      ensures t !in threads
    {
      assert KeyOf(t) == p.header;
    }
  }

  lemma AgedStep(c: Config, w: World, e: Event, k: Header)
    requires Authentic(w) && Rooted(w) && c.maxRetries > 0 && Aged(c, w, k) && !Overlaps(w, e, k)
    ensures Aged(c, Step(c, w, e), k)
  {
    hide Advance, Young, Old, Overlaps;
    if k !in w.origin {
      if e.Begin? && e.p.header == k {
        BeginAges(c, w, e.p);
      }
    } else if !e.Run? {
      StartAges(c, w, e, k);
    } else if e.t in w.threads {
      RunAges(c, w, e.t, e.ok, k);
    }
  }

  lemma {:induction false} RunsAge(c: Config, events: seq<Event>, k: Header)
    requires c.maxRetries > 0 && NeverOverlaps(c, events, k)
    ensures Aged(c, Exec(c, START, events), k)
  {
    if events != [] {
      hide Step, Aged, Overlaps, NeverOverlaps;
      var n := |events| - 1;
      NeverOverlapsBefore(c, events, k);
      RunsAge(c, events[..n], k);
      RunsRooted(c, events[..n]);
      AgedStep(c, Exec(c, START, events[..n]), events[n], k);
    }
  }

  /** No message is reported failed twice, if there are retries and no TIMEOUT of it is handled during
      a retransmission of it. */
  lemma FailsAtMostOnce(c: Config, events: seq<Event>, k: Header)
    requires c.maxRetries > 0 && NeverOverlaps(c, events, k)
    ensures Times(Exec(c, START, events).log, Failure(k)) <= 1
  {
    RunsAge(c, events, k);
    RunsRooted(c, events);
    var w := Exec(c, START, events);
    NeverSeen(w.log, Failure(k));
    assert KeySeen(Failure(k)) == k;
  }

  /** Without retries nothing is ever retransmitted. */
  ghost predicate NoRetries(w: World) {
    && (forall t | t in w.threads :: !Retransmits(t, KeyOf(t)))
    && (forall k | k in w.store :: w.store[k].attemptsRemaining <= 0)
  }

  lemma NoRetriesEffect(c: Config, w: World, t: Thread, ok: bool)
    requires NoRetries(w) && t in w.threads
    ensures var f := Advance(c, w, t, ok);
            && (f.next.Some? ==> !Retransmits(f.next.value, KeyOf(f.next.value)))
            && (forall k | k in f.store :: f.store[k].attemptsRemaining <= 0)
  {
  }

  lemma NoRetriesRun(c: Config, w: World, t: Thread, ok: bool)
    requires NoRetries(w) && t in w.threads
    ensures NoRetries(Step(c, w, Run(t, ok)))
  {
    hide Advance, Retransmits, Joined;
    var f, w' := Advance(c, w, t, ok), Step(c, w, Run(t, ok));
    NoRetriesEffect(c, w, t, ok);
    forall u | u in w'.threads
      ensures !Retransmits(u, KeyOf(u))
    {
      Members(w.threads, t, f.next, u);
    }
  }

  lemma NoRetriesStep(c: Config, w: World, e: Event)
    requires c.maxRetries <= 0 && NoRetries(w)
    ensures NoRetries(Step(c, w, e))
  {
    hide Advance;
    if e.Run? && e.t in w.threads {
      NoRetriesRun(c, w, e.t, e.ok);
    }
  }

  lemma {:induction false} RunsWithoutRetries(c: Config, events: seq<Event>)
    requires c.maxRetries <= 0
    ensures NoRetries(Exec(c, START, events))
  {
    if events != [] {
      hide Step, NoRetries;
      RunsWithoutRetries(c, events[..|events| - 1]);
      NoRetriesStep(c, Exec(c, START, events[..|events| - 1]), events[|events| - 1]);
    }
  }

  lemma NeverOverlapsWithoutRetries(c: Config, events: seq<Event>, k: Header)
    requires c.maxRetries <= 0
    ensures NeverOverlaps(c, events, k)
  {
    forall i | 0 <= i < |events|
      ensures !Overlaps(Exec(c, START, events[..i]), events[i], k)
    {
      RunsWithoutRetries(c, events[..i]);
      NoOverlap(Exec(c, START, events[..i]), events[i], k);
    }
  }

  lemma NoOverlap(w: World, e: Event, k: Header)
    requires NoRetries(w)
    ensures !Overlaps(w, e, k)
  {
    forall t | t in w.threads
      ensures !Retransmits(t, k)
    {
      assert !Retransmits(t, KeyOf(t));
    }
  }
}
