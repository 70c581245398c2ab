/**
 * Runs of the interleaved sender that show where its laws end: a message reported both delivered
 * and failed, two that are reported failed twice, and one stranded; with the conditions a caller can
 * see under which, and only under which, none of this can happen.
 */
module RetryRuns {
  import opened Common
  import opened MapFacts
  import opened SenderSpec
  import opened RetryInterleaving
  import opened RetryOutcomes
  import opened RetryReports
  import opened RetryStranding

  ghost predicate Reaches(c: Config, events: seq<Event>, w: World) {
    Exec(c, START, events) == w
  }

  lemma Then(c: Config, events: seq<Event>, w: World, e: Event, w': World) returns (events': seq<Event>)
    requires Reaches(c, events, w) && Step(c, w, e) == w'
    ensures Reaches(c, events', w')
  {
    events' := events + [e];
    assert events'[..|events|] == events;
  }

  /** Run one thread of a sender. */
  lemma ThreadThen(c: Config, events: seq<Event>, w: World, rest: multiset<Thread>, t: Thread, ok: bool, f: Effect)
    returns (events': seq<Event>)
    requires Reaches(c, events, w) && w.threads == rest + multiset{t} && Advance(c, w, t, ok) == f
    ensures Reaches(c, events', World(f.store, f.pending, Joined(rest, f.next), w.origin, Logged(w.log, f.obs)))
  {
    hide Advance, Reaches;
    assert rest + multiset{t} - multiset{t} == rest;
    events' := Then(c, events, w, Run(t, ok),
                    World(f.store, f.pending, Joined(rest, f.next), w.origin, Logged(w.log, f.obs)));
  }

  type Store = map<Header, RetryEntry>

  const NONE: Store := map[]

  function Holding(p: Packet, attempts: int, isSent: bool): Store {
    map[p.header := RetryEntry(p, attempts, isSent)]
  }

  /** A sender that was given the one message `p`. */
  function Solo(p: Packet, store: Store, pending: bool, threads: multiset<Thread>, log: seq<Obs>): World {
    World(store, if pending then {p.header} else {}, threads, map[p.header := p], log)
  }

  function With(rest: multiset<Thread>, t: Thread): multiset<Thread> {
    rest + multiset{t}
  }

  /** Its thread `t`, with others at rest, does one step. */
  lemma SoloThen(c: Config, events: seq<Event>, p: Packet, store: Store, pending: bool, rest: multiset<Thread>,
                 t: Thread,
                 log: seq<Obs>, ok: bool, store': Store, pending': bool, next: Option<Thread>, obs: Option<Obs>)
    returns (events': seq<Event>)
    requires Reaches(c, events, Solo(p, store, pending, With(rest, t), log))
    requires Advance(c, Solo(p, store, pending, With(rest, t), log), t, ok)
          == Effect(next, store', if pending' then {p.header} else {}, obs)
    ensures Reaches(c, events', Solo(p, store', pending', Joined(rest, next), Logged(log, obs)))
  {
    hide Advance, Reaches;
    events' := ThreadThen(c, events, Solo(p, store, pending, With(rest, t), log), rest, t, ok,
                          Effect(next, store', if pending' then {p.header} else {}, obs));
  }

  lemma NothingYet(c: Config)
    ensures Reaches(c, [], START)
  {
  }

  const IDLE: multiset<Thread> := multiset{}

  lemma FirstSendRuns(c: Config, p: Packet) returns (events: seq<Event>)
    requires c.cap > 0
    ensures Reaches(c, events, Solo(p, Holding(p, c.maxRetries, false), true, With(IDLE, InFirst(p)), [FirstBegin(p)]))
  {
    hide Reaches;
    var e := Holding(p, c.maxRetries, false);
    NothingYet(c);
    events := Then(c, [], START, Begin(p), Solo(p, e, false, With(IDLE, Stored(p)), []));
    events := SoloThen(c, events, p, e, false, IDLE, Stored(p), [], true, e, true, Some(Sending(p)), None);
    events := SoloThen(c, events, p, e, true, IDLE, Sending(p), [], true, e, true, Some(InFirst(p)),
                       Some(FirstBegin(p)));
    assert [] + [FirstBegin(p)] == [FirstBegin(p)];
  }

  /** The first send has returned 0 and its thread is done. */
  lemma FirstSendEnds(c: Config, p: Packet) returns (events: seq<Event>, log: seq<Obs>)
    requires c.cap > 0
    ensures Reaches(c, events, Solo(p, Holding(p, c.maxRetries, true), true, IDLE, log)) && Outcomes(log, p.header) == 0
  {
    hide Reaches;
    var k, e, e' := p.header, Holding(p, c.maxRetries, false), Holding(p, c.maxRetries, true);
    log := [FirstBegin(p)];
    events := FirstSendRuns(c, p);
    events := SoloThen(c, events, p, e, true, IDLE, InFirst(p), log, true, e, true, Some(MarkSent(p)),
                       Some(FirstReturn(k, true)));
    log := log + [FirstReturn(k, true)];
    OutcomesSeen(log, k);
    assert e[k := e[k].(isSent := true)] == e';
    events := SoloThen(c, events, p, e, true, IDLE, MarkSent(p), log, true, e', true, None, None);
  }

  lemma TimeoutComes(c: Config, events: seq<Event>, p: Packet, e: Store, rest: multiset<Thread>, log: seq<Obs>)
    returns (events': seq<Event>)
    requires Reaches(c, events, Solo(p, e, true, rest, log))
    ensures Reaches(c, events', Solo(p, e, false, With(rest, Timeout(p.header)), log))
  {
    hide Reaches;
    assert {p.header} - {p.header} == {};
    events' := Then(c, events, Solo(p, e, true, rest, log), Expire(p.header),
                    Solo(p, e, false, With(rest, Timeout(p.header)), log));
  }

  /** The message expires, is charged and is registered again. */
  lemma RetryStarts(c: Config, events: seq<Event>, p: Packet, attempts: int, rest: multiset<Thread>, log: seq<Obs>)
    returns (events': seq<Event>)
    requires c.cap > 0 && attempts > 0 && Reaches(c, events, Solo(p, Holding(p, attempts, true), true, rest, log))
    ensures Reaches(c, events', Solo(p, Holding(p, attempts - 1, true), true, With(rest, RetrySend(p)), log))
  {
    hide Reaches;
    var k, e, e' := p.header, Holding(p, attempts, true), Holding(p, attempts - 1, true);
    events' := TimeoutComes(c, events, p, e, rest, log);
    assert e[k := e[k].(attemptsRemaining := e[k].attemptsRemaining - 1)] == e';
    events' := SoloThen(c, events', p, e, false, rest, Timeout(k), log, true, e', false, Some(RetryAdd(p)), None);
    assert {} + {k} == {k};
    events' := SoloThen(c, events', p, e', false, rest, RetryAdd(p), log, true, e', true, Some(RetrySend(p)), None);
  }

  /** Its retransmission is on its way. */
  lemma RetryRuns(c: Config, events: seq<Event>, p: Packet, attempts: int, rest: multiset<Thread>, log: seq<Obs>)
    returns (events': seq<Event>)
    requires c.cap > 0 && attempts > 0 && Reaches(c, events, Solo(p, Holding(p, attempts, true), true, rest, log))
    ensures Reaches(c, events', Solo(p, Holding(p, attempts - 1, true), true, With(rest, InRetry(p)),
                                     log + [RetryBegin(p)]))
  {
    hide Reaches;
    var e := Holding(p, attempts - 1, true);
    events' := RetryStarts(c, events, p, attempts, rest, log);
    events' := SoloThen(c, events', p, e, true, rest, RetrySend(p), log, true, e, true, Some(InRetry(p)),
                        Some(RetryBegin(p)));
  }

  /** The retransmission fails, and is cancelled, whether or not there is something to cancel. */
  lemma RetryCancels(c: Config, events: seq<Event>, p: Packet, e: Store, pending: bool, rest: multiset<Thread>,
                     log: seq<Obs>)
    returns (events': seq<Event>)
    requires Reaches(c, events, Solo(p, e, pending, With(rest, InRetry(p)), log))
    ensures Reaches(c, events', Solo(p, e, false, With(rest, RetryOver(p)), log))
  {
    hide Reaches;
    events' := SoloThen(c, events, p, e, pending, rest, InRetry(p), log, false, e, pending, Some(RetryFailed(p)), None);
    assert (if pending then {p.header} else {}) - {p.header} == {};
    events' := SoloThen(c, events', p, e, pending, rest, RetryFailed(p), log, true, e, false, Some(RetryOver(p)), None);
  }

  lemma RetryErases(c: Config, events: seq<Event>, p: Packet, e: Store, rest: multiset<Thread>, log: seq<Obs>)
    returns (events': seq<Event>)
    requires Reaches(c, events, Solo(p, e, false, With(rest, RetryOver(p)), log)) && e.Keys <= {p.header}
    ensures Reaches(c, events', Solo(p, NONE, false, With(rest, Reporting(p.header)), log))
  {
    hide Reaches;
    assert e - {p.header} == NONE;
    events' := SoloThen(c, events, p, e, false, rest, RetryOver(p), log, true, NONE, false, Some(Reporting(p.header)),
                        None);
  }

  lemma RetryFails(c: Config, events: seq<Event>, p: Packet, e: Store, pending: bool, rest: multiset<Thread>,
                   log: seq<Obs>)
    returns (events': seq<Event>)
    requires Reaches(c, events, Solo(p, e, pending, With(rest, InRetry(p)), log)) && e.Keys <= {p.header}
    ensures Reaches(c, events', Solo(p, NONE, false, rest, log + [Failure(p.header)]))
  {
    hide Reaches;
    var k := p.header;
    events' := RetryCancels(c, events, p, e, pending, rest, log);
    events' := RetryErases(c, events', p, e, rest, log);
    events' := SoloThen(c, events', p, NONE, false, rest, Reporting(k), log, true, NONE, false, None, Some(Failure(k)));
  }

  lemma AckArrives(c: Config, events: seq<Event>, p: Packet, attempts: int, rest: multiset<Thread>, log: seq<Obs>)
    returns (events': seq<Event>)
    requires Reaches(c, events, Solo(p, Holding(p, attempts, true), true, rest, log))
    ensures Reaches(c, events', Solo(p, NONE, false, rest, log + [Success(p.header)]))
  {
    hide Reaches;
    var k, e, log' := p.header, Holding(p, attempts, true), log + [Success(p.header)];
    assert {k} - {k} == {};
    events' := Then(c, events, Solo(p, e, true, rest, log), Ack(k), Solo(p, e, false, With(rest, Acked(k)), log'));
    assert e - {k} == NONE;
    events' := SoloThen(c, events', p, e, false, rest, Acked(k), log', true, NONE, false, None, None);
  }

  lemma AckedThenFailed(c: Config, p: Packet) returns (events: seq<Event>, log: seq<Obs>)
    requires c.cap > 0 && c.maxRetries > 0
    ensures Reaches(c, events, Solo(p, NONE, false, IDLE, log + [Success(p.header)] + [Failure(p.header)]))
  {
    hide Reaches;
    events, log := FirstSendEnds(c, p);
    events := RetryRuns(c, events, p, c.maxRetries, IDLE, log);
    log := log + [RetryBegin(p)];
    events := AckArrives(c, events, p, c.maxRetries - 1, With(IDLE, InRetry(p)), log);
    events := RetryFails(c, events, p, NONE, false, IDLE, log + [Success(p.header)]);
  }

  /** Interleaved, a message can end twice: an ACK that lands while a retransmission is inside
      `Send` reports SUCCESS, and the failure of that `Send` then reports the message failed. */
  lemma LateAckReportsBoth(c: Config, p: Packet) returns (events: seq<Event>)
    requires c.cap > 0 && c.maxRetries > 0
    ensures var w := Exec(c, START, events);
            w.threads == multiset{} && Success(p.header) in w.log && Failure(p.header) in w.log
  {
    var log;
    events, log := AckedThenFailed(c, p);
  }

  lemma Counted(log: seq<Obs>, o: Obs, k: Header)
    ensures Outcomes(log + [o], k) == Outcomes(log, k) + One(IsOutcome(o, k))
  {
    assert (log + [o])[..|log|] == log;
  }

  lemma TwoRetriesRun(c: Config, p: Packet) returns (events: seq<Event>, log: seq<Obs>)
    requires c.cap > 0 && c.maxRetries > 1
    ensures Reaches(c, events, Solo(p, Holding(p, c.maxRetries - 2, true), true,
                                    With(With(IDLE, InRetry(p)), InRetry(p)), log))
    ensures Outcomes(log, p.header) == 0
  {
    hide Reaches;
    events, log := FirstSendEnds(c, p);
    events := RetryRuns(c, events, p, c.maxRetries, IDLE, log);
    Counted(log, RetryBegin(p), p.header);
    log := log + [RetryBegin(p)];
    events := RetryRuns(c, events, p, c.maxRetries - 1, With(IDLE, InRetry(p)), log);
    Counted(log, RetryBegin(p), p.header);
    log := log + [RetryBegin(p)];
  }

  /** Nor is one failure report certain: two retransmissions of a message can be inside `Send` at
      once, and when both fail both report it. This takes two callers of `Process` at the same time,
      although they share the batch array: by `FailsAtMostOnce` a TIMEOUT of the message must be
      handled during a retransmission of it, and one caller does one after the other. */
  lemma OverlappingRetriesReportTwice(c: Config, p: Packet) returns (events: seq<Event>)
    requires c.cap > 0 && c.maxRetries > 1
    ensures var w := Exec(c, START, events);
            && w.threads == multiset{} && Success(p.header) !in w.log && Outcomes(w.log, p.header) == 2
  {
    var k, log := p.header, [];
    events, log := TwoRetriesRun(c, p);
    OutcomesSeen(log, k);
    var log1 := log + [Failure(k)];
    Counted(log, Failure(k), k);
    Counted(log1, Failure(k), k);
    events := RetryFails(c, events, p, Holding(p, c.maxRetries - 2, true), true, With(IDLE, InRetry(p)), log);
    events := RetryFails(c, events, p, NONE, false, IDLE, log1);
  }

  /** Without retries, the message expires inside its first send and is reported. */
  lemma ExhaustedInFirst(c: Config, p: Packet) returns (events: seq<Event>, log: seq<Obs>)
    requires c.cap > 0 && c.maxRetries <= 0
    ensures Reaches(c, events, Solo(p, NONE, false, With(IDLE, InFirst(p)), log))
            && log == [FirstBegin(p), Failure(p.header)]
  {
    hide Reaches;
    var k, e, sending := p.header, Holding(p, c.maxRetries, false), With(IDLE, InFirst(p));
    log := [FirstBegin(p)];
    events := FirstSendRuns(c, p);
    events := TimeoutComes(c, events, p, e, sending, log);
    assert e - {k} == NONE;
    events := SoloThen(c, events, p, e, false, sending, Timeout(k), log, true, NONE, false, Some(Reporting(k)), None);
    events := SoloThen(c, events, p, NONE, false, sending, Reporting(k), log, true, NONE, false, None,
                       Some(Failure(k)));
    log := log + [Failure(k)];
  }

  /** Then that send fails, its `Cancel` misses, and the sender reports it again. */
  lemma FirstSendFails(c: Config, events: seq<Event>, p: Packet, log: seq<Obs>) returns (events': seq<Event>)
    requires Reaches(c, events, Solo(p, NONE, false, With(IDLE, InFirst(p)), log))
    ensures Reaches(c, events', Solo(p, NONE, false, With(IDLE, Reporting(p.header)),
                                     log + [FirstReturn(p.header, false)]))
  {
    hide Reaches;
    var k, log' := p.header, log + [FirstReturn(p.header, false)];
    events' := SoloThen(c, events, p, NONE, false, IDLE, InFirst(p), log, false, NONE, false, Some(FirstFailed(p)),
                        Some(FirstReturn(k, false)));
    assert {} - {k} == {} && NONE - {k} == NONE;
    events' := SoloThen(c, events', p, NONE, false, IDLE, FirstFailed(p), log', true, NONE, false, Some(FirstOver(p)),
                        None);
    events' := SoloThen(c, events', p, NONE, false, IDLE, FirstOver(p), log', true, NONE, false, Some(Reporting(k)),
                        None);
  }

  lemma FailedTwiceInFirst(c: Config, p: Packet) returns (events: seq<Event>)
    requires c.cap > 0 && c.maxRetries <= 0
    ensures Reaches(c, events, Solo(p, NONE, false, IDLE,
                                    [FirstBegin(p), Failure(p.header), FirstReturn(p.header, false),
                                     Failure(p.header)]))
  {
    hide Reaches;
    var k, log := p.header, [];
    events, log := ExhaustedInFirst(c, p);
    events := FirstSendFails(c, events, p, log);
    log := log + [FirstReturn(k, false)];
    events := SoloThen(c, events, p, NONE, false, IDLE, Reporting(k), log, true, NONE, false, None, Some(Failure(k)));
    assert log + [Failure(k)] == [FirstBegin(p), Failure(k), FirstReturn(k, false), Failure(k)];
  }

  /** Without retries one caller of `Process` is enough for two failure reports: the message expires
      inside its first send, is erased and reported, and then the send fails and reports it again. */
  lemma ExpiryInFirstSendReportsTwice(c: Config, p: Packet) returns (events: seq<Event>)
    requires c.cap > 0 && c.maxRetries <= 0
    ensures var w := Exec(c, START, events);
            w.threads == multiset{} && Success(p.header) !in w.log && Times(w.log, Failure(p.header)) == 2
    ensures NeverOverlaps(c, events, p.header)
  {
    events := FailedTwiceInFirst(c, p);
    FourLogged(p);
    NeverOverlapsWithoutRetries(c, events, p.header);
  }

  lemma FourLogged(p: Packet)
    ensures Times([FirstBegin(p), Failure(p.header), FirstReturn(p.header, false), Failure(p.header)],
                  Failure(p.header)) == 2
  {
    var k := p.header;
    var log1 := [FirstBegin(p)];
    TimesLogged([], Some(FirstBegin(p)), Failure(k));
    TimesLogged(log1, Some(Failure(k)), Failure(k));
    TimesLogged(log1 + [Failure(k)], Some(FirstReturn(k, false)), Failure(k));
    TimesLogged(log1 + [Failure(k)] + [FirstReturn(k, false)], Some(Failure(k)), Failure(k));
    assert [] + [FirstBegin(p)] == log1;
    assert log1 + [Failure(k)] + [FirstReturn(k, false)] + [Failure(k)]
        == [FirstBegin(p), Failure(k), FirstReturn(k, false), Failure(k)];
  }

  /** When no TIMEOUT of a message is handled during a retransmission of it, which one caller of
      `Process` ensures, no message is reported failed twice in any run if, and only if, there are
      retries. */
  lemma FailsAtMostOnceIffRetries(c: Config)
    requires c.cap > 0
    ensures (forall events, k | NeverOverlaps(c, events, k) :: Times(Exec(c, START, events).log, Failure(k)) <= 1)
       <==> c.maxRetries > 0
  {
    if c.maxRetries > 0 {
      forall events, k | NeverOverlaps(c, events, k)
        ensures Times(Exec(c, START, events).log, Failure(k)) <= 1
      {
        FailsAtMostOnce(c, events, k);
      }
    } else {
      var p := Packet(Header(1, 0), []);
      var events := ExpiryInFirstSendReportsTwice(c, p);
      assert NeverOverlaps(c, events, p.header) && Times(Exec(c, START, events).log, Failure(p.header)) > 1;
    }
  }

  /** No physical send of the run fails. */
  ghost predicate AllSendsSucceed(events: seq<Event>) {
    forall e | e in events && e.Run? :: e.ok
  }

  lemma SomeMessageReportedTwice(c: Config) returns (events: seq<Event>, k: Header)
    requires c.cap > 0
    ensures Outcomes(Exec(c, START, events).log, k) > 1
  {
    var p := Packet(Header(1, 0), []);
    k := p.header;
    if c.maxRetries > 0 {
      events := LateAckReportsBoth(c, p);
      OutcomesSeen(Exec(c, START, events).log, k);
    } else {
      events := ExpiryInFirstSendReportsTwice(c, p);
      OutcomesAreReports(Exec(c, START, events).log, k);
    }
  }

  /** What a caller can check: every message is reported at most once in all runs, whatever the number
      of retries, if, and only if, physical sends do not fail. */
  lemma ReportedAtMostOnceIffSendsSucceed(c: Config, mayFail: bool)
    requires c.cap > 0
    ensures (forall events, k | mayFail || AllSendsSucceed(events) :: Outcomes(Exec(c, START, events).log, k) <= 1)
       <==> !mayFail
  {
    if mayFail {
      var events, k := SomeMessageReportedTwice(c);
      assert Outcomes(Exec(c, START, events).log, k) > 1;
    } else {
      forall events, k | mayFail || AllSendsSucceed(events)
        ensures Outcomes(Exec(c, START, events).log, k) <= 1
      {
        SuccessfulSendsNeverMiss(c, events, k);
        ReportedOnceWhileNoneMissed(c, events, k);
      }
    }
  }

  /** Data messages have an id other than 0, which marks ACKs; `Data(n)` is the n-th of them. */
  const DATA_KEYS: nat := 0xFFFF_0000

  function Data(n: nat): Header
    requires n < DATA_KEYS
  {
    Header(1 + n / 0x1_0000, n % 0x1_0000)
  }

  function Rank(k: Header): int {
    (k.id - 1) * 0x1_0000 + k.seqNum
  }

  /** The n-th data message other than `k`. */
  function Other(k: Header, n: nat): Header
    requires n + 1 < DATA_KEYS
  {
    if n < Rank(k) then Data(n) else Data(n + 1)
  }

  lemma OthersDiffer(k: Header, n: nat)
    requires n + 1 < DATA_KEYS
    ensures Other(k, n) != k && Other(k, n).id != 0
    ensures forall m: nat | m < n :: Other(k, m) != Other(k, n)
  {
    assert forall i: nat | i < DATA_KEYS :: Rank(Data(i)) == i;
  }

  /** `p` expired during its first send and is about to be re-registered, while `n` other messages
      are pending and nothing else goes on. */
  ghost predicate Crowded(w: World, p: Packet, n: nat) {
    && n < DATA_KEYS
    && p.header in w.store && !w.store[p.header].isSent && p.header !in w.pending
    && |w.pending| == n && |w.origin| == n + 1 && p.header in w.origin
    && (forall k | k in w.origin :: k == p.header || exists i: nat :: i < n && k == Other(p.header, i))
    && w.threads == With(With(IDLE, InFirst(p)), Reregister(p))
  }

  lemma ExpiresDuringFirst(c: Config, p: Packet) returns (events: seq<Event>)
    requires c.cap > 0 && c.maxRetries > 0
    ensures Reaches(c, events, Solo(p, Holding(p, c.maxRetries, false), false,
                                    With(With(IDLE, InFirst(p)), Reregister(p)),
                                    [FirstBegin(p)]))
  {
    hide Reaches;
    var e, log, sending := Holding(p, c.maxRetries, false), [FirstBegin(p)], With(IDLE, InFirst(p));
    events := FirstSendRuns(c, p);
    events := TimeoutComes(c, events, p, e, sending, log);
    events := SoloThen(c, events, p, e, false, sending, Timeout(p.header), log, true, e, false, Some(Reregister(p)),
                       None);
  }

  lemma ExpiredDuringFirst(c: Config, p: Packet) returns (events: seq<Event>)
    requires c.cap > 0 && c.maxRetries > 0
    ensures Crowded(Exec(c, START, events), p, 0)
  {
    events := ExpiresDuringFirst(c, p);
  }

  /** The world after another message `q` has been sent, its sender having returned. */
  function WithSent(c: Config, w: World, q: Packet): World {
    World(w.store[q.header := RetryEntry(q, c.maxRetries, true)], w.pending + {q.header}, w.threads,
          w.origin[q.header := q], w.log + [FirstBegin(q)] + [FirstReturn(q.header, true)])
  }

  lemma OtherAdded(c: Config, events: seq<Event>, w: World, q: Packet) returns (events': seq<Event>)
    requires Reaches(c, events, w) && q.header !in w.origin && q.header !in w.pending && |w.pending| < c.cap
    ensures Reaches(c, events', World(w.store[q.header := RetryEntry(q, c.maxRetries, false)], w.pending + {q.header},
                                      With(w.threads, Sending(q)), w.origin[q.header := q], w.log))
  {
    hide Reaches;
    var e, o := w.store[q.header := RetryEntry(q, c.maxRetries, false)], w.origin[q.header := q];
    var w1 := World(e, w.pending, With(w.threads, Stored(q)), o, w.log);
    events' := Then(c, events, w, Begin(q), w1);
    events' := ThreadThen(c, events', w1, w.threads, Stored(q), true,
                          Effect(Some(Sending(q)), e, w.pending + {q.header}, None));
  }

  /** The sender of `q` does the rest: its send returns 0 and it sets `isSent`. */
  lemma SenderFinishes(c: Config, events: seq<Event>, w: World, rest: multiset<Thread>, q: Packet)
    returns (events': seq<Event>)
    requires Reaches(c, events, w) && w.threads == With(rest, InFirst(q)) && q.header in w.store
    ensures Reaches(c, events', World(w.store[q.header := w.store[q.header].(isSent := true)], w.pending, rest,
                                      w.origin,
                                      w.log + [FirstReturn(q.header, true)]))
  {
    hide Reaches;
    var k, e := q.header, w.store[q.header := w.store[q.header].(isSent := true)];
    events' := ThreadThen(c, events, w, rest, InFirst(q), true,
                          Effect(Some(MarkSent(q)), w.store, w.pending, Some(FirstReturn(k, true))));
    var w' := World(w.store, w.pending, With(rest, MarkSent(q)), w.origin, w.log + [FirstReturn(k, true)]);
    events' := ThreadThen(c, events', w', rest, MarkSent(q), true, Effect(None, e, w.pending, None));
  }

  lemma OtherSent(c: Config, events: seq<Event>, w: World, q: Packet) returns (events': seq<Event>)
    requires Reaches(c, events, w) && q.header !in w.origin && q.header !in w.pending && |w.pending| < c.cap
    ensures Reaches(c, events', WithSent(c, w, q))
  {
    hide Reaches;
    var k, e, o := q.header, w.store[q.header := RetryEntry(q, c.maxRetries, false)], w.origin[q.header := q];
    events' := OtherAdded(c, events, w, q);
    var added := World(e, w.pending + {k}, With(w.threads, Sending(q)), o, w.log);
    events' := ThreadThen(c, events', added, w.threads, Sending(q), true,
                          Effect(Some(InFirst(q)), e, w.pending + {k}, Some(FirstBegin(q))));
    assert e[k := e[k].(isSent := true)] == w.store[k := RetryEntry(q, c.maxRetries, true)];
    events' := SenderFinishes(c, events', World(e, w.pending + {k}, With(w.threads, InFirst(q)), o,
                                                w.log + [FirstBegin(q)]),
                              w.threads, q);
  }

  lemma MoreCrowded(c: Config, w: World, p: Packet, n: nat, q: Packet)
    requires Authentic(w) && Rooted(w) && Crowded(w, p, n) && n + 1 < DATA_KEYS && q.header == Other(p.header, n)
    ensures q.header !in w.origin && q.header !in w.pending
    ensures Crowded(WithSent(c, w, q), p, n + 1)
  {
    OthersDiffer(p.header, n);
    PutSize(w.origin, q.header, q);
    assert |w.pending + {q.header}| == n + 1;
  }

  lemma {:induction false} CrowdGathers(c: Config, p: Packet, n: nat) returns (events: seq<Event>)
    requires c.cap > 0 && c.maxRetries > 0 && n <= c.cap && n < DATA_KEYS
    ensures Crowded(Exec(c, START, events), p, n)
  {
    if n == 0 {
      events := ExpiredDuringFirst(c, p);
    } else {
      events := CrowdGathers(c, p, n - 1);
      var w, q := Exec(c, START, events), Packet(Other(p.header, n - 1), []);
      RunsRooted(c, events);
      MoreCrowded(c, w, p, n - 1, q);
      events := OtherSent(c, events, w, q);
    }
  }

  /** With the map full, the re-registration is refused. */
  lemma RefusalIgnored(c: Config, events: seq<Event>, w: World, p: Packet) returns (events': seq<Event>)
    requires Reaches(c, events, w) && Crowded(w, p, c.cap)
    ensures Reaches(c, events', World(w.store, w.pending, With(IDLE, InFirst(p)), w.origin, w.log))
  {
    hide Reaches;
    events' := ThreadThen(c, events, w, With(IDLE, InFirst(p)), Reregister(p), true,
                          Effect(None, w.store, w.pending, None));
  }

  /** Then the first send returns 0, and nobody is left to look at the message. */
  lemma RefusalStrands(c: Config, events: seq<Event>, w: World, p: Packet) returns (events': seq<Event>)
    requires Reaches(c, events, w) && Crowded(w, p, c.cap)
    ensures var w' := Exec(c, START, events');
            w'.threads == multiset{} && Stranded(w', p.header) && w'.origin == w.origin
  {
    events' := RefusalIgnored(c, events, w, p);
    events' := SenderFinishes(c, events', World(w.store, w.pending, With(IDLE, InFirst(p)), w.origin, w.log), IDLE, p);
  }

  lemma CrowdIsData(w: World, p: Packet, n: nat)
    requires Crowded(w, p, n) && p.header.id != 0
    ensures forall k | k in w.origin :: k.id != 0
  {
    forall k | k in w.origin
      ensures k.id != 0
    {
      if k != p.header {
        var i: nat :| i < n && k == Other(p.header, i);
        OthersDiffer(p.header, i);
      }
    }
  }

  /** Whatever the capacity, any data message can be lost without a trace: it expires during its
      first send, the map fills up, the ignored re-registration is refused, and the send returns 0.
      One message more than the map has room for is enough. */
  lemma RefusedReregistrationStrands(c: Config, p: Packet) returns (events: seq<Event>)
    requires 0 < c.cap < DATA_KEYS && c.maxRetries > 0 && p.header.id != 0
    ensures var w := Exec(c, START, events);
            && w.threads == multiset{} && Stranded(w, p.header)
            && |w.origin| == c.cap + 1 && (forall k | k in w.origin :: k.id != 0)
            && forall more: seq<Event> :: QuietAbout(w.log, Exec(c, w, more).log, p.header)
  {
    events := CrowdGathers(c, p, c.cap);
    CrowdIsData(Exec(c, START, events), p, c.cap);
    events := RefusalStrands(c, events, Exec(c, START, events), p);
    RunsRooted(c, events);
    var w := Exec(c, START, events);
    forall more: seq<Event>
      ensures QuietAbout(w.log, Exec(c, w, more).log, p.header)
    {
      StrandedForever(c, w, more, p.header);
    }
  }

  /** At rest, every stored message is pending. */
  ghost predicate NoneStranded(w: World) {
    w.threads == multiset{} ==> w.store.Keys <= w.pending
  }

  /** A caller who begins no more than `n` messages is safe from stranding, in all runs, if and only
      if `n` is within the capacity of the pending map. */
  lemma NoneStrandedIffRoomForAll(c: Config, n: nat)
    requires 0 < c.cap < DATA_KEYS && c.maxRetries > 0
    ensures (forall events | |Exec(c, START, events).origin| <= n :: NoneStranded(Exec(c, START, events))) <==>
            n <= c.cap
  {
    if n > c.cap {
      var events := RefusedReregistrationStrands(c, Packet(Header(1, 0), []));
      assert |Exec(c, START, events).origin| <= n && !NoneStranded(Exec(c, START, events));
    } else {
      forall events | |Exec(c, START, events).origin| <= n
        ensures NoneStranded(Exec(c, START, events))
      {
        FewStayWatched(c, events);
      }
    }
  }

  lemma FewStayWatched(c: Config, events: seq<Event>)
    requires |Exec(c, START, events).origin| <= c.cap
    ensures NoneStranded(Exec(c, START, events))
  {
    var w := Exec(c, START, events);
    if w.threads == multiset{} {
      forall k | k in w.store
        ensures k in w.pending
      {
        FewAreNeverStranded(c, events, k);
      }
    }
  }
}
