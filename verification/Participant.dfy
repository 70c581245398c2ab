/**
 * The receiving half of the reliable delivery protocol: `ProcessIncoming` with its duplicate
 * filter, one ring of the last accepted sequence numbers per remote id. The network may lose,
 * duplicate and reorder messages at will.
 */
module Participant {
  import opened Common
  import opened MapFacts

  const SIZE: nat := 8              // DMQ_SEQ_HISTORY_SIZE
  const ACK_REMOTE_ID: uint16 := 0

  const MARKER: uint16 := 0xAA55

  /** What one call of `Receive` brings: a failure, or a message with its header. */
  datatype Arrival = Arrival(result: int, marker: uint16, id: uint16, seqNum: uint16)

  datatype Error = ReceiveError | NoDispatcher(id: uint16)

  /** The registered channels, the numbers accepted so far per id, and what was observed. */
  datatype State = State(
    channels: set<uint16>,
    accepted: map<uint16, seq<uint16>>,
    handled: seq<Arrival>,
    errors: seq<Error>)

  /** The newest `SIZE` elements. */
  function Window(accepted: seq<uint16>): seq<uint16> {
    if |accepted| <= SIZE then accepted else accepted[|accepted| - SIZE..]
  }

  /** The newest of the positions below `n` that share the ring slot `j`. */
  function Newest(j: nat, n: nat): int {
    n - 1 - (n - 1 - j) % SIZE
  }

  /** The ring after the numbers `accepted` were recorded in it. */
  ghost predicate Ring(buffer: seq<uint16>, valid: seq<bool>, head: nat, accepted: seq<uint16>) {
    && |buffer| == SIZE && |valid| == SIZE && head == |accepted| % SIZE
    && (forall j | 0 <= j < SIZE :: valid[j] <==> j < |accepted|)
    && (forall j | 0 <= j < SIZE && j < |accepted| :: buffer[j] == accepted[Newest(j, |accepted|)])
  }

  lemma NewestInWindow(j: nat, n: nat)
    requires j < SIZE && j < n
    ensures n - SIZE <= Newest(j, n) < n && 0 <= Newest(j, n)
  {
  }

  lemma SlotOfNewest(k: nat, n: nat)
    requires k < n <= k + SIZE
    ensures Newest(k % SIZE, n) == k && k % SIZE < n
  {
  }

  lemma NewestMoves(j: nat, n: nat)
    requires j < SIZE
    ensures j == n % SIZE ==> Newest(j, n + 1) == n
    ensures j != n % SIZE && j < n ==> Newest(j, n + 1) == Newest(j, n)
    ensures j < n + 1 && j != n % SIZE ==> j < n
  {
  }

  /** The ring holds exactly the last `SIZE` accepted numbers. */
  lemma RingIsWindow(buffer: seq<uint16>, valid: seq<bool>, head: nat, accepted: seq<uint16>, x: uint16)
    requires Ring(buffer, valid, head, accepted)
    ensures (exists j :: 0 <= j < SIZE && valid[j] && buffer[j] == x) <==> x in Window(accepted)
  {
    var n := |accepted|;
    if x in Window(accepted) {
      var m :| 0 <= m < |Window(accepted)| && Window(accepted)[m] == x;
      var k := m + if n <= SIZE then 0 else n - SIZE;
      SlotOfNewest(k, n);
      assert valid[k % SIZE] && buffer[k % SIZE] == x;
    }
    if exists j :: 0 <= j < SIZE && valid[j] && buffer[j] == x {
      var j :| 0 <= j < SIZE && valid[j] && buffer[j] == x;
      NewestInWindow(j, n);
      assert Window(accepted)[Newest(j, n) - if n <= SIZE then 0 else n - SIZE] == x;
    }
  }

  lemma RingRecords(buffer: seq<uint16>, valid: seq<bool>, head: nat, accepted: seq<uint16>, x: uint16)
    requires Ring(buffer, valid, head, accepted)
    ensures Ring(buffer[head := x], valid[head := true], (head + 1) % SIZE, accepted + [x])
  {
    forall j {:trigger Newest(j, |accepted| + 1)} | 0 <= j < SIZE
      ensures (valid[head := true][j] <==> j < |accepted| + 1)
           && (j < |accepted| + 1 ==> buffer[head := x][j] == (accepted + [x])[Newest(j, |accepted| + 1)])
    {
      NewestMoves(j, |accepted|);
    }
  }

  function AcceptedOn(s: State, id: uint16): seq<uint16> {
    if id in s.accepted then s.accepted[id] else []
  }

  predicate Filtered(s: State, a: Arrival) {
    a.id in s.channels && a.id != ACK_REMOTE_ID
  }

  predicate Duplicate(s: State, a: Arrival) {
    Filtered(s, a) && a.seqNum in Window(AcceptedOn(s, a.id))
  }

  /** `ProcessIncoming`. */
  function Deliver(s: State, a: Arrival): State {
    if a.result != 0 then s
    else if a.marker != MARKER then s.(errors := s.errors + [ReceiveError])
    else if a.id !in s.channels then s.(errors := s.errors + [NoDispatcher(a.id)])
    else if a.id == ACK_REMOTE_ID then s.(handled := s.handled + [a])
    else if Duplicate(s, a) then s.(accepted := s.accepted[a.id := AcceptedOn(s, a.id)])
    else s.(accepted := s.accepted[a.id := AcceptedOn(s, a.id) + [a.seqNum]], handled := s.handled + [a])
  }

  /** Any run of the receiver. */
  ghost function DeliverAll(s: State, arrivals: seq<Arrival>): State {
    if arrivals == [] then s else Deliver(DeliverAll(s, arrivals[..|arrivals| - 1]), arrivals[|arrivals| - 1])
  }

  lemma {:induction false} AcceptedGrows(s: State, arrivals: seq<Arrival>, id: uint16)
    ensures AcceptedOn(s, id) <= AcceptedOn(DeliverAll(s, arrivals), id)
    ensures DeliverAll(s, arrivals).channels == s.channels
  {
    if arrivals != [] {
      AcceptedGrows(s, arrivals[..|arrivals| - 1], id);
    }
  }

  predicate WellReceived(a: Arrival) {
    a.result == 0 && a.marker == MARKER && a.id != ACK_REMOTE_ID
  }

  /** The handler runs for an arrival. */
  predicate IsHandled(s: State, a: Arrival) {
    Deliver(s, a).handled == s.handled + [a]
  }

  /** Which arrivals are handled: well received ones on a registered channel, acknowledgements always and
      others unless their number is among the last `SIZE` accepted. */
  lemma HandledIff(s: State, a: Arrival)
    ensures IsHandled(s, a) <==>
      && a.result == 0 && a.marker == MARKER && a.id in s.channels
      && (a.id == ACK_REMOTE_ID || a.seqNum !in Window(AcceptedOn(s, a.id)))
  {
    assert s.handled + [a] != s.handled;
  }

  /** What else an arrival does: a protocol error and an unknown id are reported, each once, and a number
      is accepted exactly if its message is handled and not an acknowledgement. */
  lemma DeliveredInFull(s: State, a: Arrival)
    ensures var t := Deliver(s, a);
            && t.channels == s.channels
            && t.handled == (if IsHandled(s, a) then s.handled + [a] else s.handled)
            && t.errors == (if a.result != 0 then s.errors
                            else if a.marker != MARKER then s.errors + [ReceiveError]
                            else if a.id !in s.channels then s.errors + [NoDispatcher(a.id)]
                            else s.errors)
            && forall id :: AcceptedOn(t, id) == if id == a.id && id != ACK_REMOTE_ID && IsHandled(s, a)
                                                 then AcceptedOn(s, id) + [a.seqNum]
                                                 else AcceptedOn(s, id)
  {
    HandledIff(s, a);
  }

  lemma WindowHolds(accepted: seq<uint16>, k: nat)
    requires k < |accepted| <= k + SIZE
    ensures accepted[k] in Window(accepted)
  {
    assert accepted[k] == Window(accepted)[k - if |accepted| <= SIZE then 0 else |accepted| - SIZE];
  }

  /** At most once: after a message was handled, another copy of it is dropped as long as fewer
      than `SIZE` other messages of its id were accepted in between, however the network
      duplicates and reorders. */
  lemma CopyIsDropped(s: State, a: Arrival, between: seq<Arrival>)
    requires WellReceived(a) && a.id in s.channels && IsHandled(s, a)
    requires var t := DeliverAll(Deliver(s, a), between);
             |AcceptedOn(t, a.id)| - |AcceptedOn(Deliver(s, a), a.id)| < SIZE
    ensures !IsHandled(DeliverAll(Deliver(s, a), between), a)
  {
    var s1 := Deliver(s, a);
    var t := DeliverAll(s1, between);
    AcceptedGrows(s1, between, a.id);
    assert AcceptedOn(s1, a.id) == AcceptedOn(s, a.id) + [a.seqNum];
    WindowHolds(AcceptedOn(t, a.id), |AcceptedOn(s, a.id)|);
    assert t.handled + [a] != t.handled;
  }

  /** A count of dispatches, cut to a sequence number. */
  function Number(n: nat): uint16 {
    n % 0x1_0000
  }

  /** The messages numbered `from`, `from + 1`, ... of one id, `n` of them. */
  function Burst(id: uint16, from: nat, n: nat): seq<Arrival>
    decreases n
  {
    if n == 0 then [] else Burst(id, from, n - 1) + [Arrival(0, MARKER, id, Number(from + n - 1))]
  }

  function Numbers(from: nat, n: nat): seq<uint16> {
    if n == 0 then [] else Numbers(from, n - 1) + [Number(from + n - 1)]
  }

  lemma {:induction false} NumbersAt(from: nat, n: nat, k: nat)
    requires k < n
    ensures |Numbers(from, n)| == n && Numbers(from, n)[k] == Number(from + k)
  {
    if k < n - 1 {
      NumbersAt(from, n - 1, k);
    } else if n > 1 {
      NumbersAt(from, n - 1, 0);
    }
  }

  lemma NotCongruent(x: nat, y: nat)
    requires x != y && -0x1_0000 < x - y < 0x1_0000
    ensures Number(x) != Number(y)
  {
  }

  lemma NumbersApart(from: nat, n: nat, i: nat, j: nat)
    requires i < n && j < n <= 0x1_0000 && i != j && |Numbers(from, n)| == n
    ensures Numbers(from, n)[i] != Numbers(from, n)[j]
  {
    NumbersAt(from, n, i);
    NumbersAt(from, n, j);
    NotCongruent(from + i, from + j);
  }

  lemma InWindow(accepted: seq<uint16>, x: uint16) returns (k: nat)
    requires x in Window(accepted)
    ensures k < |accepted| <= k + SIZE && accepted[k] == x
  {
    var m :| 0 <= m < |Window(accepted)| && Window(accepted)[m] == x;
    k := m + if |accepted| <= SIZE then 0 else |accepted| - SIZE;
  }

  lemma NextIsNew(from: nat, n: nat)
    requires n < 0x1_0000 && |Numbers(from, n)| == n
    ensures Number(from + n) !in Window(Numbers(from, n))
  {
    if Number(from + n) in Window(Numbers(from, n)) {
      var k := InWindow(Numbers(from, n), Number(from + n));
      NumbersAt(from, n, k);
      NotCongruent(from + k, from + n);
    }
  }

  lemma {:induction false} NumbersLength(from: nat, n: nat)
    ensures |Numbers(from, n)| == n
  {
    if n > 0 {
      NumbersLength(from, n - 1);
    }
  }

  lemma NewIsAccepted(s: State, a: Arrival)
    requires WellReceived(a) && a.id in s.channels && a.seqNum !in Window(AcceptedOn(s, a.id))
    ensures AcceptedOn(Deliver(s, a), a.id) == AcceptedOn(s, a.id) + [a.seqNum] && IsHandled(s, a)
  {
  }

  lemma {:induction false} BurstAccepted(s: State, id: uint16, from: nat, n: nat)
    requires id in s.channels && id != ACK_REMOTE_ID && AcceptedOn(s, id) == [] && n <= 0x1_0000
    ensures AcceptedOn(DeliverAll(s, Burst(id, from, n)), id) == Numbers(from, n)
    ensures id in DeliverAll(s, Burst(id, from, n)).channels
  {
    hide *;
    if n == 0 {
      NoBurst(s, id, from);
    } else {
      BurstAccepted(s, id, from, n - 1);
      BurstGoesOn(s, id, from, n);
      NextAccepted(DeliverAll(s, Burst(id, from, n - 1)), id, from, n - 1);
    }
  }

  lemma NoBurst(s: State, id: uint16, from: nat)
    ensures DeliverAll(s, Burst(id, from, 0)) == s && Numbers(from, 0) == []
  {
  }

  lemma NextAccepted(s: State, id: uint16, from: nat, n: nat)
    requires id in s.channels && id != ACK_REMOTE_ID && AcceptedOn(s, id) == Numbers(from, n) && n < 0x1_0000
    ensures AcceptedOn(Deliver(s, Arrival(0, MARKER, id, Number(from + n))), id)
         == Numbers(from, n) + [Number(from + n)]
  {
    hide Number, Window, Deliver;
    NumbersLength(from, n);
    NextIsNew(from, n);
    NewIsAccepted(s, Arrival(0, MARKER, id, Number(from + n)));
  }

  lemma BurstGoesOn(s: State, id: uint16, from: nat, n: nat)
    requires n > 0
    ensures DeliverAll(s, Burst(id, from, n))
         == Deliver(DeliverAll(s, Burst(id, from, n - 1)), Arrival(0, MARKER, id, Number(from + n - 1)))
    ensures DeliverAll(s, Burst(id, from, n)).channels == s.channels
    ensures Numbers(from, n) == Numbers(from, n - 1) + [Number(from + n - 1)]
  {
    assert Burst(id, from, n)[..|Burst(id, from, n)| - 1] == Burst(id, from, n - 1);
    AcceptedGrows(s, Burst(id, from, n), id);
  }

  /** `SIZE` is the limit: a copy that comes after `SIZE` other messages is handled again. */
  lemma CopyHandledAgain(s: State, id: uint16, from: nat)
    requires id in s.channels && id != ACK_REMOTE_ID && AcceptedOn(s, id) == []
    ensures var t := DeliverAll(s, Burst(id, from, SIZE + 1));
            && |AcceptedOn(t, id)| == SIZE + 1 && AcceptedOn(t, id)[0] == Number(from)
            && IsHandled(t, Arrival(0, MARKER, id, Number(from)))
  {
    BurstAccepted(s, id, from, SIZE + 1);
    NumbersLength(from, SIZE + 1);
    NumbersAt(from, SIZE + 1, 0);
    var t := DeliverAll(s, Burst(id, from, SIZE + 1));
    var x := Number(from);
    if x in Window(AcceptedOn(t, id)) {
      var k := InWindow(AcceptedOn(t, id), x);
      NumbersApart(from, SIZE + 1, 0, k);
    }
    NewIsAccepted(t, Arrival(0, MARKER, id, x));
  }

  /** The accepted numbers are the dispatch counts `counts`, cut to 16 bits. */
  ghost predicate Counted(accepted: seq<uint16>, counts: seq<nat>) {
    |accepted| == |counts| && forall i | 0 <= i < |counts| :: accepted[i] == Number(counts[i])
  }

  /** A message that has not been accepted is dropped only if its count is congruent to one of the
      last `SIZE` accepted counts, modulo 2^16. */
  lemma DroppedOnlyIfCongruent(s: State, a: Arrival, counts: seq<nat>, n: nat)
    requires WellReceived(a) && a.id in s.channels && a.seqNum == Number(n)
    requires Counted(AcceptedOn(s, a.id), counts)
    ensures !IsHandled(s, a) <==>
      exists i :: 0 <= i < |counts| && |counts| - SIZE <= i && Number(counts[i]) == Number(n)
  {
    hide Number;
    var accepted := AcceptedOn(s, a.id);
    assert s.handled + [a] != s.handled;
    if a.seqNum in Window(accepted) {
      var m :| 0 <= m < |Window(accepted)| && Window(accepted)[m] == a.seqNum;
      var i := m + if |accepted| <= SIZE then 0 else |accepted| - SIZE;
      assert accepted[i] == a.seqNum && Number(counts[i]) == Number(n);
    }
    if i :| 0 <= i < |counts| && |counts| - SIZE <= i && Number(counts[i]) == Number(n) {
      WindowHolds(accepted, i);
    }
  }

  /** So while the last `SIZE` accepted messages and the new one lie within fewer than 2^16
      dispatches of the global counter, a new message is always handled. */
  lemma FirstArrivalHandled(s: State, a: Arrival, counts: seq<nat>, n: nat)
    requires WellReceived(a) && a.id in s.channels && a.seqNum == Number(n)
    requires Counted(AcceptedOn(s, a.id), counts) && n !in counts
    requires forall i | 0 <= i < |counts| && |counts| - SIZE <= i :: -0x1_0000 < counts[i] - n < 0x1_0000
    ensures IsHandled(s, a)
  {
    DroppedOnlyIfCongruent(s, a, counts, n);
    forall i | 0 <= i < |counts| && |counts| - SIZE <= i
      ensures Number(counts[i]) != Number(n)
    {
      assert counts[i] in counts;
      NotCongruent(counts[i], n);
    }
  }

  class SeqHistory {
    const buffer: array<uint16>
    const valid: array<bool>
    var head: nat
    ghost var accepted: seq<uint16>

    ghost predicate Valid()
      reads this, buffer, valid
    {
      Ring(buffer[..], valid[..], head, accepted)
    }

    constructor ()
      ensures Valid() && accepted == [] && fresh(buffer) && fresh(valid)
    {
      buffer := new uint16[SIZE](_ => 0);
      valid := new bool[SIZE](_ => false);
      head, accepted := 0, [];
    }

    /** The search of `is_duplicate`. */
    method Contains(x: uint16) returns (found: bool)
      requires Valid()
      ensures found == (x in Window(accepted))
    {
      RingIsWindow(buffer[..], valid[..], head, accepted, x);
      var i := 0;
      while i < SIZE
        invariant i <= SIZE
        invariant forall j | 0 <= j < i :: !(valid[j] && buffer[j] == x)
      {
        if valid[i] && buffer[i] == x {
          assert valid[..][i] && buffer[..][i] == x;
          return true;
        }
        i := i + 1;
      }
      found := false;
    }

    /** The rest of `is_duplicate`: a new number replaces the oldest one. */
    method Record(x: uint16)
      requires Valid()
      modifies this`head, this`accepted, buffer, valid
      ensures Valid() && accepted == old(accepted) + [x]
    {
      RingRecords(buffer[..], valid[..], head, accepted, x);
      buffer[head] := x;
      valid[head] := true;
      assert buffer[..] == old(buffer[..])[head := x] && valid[..] == old(valid[..])[head := true];
      head := (head + 1) % SIZE;
      accepted := accepted + [x];
    }
  }

  /** The rings of different ids share nothing. */
  ghost predicate Separate(history: map<uint16, SeqHistory>, repr: set<object>) {
    && (forall i | i in history :: history[i] in repr && history[i].buffer in repr && history[i].valid in repr)
    && (forall i, j | i in history && j in history && i != j ::
          history[i] != history[j] && history[i].buffer != history[j].buffer && history[i].valid != history[j].valid)
  }

  class Participant {
    var channels: set<uint16>
    var history: map<uint16, SeqHistory>
    ghost var accepted: map<uint16, seq<uint16>>
    ghost var handled: seq<Arrival>
    ghost var errors: seq<Error>
    ghost var repr: set<object>

    /** Every ring is valid and records the numbers accepted for its id. */
    ghost predicate Valid()
      reads this, repr
    {
      && this !in repr && Separate(history, repr) && history.Keys == accepted.Keys
      && forall i | i in history :: history[i].Valid() && history[i].accepted == accepted[i]
    }

    ghost function View(): State
      reads this
    {
      State(channels, accepted, handled, errors)
    }

    constructor ()
      ensures Valid() && View() == State({}, map[], [], []) && repr == {}
    {
      channels, history, accepted, handled, errors, repr := {}, map[], map[], [], [], {};
    }

    /** `m_history[id]`: a ring is made when an id is first looked up. */
    method Lookup(id: uint16) returns (h: SeqHistory)
      requires Valid()
      modifies this`history, this`accepted, this`repr
      ensures Valid() && id in history && h == history[id] && old(repr) <= repr && fresh(repr - old(repr))
      ensures accepted == old(accepted)[id := AcceptedOn(old(View()), id)]
    {
      if id in history {
        h := history[id];
      } else {
        h := new SeqHistory();
        Adopt(id, h);
      }
    }

    method Adopt(id: uint16, h: SeqHistory)
      requires Valid() && id !in history && h.Valid() && h.accepted == []
      requires h !in repr && h.buffer !in repr && h.valid !in repr
      modifies this`history, this`accepted, this`repr
      ensures Valid() && history == old(history)[id := h] && accepted == old(accepted)[id := []]
      ensures repr == old(repr) + {h, h.buffer, h.valid}
    {
      history := history[id := h];
      accepted := accepted[id := []];
      repr := repr + {h, h.buffer, h.valid};
    }

    method Record(id: uint16, h: SeqHistory, x: uint16)
      requires Valid() && id in history && h == history[id]
      modifies this`accepted, h, h.buffer, h.valid
      ensures Valid() && accepted == old(accepted)[id := old(accepted)[id] + [x]]
    {
      h.Record(x);
      accepted := accepted[id := h.accepted];
    }

    /** `is_duplicate` on the ring of `id`. */
    method IsDuplicate(id: uint16, x: uint16) returns (duplicate: bool)
      requires Valid()
      modifies this`history, this`accepted, this`repr, repr
      ensures Valid() && old(repr) <= repr && fresh(repr - old(repr))
      ensures duplicate == (x in Window(AcceptedOn(old(View()), id)))
      ensures accepted == old(accepted)[id := if duplicate then AcceptedOn(old(View()), id)
                                        else AcceptedOn(old(View()), id) + [x]]
    {
      hide Window, Ring;
      var h := Lookup(id);
      duplicate := h.Contains(x);
      PutTwice(old(accepted), id, AcceptedOn(old(View()), id), AcceptedOn(old(View()), id) + [x]);
      if !duplicate {
        Record(id, h, x);
      }
    }

    /** `ProcessIncoming`; the result tells the transport loop what happened. */
    method ProcessIncoming(a: Arrival) returns (code: int)
      requires Valid()
      modifies this, repr
      ensures Valid() && old(repr) <= repr && fresh(repr - old(repr)) && View() == Deliver(old(View()), a)
      ensures code == if a.result == 0 && a.marker != MARKER then -1 else a.result
    {
      if a.result != 0 {
        return a.result;
      }
      if a.marker != MARKER {
        errors := errors + [ReceiveError];
        return -1;
      }
      if a.id in channels {
        if a.id != ACK_REMOTE_ID {
          var duplicate := IsDuplicate(a.id, a.seqNum);
          if duplicate {
            return 0;
          }
        }
        handled := handled + [a];
      } else {
        errors := errors + [NoDispatcher(a.id)];
      }
      code := a.result;
    }
  }
}
