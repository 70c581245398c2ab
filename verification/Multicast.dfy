/**
 * The multicast delegate container: a list that its own callbacks change while it is iterated.
 * During a broadcast removals only null entries, which are purged when the outermost broadcast
 * ends. Every operation is proved to do to the live subscriptions what `MulticastSpec` says.
 */
module Multicast {
  import opened Common
  import opened MulticastSpec

  type Slot = Option<Delegate>

  /** The subscriptions a list stands for: its non-null entries, with their tickets. */
  ghost function Live(ds: seq<Slot>, ts: seq<nat>): seq<Entry>
    requires |ds| == |ts|
  {
    if ds == [] then []
    else
      var n := |ds| - 1;
      Live(ds[..n], ts[..n]) + if ds[n].Some? then [Entry(ts[n], ds[n].value)] else []
  }

  lemma LiveAppend(ds: seq<Slot>, ts: seq<nat>, x: Slot, t: nat)
    requires |ds| == |ts|
    ensures Live(ds + [x], ts + [t]) == Live(ds, ts) + if x.Some? then [Entry(t, x.value)] else []
  {
    assert (ds + [x])[..|ds|] == ds && (ts + [t])[..|ts|] == ts;
  }

  lemma {:induction false} LiveConcat(ds: seq<Slot>, ts: seq<nat>, es: seq<Slot>, us: seq<nat>)
    requires |ds| == |ts| && |es| == |us|
    ensures Live(ds + es, ts + us) == Live(ds, ts) + Live(es, us)
  {
    if es == [] {
      assert ds + es == ds && ts + us == ts;
    } else {
      var n := |es| - 1;
      LiveConcat(ds, ts, es[..n], us[..n]);
      LiveAppend(ds + es[..n], ts + us[..n], es[n], us[n]);
      assert ds + es == ds + es[..n] + [es[n]] && ts + us == ts + us[..n] + [us[n]];
    }
  }

  lemma LiveSplit(ds: seq<Slot>, ts: seq<nat>, i: nat)
    requires |ds| == |ts| && i <= |ds|
    ensures Live(ds, ts) == Live(ds[..i], ts[..i]) + Live(ds[i..], ts[i..])
  {
    LiveConcat(ds[..i], ts[..i], ds[i..], ts[i..]);
    assert ds == ds[..i] + ds[i..] && ts == ts[..i] + ts[i..];
  }

  lemma LiveAround(ds: seq<Slot>, ts: seq<nat>, i: nat)
    requires |ds| == |ts| && i < |ds|
    ensures Live(ds, ts) == Live(ds[..i], ts[..i]) + (if ds[i].Some? then [Entry(ts[i], ds[i].value)] else [])
                          + Live(ds[i + 1..], ts[i + 1..])
  {
    hide Live;
    LiveSplit(ds, ts, i + 1);
    LiveAppend(ds[..i], ts[..i], ds[i], ts[i]);
    assert ds[..i + 1] == ds[..i] + [ds[i]] && ts[..i + 1] == ts[..i] + [ts[i]];
  }

  lemma {:induction false} LiveFrom(ds: seq<Slot>, ts: seq<nat>, e: Entry)
    requires |ds| == |ts| && e in Live(ds, ts)
    ensures exists i :: 0 <= i < |ds| && ds[i] == Some(e.d) && ts[i] == e.ticket
  {
    var n := |ds| - 1;
    if e in Live(ds[..n], ts[..n]) {
      LiveFrom(ds[..n], ts[..n], e);
      var i :| 0 <= i < n && ds[..n][i] == Some(e.d) && ts[..n][i] == e.ticket;
      assert ds[i] == Some(e.d);
    } else {
      assert ds[n] == Some(e.d);
    }
  }

  lemma {:induction false} RemoveFromConcat(a: seq<Entry>, b: seq<Entry>, d: Delegate)
    requires forall e | e in a :: e.d != d
    ensures RemoveFirst(a + b, d) == a + RemoveFirst(b, d)
  {
    if a == [] {
      assert a + b == b;
    } else {
      RemoveFromConcat(a[1..], b, d);
      assert (a + b)[1..] == a[1..] + b;
    }
  }

  predicate FirstAt(ds: seq<Slot>, d: Delegate, i: nat) {
    i < |ds| && ds[i] == Some(d) && forall j | 0 <= j < i :: ds[j] != Some(d)
  }

  lemma NoneBefore(ds: seq<Slot>, ts: seq<nat>, d: Delegate)
    requires |ds| == |ts| && forall j | 0 <= j < |ds| :: ds[j] != Some(d)
    ensures forall e | e in Live(ds, ts) :: e.d != d
    ensures RemoveFirst(Live(ds, ts), d) == Live(ds, ts)
  {
    forall e | e in Live(ds, ts)
      ensures e.d != d
    {
      LiveFrom(ds, ts, e);
    }
    RemoveFromConcat(Live(ds, ts), [], d);
    assert Live(ds, ts) + [] == Live(ds, ts);
  }

  /** Nulling, or erasing, the first slot equal to `d` removes its first subscription. */
  lemma FirstRemoved(ds: seq<Slot>, ts: seq<nat>, d: Delegate, i: nat)
    requires |ds| == |ts| && FirstAt(ds, d, i)
    ensures Live(ds[i := None], ts) == RemoveFirst(Live(ds, ts), d)
    ensures Live(ds[..i] + ds[i + 1..], ts[..i] + ts[i + 1..]) == RemoveFirst(Live(ds, ts), d)
  {
    var a, e, b := Live(ds[..i], ts[..i]), Entry(ts[i], d), Live(ds[i + 1..], ts[i + 1..]);
    LiveAround(ds, ts, i);
    NoneBefore(ds[..i], ts[..i], d);
    assert a + [e] + b == a + ([e] + b);
    RemoveFromConcat(a, [e] + b, d);
    assert ([e] + b)[1..] == b;
    LiveAround(ds[i := None], ts, i);
    assert ds[i := None][..i] == ds[..i] && ds[i := None][i + 1..] == ds[i + 1..];
    assert a + [] + b == a + b;
    LiveConcat(ds[..i], ts[..i], ds[i + 1..], ts[i + 1..]);
  }

  lemma {:induction false} NullsAreDead(ds: seq<Slot>, ts: seq<nat>)
    requires |ds| == |ts| && forall j | 0 <= j < |ds| :: ds[j] == None
    ensures Live(ds, ts) == []
  {
    if ds != [] {
      NullsAreDead(ds[..|ds| - 1], ts[..|ds| - 1]);
    }
  }

  /** `remove_if`: the non-null slots, and their tickets. */
  function Purged(ds: seq<Slot>): seq<Slot> {
    if ds == [] then [] else Purged(ds[..|ds| - 1]) + if ds[|ds| - 1].Some? then [ds[|ds| - 1]] else []
  }

  ghost function PurgedTickets(ds: seq<Slot>, ts: seq<nat>): (r: seq<nat>)
    requires |ds| == |ts|
    ensures |r| == |Purged(ds)|
  {
    if ds == [] then []
    else PurgedTickets(ds[..|ds| - 1], ts[..|ds| - 1]) + if ds[|ds| - 1].Some? then [ts[|ds| - 1]] else []
  }

  lemma {:induction false} PurgeKeepsLive(ds: seq<Slot>, ts: seq<nat>)
    requires |ds| == |ts|
    ensures Live(Purged(ds), PurgedTickets(ds, ts)) == Live(ds, ts)
    ensures None !in Purged(ds)
  {
    if ds != [] {
      var n := |ds| - 1;
      PurgeKeepsLive(ds[..n], ts[..n]);
      if ds[n].Some? {
        LiveAppend(Purged(ds[..n]), PurgedTickets(ds[..n], ts[..n]), ds[n], ts[n]);
      } else {
        assert Purged(ds) == Purged(ds[..n]) && PurgedTickets(ds, ts) == PurgedTickets(ds[..n], ts[..n]);
        assert Live(ds[..n], ts[..n]) + [] == Live(ds[..n], ts[..n]);
      }
    }
  }

  lemma {:induction false} PurgeKeepsOrder(ds: seq<Slot>, ts: seq<nat>)
    requires |ds| == |ts| && Ascending(ts)
    ensures Ascending(PurgedTickets(ds, ts))
    ensures forall t | t in PurgedTickets(ds, ts) :: t in ts
  {
    if ds != [] {
      var n := |ds| - 1;
      PurgeKeepsOrder(ds[..n], ts[..n]);
      var us := PurgedTickets(ds[..n], ts[..n]);
      forall i | 0 <= i < |us|
        ensures us[i] in ts && us[i] < ts[n]
      {
        assert us[i] in ts[..n];
      }
    }
  }

  /** What no operation may do to a list that is being iterated: slots keep their positions, go
      only from non-null to null, and new ones come at the end. */
  ghost predicate Stable(ds: seq<Slot>, ds': seq<Slot>) {
    && |ds| <= |ds'|
    && forall i | 0 <= i < |ds| :: ds'[i] == ds[i] || ds'[i] == None
  }

  lemma AllLater(ds: seq<Slot>, ts: seq<nat>, from: nat, from': nat)
    requires |ds| == |ts| && forall j | 0 <= j < |ts| :: ts[j] >= from && ts[j] >= from'
    ensures NextFrom(Live(ds, ts), from) == NextFrom(Live(ds, ts), from')
  {
    if Live(ds, ts) != [] {
      LiveFrom(ds, ts, Live(ds, ts)[0]);
    }
  }

  /** The next subscription of a pass that has come to position `i`. */
  lemma NextAt(ds: seq<Slot>, ts: seq<nat>, i: nat, from: nat)
    requires |ds| == |ts| && i <= |ds|
    requires forall j | 0 <= j < i :: ts[j] < from
    requires forall j | i <= j < |ts| :: ts[j] >= from
    requires Ascending(ts)
    ensures i == |ds| ==> NextFrom(Live(ds, ts), from) == None
    ensures i < |ds| && ds[i].Some? ==> NextFrom(Live(ds, ts), from) == Some(Entry(ts[i], ds[i].value))
    ensures i < |ds| && ds[i].None? ==> NextFrom(Live(ds, ts), from) == NextFrom(Live(ds, ts), ts[i] + 1)
  {
    var a := Live(ds[..i], ts[..i]);
    forall e | e in a
      ensures e.ticket < from
    {
      LiveFrom(ds[..i], ts[..i], e);
    }
    LiveSplit(ds, ts, i);
    NextSkips(a, Live(ds[i..], ts[i..]), from);
    if i < |ds| {
      LiveAround(ds, ts, i);
      var b := Live(ds[i + 1..], ts[i + 1..]);
      if ds[i].Some? {
        var e := Entry(ts[i], ds[i].value);
        assert a + [e] + b == a + ([e] + b);
        NextSkips(a, [e] + b, from);
      } else {
        assert a + [] + b == a + b;
        NextSkips(a, b, from);
        NextSkips(a, b, ts[i] + 1);
        AllLater(ds[i + 1..], ts[i + 1..], from, ts[i] + 1);
      }
    }
  }

  lemma {:induction false} NextSkips(a: seq<Entry>, b: seq<Entry>, from: nat)
    requires forall e | e in a :: e.ticket < from
    ensures NextFrom(a + b, from) == NextFrom(b, from)
  {
    if a == [] {
      assert a + b == b;
    } else {
      NextSkips(a[1..], b, from);
      assert (a + b)[1..] == a[1..] + b;
    }
  }

  lemma PassFromEither(a: State, from: nat, from': nat)
    requires Ticketed(a.live, a.next) && NextFrom(a.live, from) == NextFrom(a.live, from')
    ensures Pass(a, from) == Pass(a, from')
  {
  }

  /** The delegates a list holds, without nulls. */
  function Held(ds: seq<Slot>): seq<Delegate> {
    if ds == [] then [] else Held(ds[..|ds| - 1]) + if ds[|ds| - 1].Some? then [ds[|ds| - 1].value] else []
  }

  lemma {:induction false} IssuedAppend(ds: seq<Delegate>, next: nat, d: Delegate)
    ensures Issued(ds + [d], next) == Issued(ds, next) + [Entry(next + |ds|, d)]
  {
    if ds != [] {
      IssuedAppend(ds[1..], next + 1, d);
      assert (ds + [d])[1..] == ds[1..] + [d];
    }
  }

  ghost function TicketRange(next: nat, n: nat): (r: seq<nat>)
    ensures |r| == n && Ascending(r) && forall t | t in r :: next <= t < next + n
  {
    seq(n, i => next + i)
  }

  lemma {:induction false} MovedIn(ds: seq<Slot>, next: nat)
    requires None !in ds
    ensures |Held(ds)| == |ds|
    ensures Live(ds, TicketRange(next, |ds|)) == Issued(Held(ds), next)
  {
    if ds != [] {
      var n := |ds| - 1;
      MovedIn(ds[..n], next);
      assert ds[n].Some?;
      assert TicketRange(next, |ds|)[..n] == TicketRange(next, n);
      IssuedAppend(Held(ds[..n]), next, ds[n].value);
    }
  }

  lemma LiveTicketed(ds: seq<Slot>, ts: seq<nat>, next: nat)
    requires |ds| == |ts| && forall t | t in ts :: t < next
    ensures Ticketed(Live(ds, ts), next)
  {
    forall i | 0 <= i < |Live(ds, ts)|
      ensures Live(ds, ts)[i].ticket < next
    {
      var e := Live(ds, ts)[i];
      LiveFrom(ds, ts, e);
      var j :| 0 <= j < |ds| && ds[j] == Some(e.d) && ts[j] == e.ticket;
      assert ts[j] in ts;
    }
  }

  /** Nulls only during a broadcast, and only with the clean-up flag raised. */
  ghost predicate WellFormed(ds: seq<Slot>, ts: seq<nat>, next: nat, count: nat, cleanup: bool) {
    && |ds| == |ts| && Ascending(ts) && (forall t | t in ts :: t < next)
    && (None in ds ==> cleanup)
    && (count == 0 ==> !cleanup)
  }

  /** The list and its tickets, changed in a way an iteration survives. */
  ghost predicate Grown(ds: seq<Slot>, ts: seq<nat>, ds': seq<Slot>, ts': seq<nat>) {
    Stable(ds, ds') && ts <= ts'
  }

  lemma PushedWell(ds: seq<Slot>, ts: seq<nat>, next: nat, count: nat, cleanup: bool, d: Delegate)
    requires WellFormed(ds, ts, next, count, cleanup)
    ensures WellFormed(ds + [Some(d)], ts + [next], next + 1, count, cleanup)
    ensures Grown(ds, ts, ds + [Some(d)], ts + [next])
    ensures Live(ds + [Some(d)], ts + [next]) == Live(ds, ts) + [Entry(next, d)]
    ensures Held(ds + [Some(d)]) == Held(ds) + [d]
  {
    LiveAppend(ds, ts, Some(d), next);
    assert (ds + [Some(d)])[..|ds|] == ds;
    forall i | 0 <= i < |ts|
      ensures ts[i] < next
    {
      assert ts[i] in ts;
    }
  }

  lemma NulledWell(ds: seq<Slot>, ts: seq<nat>, next: nat, count: nat, cleanup: bool, i: nat)
    requires WellFormed(ds, ts, next, count, cleanup) && count > 0 && i < |ds|
    ensures WellFormed(ds[i := None], ts, next, count, true)
    ensures Grown(ds, ts, ds[i := None], ts)
  {
  }

  lemma ErasedWell(ds: seq<Slot>, ts: seq<nat>, next: nat, i: nat)
    requires WellFormed(ds, ts, next, 0, false) && i < |ds|
    ensures WellFormed(ds[..i] + ds[i + 1..], ts[..i] + ts[i + 1..], next, 0, false)
  {
    var ds', ts' := ds[..i] + ds[i + 1..], ts[..i] + ts[i + 1..];
    forall j | 0 <= j < |ds'|
      ensures ds'[j] in ds && ts'[j] in ts
    {
      assert ds'[j] == ds[if j < i then j else j + 1] && ts'[j] == ts[if j < i then j else j + 1];
    }
  }

  lemma AppendsOne(live: seq<Entry>, slots: seq<Slot>, i: nat, next: nat)
    requires i < |slots|
    ensures slots[i].Some? ==>
      && |Held(slots[..i + 1])| == |Held(slots[..i])| + 1
      && live + Issued(Held(slots[..i + 1]), next)
         == live + Issued(Held(slots[..i]), next) + [Entry(next + |Held(slots[..i])|, slots[i].value)]
    ensures slots[i].None? ==> Held(slots[..i + 1]) == Held(slots[..i])
  {
    assert slots[..i + 1][..i] == slots[..i];
    if slots[i].Some? {
      IssuedAppend(Held(slots[..i]), next, slots[i].value);
    }
  }

  /** The iteration has come to position `i`: it has reached exactly the tickets below `from`. */
  ghost predicate At(ts: seq<nat>, i: nat, from: nat) {
    && i <= |ts|
    && (forall j | 0 <= j < i :: ts[j] < from)
    && (forall j | i <= j < |ts| :: ts[j] >= from)
  }

  /** One position of a pass: a null is skipped, anything else is called. */
  lemma PassStep(a: State, ds: seq<Slot>, ts: seq<nat>, i: nat, from: nat)
    requires |ds| == |ts| && Ascending(ts) && At(ts, i, from) && a.live == Live(ds, ts) && Ticketed(a.live, a.next)
             && !a.thrown
    ensures i == |ds| ==> Pass(a, from) == a
    ensures i < |ds| && ds[i].Some? ==> Pass(a, from) == Pass(Called(a, Entry(ts[i], ds[i].value)), ts[i] + 1)
    ensures i < |ds| && ds[i].None? ==> Pass(a, from) == Pass(a, ts[i] + 1)
  {
    NextAt(ds, ts, i, from);
    if i < |ds| && ds[i].None? {
      PassFromEither(a, from, ts[i] + 1);
    }
  }

  lemma MovesOn(ts: seq<nat>, i: nat, ts': seq<nat>)
    requires i < |ts| && ts <= ts' && Ascending(ts')
    ensures At(ts', i + 1, ts[i] + 1)
  {
    assert ts'[i] == ts[i];
  }

  lemma PurgedWell(ds: seq<Slot>, ts: seq<nat>, next: nat, cleanup: bool)
    requires WellFormed(ds, ts, next, 1, cleanup)
    ensures WellFormed(Purged(ds), PurgedTickets(ds, ts), next, 0, false)
    ensures Live(Purged(ds), PurgedTickets(ds, ts)) == Live(ds, ts) && None !in Purged(ds)
  {
    PurgeKeepsLive(ds, ts);
    PurgeKeepsOrder(ds, ts);
  }

  /** What the list holds are the delegates of its live subscriptions. */
  lemma {:induction false} HeldIsLive(ds: seq<Slot>, ts: seq<nat>)
    requires |ds| == |ts|
    ensures Delegates(Live(ds, ts)) == Held(ds)
  {
    if ds != [] {
      HeldIsLive(ds[..|ds| - 1], ts[..|ds| - 1]);
      assert Live(ds, ts) == Live(ds[..|ds| - 1], ts[..|ds| - 1])
          + if ds[|ds| - 1].Some? then [Entry(ts[|ds| - 1], ds[|ds| - 1].value)] else [];
    }
  }

  /** Callbacks that do nothing: the delegates held are called, in order, and stay. */
  lemma SilentInvoke(ds: seq<Slot>, ts: seq<nat>, a: State)
    requires |ds| == |ts| && Ascending(ts) && a.live == Live(ds, ts) && Ticketed(a.live, a.next) && !a.thrown
    ensures a.scripts == [] ==>
      var r := Pass(a, 0);
      && !r.thrown && Delegates(r.live) == Held(ds) && a.calls <= r.calls
      && Delegates(r.calls[|a.calls|..]) == Held(ds)
  {
    LiveSorted(ds, ts);
    HeldIsLive(ds, ts);
    if a.scripts == [] {
      QuietBroadcast(a);
    }
  }

  /** The live subscriptions are in the order of their tickets. */
  lemma {:induction false} LiveSorted(ds: seq<Slot>, ts: seq<nat>)
    requires |ds| == |ts| && Ascending(ts)
    ensures Sorted(Live(ds, ts))
  {
    if ds != [] {
      var n := |ds| - 1;
      LiveSorted(ds[..n], ts[..n]);
      forall e | e in Live(ds[..n], ts[..n])
        ensures e.ticket < ts[n]
      {
        LiveFrom(ds[..n], ts[..n], e);
      }
      EntriesBefore(Live(ds[..n], ts[..n]), ts[n]);
    }
  }

  lemma EntriesBefore(live: seq<Entry>, t: nat)
    requires Sorted(live) && forall e | e in live :: e.ticket < t
    ensures forall d :: Sorted(live + [Entry(t, d)])
  {
    assert forall i | 0 <= i < |live| :: live[i] in live;
  }

  class MulticastDelegate {
    var delegates: seq<Slot>
    var broadcastCount: nat
    var cleanup: bool
    /** What the callbacks still to be called are going to do, one script each. */
    var scripts: seq<seq<Op>>
    ghost var tickets: seq<nat>
    ghost var next: nat
    ghost var calls: seq<Entry>

    ghost predicate Valid()
      reads this
    {
      WellFormed(delegates, tickets, next, broadcastCount, cleanup)
    }

    ghost function View(threw: bool): (r: State)
      requires Valid()
      reads this
      ensures Ticketed(r.live, r.next)
    {
      LiveTicketed(delegates, tickets, next);
      State(Live(delegates, tickets), next, calls, scripts, threw)
    }

    constructor Holding(ds: seq<Delegate>)
      ensures Valid() && broadcastCount == 0 && Held(delegates) == ds
    {
      delegates := seq(|ds|, i requires 0 <= i < |ds| => Some(ds[i]));
      broadcastCount, cleanup, scripts := 0, false, [];
      tickets, next, calls := TicketRange(0, |ds|), |ds|, [];
      new;
      HeldAll(delegates, ds);
    }

    /** `MulticastPushBack`. */
    method PushBack(d: Delegate)
      requires Valid()
      modifies this
      ensures Valid() && broadcastCount == old(broadcastCount)
      ensures View(false) == Apply(old(View(false)), Add(d))
      ensures Grown(old(delegates), old(tickets), delegates, tickets)
      ensures Held(delegates) == Held(old(delegates)) + [d]
    {
      PushedWell(delegates, tickets, next, broadcastCount, cleanup, d);
      delegates := delegates + [Some(d)];
      tickets, next := tickets + [next], next + 1;
    }

    /** `find_if`: the first slot that holds a delegate equal to `d`. */
    method Find(d: Delegate) returns (i: nat)
      ensures i <= |delegates|
      ensures i < |delegates| ==> FirstAt(delegates, d, i)
      ensures i == |delegates| ==> Some(d) !in delegates
    {
      i := 0;
      while i < |delegates| && delegates[i] != Some(d)
        invariant i <= |delegates|
        invariant forall j | 0 <= j < i :: delegates[j] != Some(d)
      {
        i := i + 1;
      }
    }

    /** `MulticastRemove`. */
    method Remove(d: Delegate)
      requires Valid()
      modifies this
      ensures Valid() && broadcastCount == old(broadcastCount)
      ensures View(false) == Apply(old(View(false)), Op.Remove(d))
      ensures FirstGone(Held(old(delegates)), d, Held(delegates))
      ensures broadcastCount > 0 ==> Grown(old(delegates), old(tickets), delegates, tickets)
    {
      HeldIsLive(delegates, tickets);
      RemoveFirstGone(Live(delegates, tickets), d);
      Erase(d);
      HeldIsLive(delegates, tickets);
    }

    method Erase(d: Delegate)
      requires Valid()
      modifies this
      ensures Valid() && broadcastCount == old(broadcastCount)
      ensures View(false) == Apply(old(View(false)), Op.Remove(d))
      ensures broadcastCount > 0 ==> Grown(old(delegates), old(tickets), delegates, tickets)
    {
      var i := Find(d);
      if i == |delegates| {
        NoneBefore(delegates, tickets, d);
        return;
      }
      FirstRemoved(delegates, tickets, d, i);
      if broadcastCount > 0 {
        NulledWell(delegates, tickets, next, broadcastCount, cleanup, i);
        delegates := delegates[i := None];
        cleanup := true;
      } else {
        ErasedWell(delegates, tickets, next, i);
        delegates := delegates[..i] + delegates[i + 1..];
        tickets := tickets[..i] + tickets[i + 1..];
      }
    }

    /** `MulticastClear`. */
    method Clear()
      requires Valid()
      modifies this
      ensures Valid() && broadcastCount == old(broadcastCount)
      ensures View(false) == Apply(old(View(false)), Op.Clear) && Held(delegates) == []
      ensures broadcastCount > 0 ==> Grown(old(delegates), old(tickets), delegates, tickets)
      ensures broadcastCount == 0 ==> delegates == []
    {
      if broadcastCount > 0 {
        NullAll();
        cleanup := true;
        NullsAreDead(delegates, tickets);
      } else {
        delegates := [];
        tickets := [];
      }
      HeldIsLive(delegates, tickets);
    }

    method NullAll()
      modifies this`delegates
      ensures |delegates| == |old(delegates)| && forall j | 0 <= j < |delegates| :: delegates[j] == None
    {
      for i := 0 to |delegates|
        invariant |delegates| == |old(delegates)|
        invariant forall j | 0 <= j < i :: delegates[j] == None
      {
        delegates := delegates[i := None];
      }
    }

    /** `MulticastCopyFrom` and `MulticastAppendAndClear`: the non-null slots of another list are
        appended in order. */
    method Append(slots: seq<Slot>)
      requires Valid()
      modifies this
      ensures Valid() && broadcastCount == old(broadcastCount) && scripts == old(scripts) && calls == old(calls)
      ensures View(false).live == old(View(false)).live + Issued(Held(slots), old(next))
      ensures next == old(next) + |Held(slots)|
      ensures Grown(old(delegates), old(tickets), delegates, tickets)
    {
      var i := 0;
      while i < |slots|
        invariant i <= |slots| && Valid()
        invariant broadcastCount == old(broadcastCount) && scripts == old(scripts) && calls == old(calls)
        invariant View(false).live == old(View(false)).live + Issued(Held(slots[..i]), old(next))
        invariant next == old(next) + |Held(slots[..i])|
        invariant Grown(old(delegates), old(tickets), delegates, tickets)
      {
        AppendsOne(old(View(false)).live, slots, i, old(next));
        if slots[i].Some? {
          PushBack(slots[i].value);
        }
        i := i + 1;
      }
      assert slots[..i] == slots;
    }

    /** Copy assignment; the source is not in a broadcast of its own. */
    method CopyFrom(rhs: MulticastDelegate)
      requires Valid() && rhs.Valid() && (rhs != this ==> rhs.broadcastCount == 0)
      modifies this
      ensures Valid() && broadcastCount == old(broadcastCount)
      ensures rhs != this ==> View(false) == Apply(old(View(false)), CopyAssign(Held(rhs.delegates)))
      ensures rhs != this ==> Held(delegates) == Held(rhs.delegates) && rhs.delegates == old(rhs.delegates)
      ensures rhs == this ==> View(false) == old(View(false))
      ensures broadcastCount > 0 ==> Grown(old(delegates), old(tickets), delegates, tickets)
    {
      if rhs != this {
        CopySlots(rhs.delegates);
      }
    }

    method CopySlots(slots: seq<Slot>)
      requires Valid()
      modifies this
      ensures Valid() && broadcastCount == old(broadcastCount)
      ensures View(false) == Apply(old(View(false)), CopyAssign(Held(slots))) && Held(delegates) == Held(slots)
      ensures broadcastCount > 0 ==> Grown(old(delegates), old(tickets), delegates, tickets)
    {
      hide Live, Issued, Held;
      Clear();
      Append(slots);
      IssuedDelegates(Held(slots), old(next));
      HeldIsLive(delegates, tickets);
    }

    /** Move assignment; the source is not in a broadcast of its own, and is left empty. */
    method MoveFrom(rhs: MulticastDelegate)
      requires Valid() && rhs.Valid() && (rhs != this ==> rhs.broadcastCount == 0)
      modifies this, rhs
      ensures Valid() && rhs.Valid() && broadcastCount == old(broadcastCount)
      ensures rhs != this ==>
        View(false) == Apply(old(View(false)), MoveAssign(Held(old(rhs.delegates)))) && rhs.delegates == []
      ensures rhs != this ==> Held(delegates) == Held(old(rhs.delegates))
      ensures rhs == this ==> View(false) == old(View(false))
      ensures broadcastCount > 0 ==> Grown(old(delegates), old(tickets), delegates, tickets)
    {
      if rhs != this {
        ReplaceWith(rhs.delegates);
        IssuedDelegates(Held(rhs.delegates), old(next));
        HeldIsLive(delegates, tickets);
        rhs.delegates := [];
        rhs.tickets := [];
      }
    }

    method ReplaceWith(slots: seq<Slot>)
      requires Valid() && None !in slots
      modifies this
      ensures Valid() && broadcastCount == old(broadcastCount)
      ensures View(false) == Apply(old(View(false)), MoveAssign(Held(slots)))
      ensures broadcastCount > 0 ==> Grown(old(delegates), old(tickets), delegates, tickets)
    {
      hide Live, Issued, Held;
      Clear();
      if broadcastCount > 0 {
        Append(slots);
      } else {
        Take(slots);
      }
    }

    /** The list object of another container, which holds no nulls, becomes this one's. */
    method Take(slots: seq<Slot>)
      requires Valid() && broadcastCount == 0 && None !in slots
      modifies this
      ensures Valid() && broadcastCount == old(broadcastCount) && scripts == old(scripts) && calls == old(calls)
      ensures View(false).live == Issued(Held(slots), old(next)) && next == old(next) + |Held(slots)|
    {
      MovedIn(slots, next);
      delegates := slots;
      tickets, next := TicketRange(next, |slots|), next + |slots|;
    }

    /** `remove_if` over the null entries. */
    method Purge()
      requires Valid() && broadcastCount == 1
      modifies this
      ensures broadcastCount == 0 && Valid() && View(false) == old(View(false)) && None !in delegates
    {
      PurgedWell(delegates, tickets, next, cleanup);
      delegates, tickets := Purged(delegates), PurgedTickets(delegates, tickets);
      broadcastCount, cleanup := 0, false;
    }

    /** The guard's destructor. */
    method LeaveBroadcast()
      requires Valid() && broadcastCount > 0
      modifies this
      ensures Valid() && broadcastCount == old(broadcastCount) - 1 && View(false) == old(View(false))
      ensures broadcastCount > 0 ==> delegates == old(delegates) && tickets == old(tickets)
    {
      if broadcastCount == 1 && cleanup {
        Purge();
      } else {
        broadcastCount := broadcastCount - 1;
      }
    }

    /** `operator()`: calls the live subscriptions in order, whatever the callbacks do, and says
        whether a callback's exception ended it. */
    method Invoke() returns (threw: bool)
      requires Valid()
      modifies this
      ensures Valid() && broadcastCount == old(broadcastCount)
      ensures View(threw) == Pass(old(View(false)), 0)
      ensures broadcastCount > 0 ==> Grown(old(delegates), old(tickets), delegates, tickets)
      ensures broadcastCount == 0 ==> None !in delegates && !cleanup
      ensures old(scripts) == [] ==>
        && !threw && Held(delegates) == Held(old(delegates)) && old(calls) <= calls
        && Delegates(calls[|old(calls)|..]) == Held(old(delegates))
      decreases |scripts|, 2
    {
      SilentInvoke(delegates, tickets, View(false));
      broadcastCount := broadcastCount + 1;
      threw := Iterate();
      LeaveBroadcast();
      HeldIsLive(delegates, tickets);
    }

    method Iterate() returns (threw: bool)
      requires Valid() && broadcastCount > 0
      modifies this
      ensures Valid() && broadcastCount == old(broadcastCount)
      ensures View(threw) == Pass(old(View(false)), 0)
      ensures Grown(old(delegates), old(tickets), delegates, tickets)
      decreases |scripts|, 1
    {
      var i := 0;
      ghost var from := 0;
      threw := false;
      while i < |delegates| && !threw
        invariant Valid() && broadcastCount == old(broadcastCount) && |scripts| <= old(|scripts|)
        invariant At(tickets, i, from)
        invariant Pass(View(threw), from) == Pass(old(View(false)), 0)
        invariant Grown(old(delegates), old(tickets), delegates, tickets)
        decreases |scripts|, |delegates| - i
      {
        ghost var ts := tickets;
        PassStep(View(false), delegates, tickets, i, from);
        threw := Visit(i);
        MovesOn(ts, i, tickets);
        from := ts[i] + 1;
        i := i + 1;
      }
      if !threw {
        PassStep(View(false), delegates, tickets, i, from);
      }
    }

    /** One position of the iteration: the delegate there, if it is not null, is called. */
    method Visit(i: nat) returns (threw: bool)
      requires Valid() && broadcastCount > 0 && i < |delegates|
      modifies this
      ensures Valid() && broadcastCount == old(broadcastCount) && |scripts| <= old(|scripts|)
      ensures View(threw) == if old(delegates[i]).None? then old(View(false))
                             else Called(old(View(false)), Entry(old(tickets[i]), old(delegates[i]).value))
      ensures Grown(old(delegates), old(tickets), delegates, tickets)
      ensures |scripts| == old(|scripts|) ==> delegates == old(delegates)
      decreases |scripts|, 0
    {
      threw := false;
      var delegate := delegates[i];
      if delegate.Some? {
        calls := calls + [Entry(tickets[i], delegate.value)];
        if scripts != [] {
          var script := scripts[0];
          scripts := scripts[1..];
          threw := Perform(script);
        }
      }
    }

    /** What a callback does, up to a throw. */
    method Perform(ops: seq<Op>) returns (threw: bool)
      requires Valid()
      modifies this
      ensures Valid() && broadcastCount == old(broadcastCount) && |scripts| <= old(|scripts|)
      ensures View(threw) == RunScript(old(View(false)), ops)
      ensures broadcastCount > 0 ==> Grown(old(delegates), old(tickets), delegates, tickets)
      decreases |scripts|, 4, |ops|
    {
      threw := false;
      if ops != [] {
        threw := Operate(ops[0]);
        if !threw {
          threw := Perform(ops[1..]);
        }
      }
    }

    /** Assignment from another container that holds `ds`. */
    method AssignFrom(ds: seq<Delegate>, move: bool)
      requires Valid()
      modifies this
      ensures Valid() && broadcastCount == old(broadcastCount)
      ensures View(false) == Apply(old(View(false)), if move then MoveAssign(ds) else CopyAssign(ds))
      ensures broadcastCount > 0 ==> Grown(old(delegates), old(tickets), delegates, tickets)
    {
      var rhs := new MulticastDelegate.Holding(ds);
      if move {
        MoveFrom(rhs);
      } else {
        CopyFrom(rhs);
      }
    }

    method Operate(op: Op) returns (threw: bool)
      requires Valid()
      modifies this
      ensures Valid() && broadcastCount == old(broadcastCount) && |scripts| <= old(|scripts|)
      ensures View(threw) == Apply(old(View(false)), op)
      ensures broadcastCount > 0 ==> Grown(old(delegates), old(tickets), delegates, tickets)
      decreases |scripts|, 3
    {
      threw := op.Throw?;
      match op
      case Add(d) => PushBack(d);
      case Remove(d) => Remove(d);
      case Clear => Clear();
      case CopyAssign(ds) => AssignFrom(ds, false);
      case MoveAssign(ds) => AssignFrom(ds, true);
      case Broadcast => threw := Invoke();
      case Throw =>
    }
  }

  lemma {:induction false} HeldAll(slots: seq<Slot>, ds: seq<Delegate>)
    requires |slots| == |ds| && forall i | 0 <= i < |ds| :: slots[i] == Some(ds[i])
    ensures Held(slots) == ds && None !in slots
  {
    if ds != [] {
      HeldAll(slots[..|ds| - 1], ds[..|ds| - 1]);
    }
  }
}
