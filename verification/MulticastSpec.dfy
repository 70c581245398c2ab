/**
 * What a multicast delegate means, without its bookkeeping: a plain sequence of subscriptions,
 * each with a ticket that is never used again. A broadcast repeatedly calls the first subscription
 * whose ticket it has not reached yet; the callback may do anything to the container, including
 * broadcasting again or throwing.
 */
module MulticastSpec {
  import opened Common

  /** Equal delegates are equal values. */
  type Delegate = nat

  datatype Op =
    | Add(d: Delegate)
    | Remove(d: Delegate)
    | Clear
    | CopyAssign(ds: seq<Delegate>)
    | MoveAssign(ds: seq<Delegate>)
    | Broadcast
    | Throw

  datatype Entry = Entry(ticket: nat, d: Delegate)

  /** The subscriptions, the calls made so far, and what the next callbacks are going to do. */
  datatype State = State(live: seq<Entry>, next: nat, calls: seq<Entry>, scripts: seq<seq<Op>>, thrown: bool)

  predicate Ascending(ts: seq<nat>) {
    forall i, j | 0 <= i < j < |ts| :: ts[i] < ts[j]
  }

  ghost predicate Ticketed(live: seq<Entry>, next: nat) {
    forall i | 0 <= i < |live| :: live[i].ticket < next
  }

  function RemoveFirst(live: seq<Entry>, d: Delegate): seq<Entry> {
    if live == [] then []
    else if live[0].d == d then live[1..]
    else [live[0]] + RemoveFirst(live[1..], d)
  }

  function Issued(ds: seq<Delegate>, next: nat): seq<Entry> {
    if ds == [] then [] else [Entry(next, ds[0])] + Issued(ds[1..], next + 1)
  }

  /** The first subscription with a ticket of at least `from`. */
  function NextFrom(live: seq<Entry>, from: nat): Option<Entry> {
    if live == [] then None
    else if live[0].ticket >= from then Some(live[0])
    else NextFrom(live[1..], from)
  }

  lemma {:induction false} NextFromIsLive(live: seq<Entry>, from: nat)
    ensures NextFrom(live, from).Some? ==>
      NextFrom(live, from).value in live && NextFrom(live, from).value.ticket >= from
    ensures NextFrom(live, from).None? ==> forall e | e in live :: e.ticket < from
  {
    if live != [] && live[0].ticket < from {
      NextFromIsLive(live[1..], from);
      assert live == [live[0]] + live[1..];
    }
  }

  lemma {:induction false} RemoveFirstTicketed(live: seq<Entry>, d: Delegate, next: nat)
    requires Ticketed(live, next)
    ensures Ticketed(RemoveFirst(live, d), next)
    ensures forall e | e in RemoveFirst(live, d) :: e in live
  {
    if live != [] && live[0].d != d {
      RemoveFirstTicketed(live[1..], d, next);
    }
  }

  lemma {:induction false} IssuedTicketed(ds: seq<Delegate>, next: nat)
    ensures Ticketed(Issued(ds, next), next + |ds|)
    ensures forall e | e in Issued(ds, next) :: next <= e.ticket
  {
    if ds != [] {
      IssuedTicketed(ds[1..], next + 1);
    }
  }

  function Assigned(a: State, ds: seq<Delegate>): State {
    a.(live := Issued(ds, a.next), next := a.next + |ds|)
  }

  /** One operation on the container. */
  function Apply(a: State, op: Op): (r: State)
    requires Ticketed(a.live, a.next)
    ensures Ticketed(r.live, r.next) && |r.scripts| <= |a.scripts|
    decreases |a.scripts|, 2, 0
  {
    match op
    case Add(d) => a.(live := a.live + [Entry(a.next, d)], next := a.next + 1)
    case Remove(d) =>
      RemoveFirstTicketed(a.live, d, a.next);
      a.(live := RemoveFirst(a.live, d))
    case Clear => a.(live := [])
    case CopyAssign(ds) =>
      IssuedTicketed(ds, a.next);
      Assigned(a, ds)
    case MoveAssign(ds) =>
      IssuedTicketed(ds, a.next);
      Assigned(a, ds)
    case Broadcast => Pass(a, 0)
    case Throw => a.(thrown := true)
  }

  /** A callback's operations, up to a throw. */
  function RunScript(a: State, ops: seq<Op>): (r: State)
    requires Ticketed(a.live, a.next)
    ensures Ticketed(r.live, r.next) && |r.scripts| <= |a.scripts|
    decreases |a.scripts|, 3, |ops|
  {
    if ops == [] || a.thrown then a else RunScript(Apply(a, ops[0]), ops[1..])
  }

  /** The subscription `e` is called, and does what its script says. */
  function Called(a: State, e: Entry): (r: State)
    requires Ticketed(a.live, a.next)
    ensures Ticketed(r.live, r.next) && |r.scripts| <= |a.scripts|
    ensures a.scripts != [] ==> |r.scripts| < |a.scripts|
    ensures a.scripts == [] ==> r == a.(calls := a.calls + [e])
    decreases |a.scripts|, 0, 0
  {
    var a' := a.(calls := a.calls + [e]);
    if a.scripts == [] then a' else RunScript(a'.(scripts := a.scripts[1..]), a.scripts[0])
  }

  /** The rest of a broadcast that has reached all tickets below `from`. */
  function Pass(a: State, from: nat): (r: State)
    requires Ticketed(a.live, a.next)
    ensures Ticketed(r.live, r.next) && |r.scripts| <= |a.scripts|
    decreases |a.scripts|, 1, if a.next > from then a.next - from else 0
  {
    NextFromIsLive(a.live, from);
    var e := NextFrom(a.live, from);
    if a.thrown || e.None? then a else Pass(Called(a, e.value), e.value.ticket + 1)
  }

  ghost predicate Sorted(live: seq<Entry>) {
    forall i, j | 0 <= i < j < |live| :: live[i].ticket < live[j].ticket
  }

  lemma {:induction false} RemoveFirstSorted(live: seq<Entry>, d: Delegate, next: nat)
    requires Sorted(live) && Ticketed(live, next)
    ensures Sorted(RemoveFirst(live, d))
  {
    if live != [] && live[0].d != d {
      RemoveFirstSorted(live[1..], d, next);
      RemoveFirstTicketed(live[1..], d, next);
      var rest := RemoveFirst(live[1..], d);
      forall j | 0 <= j < |rest|
        ensures live[0].ticket < rest[j].ticket
      {
        assert rest[j] in live[1..];
      }
    }
  }

  lemma {:induction false} IssuedSorted(ds: seq<Delegate>, next: nat)
    ensures Sorted(Issued(ds, next))
  {
    if ds != [] {
      IssuedSorted(ds[1..], next + 1);
      IssuedTicketed(ds[1..], next + 1);
    }
  }

  /** Subscriptions may go and new ones may come, but none comes back; calls are never undone. */
  ghost predicate Onward(a: State, r: State) {
    && a.next <= r.next && a.calls <= r.calls
    && (forall e | e in r.live :: e in a.live || e.ticket >= a.next)
    && (Sorted(a.live) ==> Sorted(r.live))
  }

  lemma OnwardTrans(a: State, b: State, c: State)
    requires Onward(a, b) && Onward(b, c)
    ensures Onward(a, c)
  {
  }

  lemma {:induction false} ApplyOnward(a: State, op: Op)
    requires Ticketed(a.live, a.next)
    ensures Onward(a, Apply(a, op))
    decreases |a.scripts|, 2, 0
  {
    match op
    case Remove(d) =>
      RemoveFirstTicketed(a.live, d, a.next);
      if Sorted(a.live) {
        RemoveFirstSorted(a.live, d, a.next);
      }
    case CopyAssign(ds) =>
      IssuedTicketed(ds, a.next);
      IssuedSorted(ds, a.next);
    case MoveAssign(ds) =>
      IssuedTicketed(ds, a.next);
      IssuedSorted(ds, a.next);
    case Broadcast => PassOnward(a, 0);
    case _ =>
  }

  lemma {:induction false} RunScriptOnward(a: State, ops: seq<Op>)
    requires Ticketed(a.live, a.next)
    ensures Onward(a, RunScript(a, ops))
    decreases |a.scripts|, 3, |ops|
  {
    if ops != [] && !a.thrown {
      ApplyOnward(a, ops[0]);
      RunScriptOnward(Apply(a, ops[0]), ops[1..]);
      OnwardTrans(a, Apply(a, ops[0]), RunScript(a, ops));
    }
  }

  lemma {:induction false} CalledOnward(a: State, e: Entry)
    requires Ticketed(a.live, a.next)
    ensures Onward(a, Called(a, e)) && a.calls + [e] <= Called(a, e).calls
    decreases |a.scripts|, 0, 0
  {
    var a' := a.(calls := a.calls + [e]);
    if a.scripts != [] {
      RunScriptOnward(a'.(scripts := a.scripts[1..]), a.scripts[0]);
    }
  }

  lemma {:induction false} PassOnward(a: State, from: nat)
    requires Ticketed(a.live, a.next)
    ensures Onward(a, Pass(a, from))
    decreases |a.scripts|, 1, if a.next > from then a.next - from else 0
  {
    NextFromIsLive(a.live, from);
    var e := NextFrom(a.live, from);
    if !a.thrown && e.Some? {
      CalledOnward(a, e.value);
      PassOnward(Called(a, e.value), e.value.ticket + 1);
      OnwardTrans(a, Called(a, e.value), Pass(a, from));
    }
  }

  /** Before the next subscription of a sorted sequence there is none still to reach. */
  lemma {:induction false} NextIsLeast(live: seq<Entry>, from: nat, e: Entry)
    requires Sorted(live) && e in live && from <= e.ticket
    ensures NextFrom(live, from).Some? && NextFrom(live, from).value.ticket <= e.ticket
    ensures NextFrom(live, from).value.ticket == e.ticket ==> NextFrom(live, from).value == e
  {
    if live[0].ticket < from {
      NextIsLeast(live[1..], from, e);
    }
  }

  ghost predicate CalledSince(a: State, r: State, e: Entry) {
    exists i :: |a.calls| <= i < |r.calls| && r.calls[i] == e
  }

  lemma CalledEarlier(a: State, b: State, r: State, e: Entry)
    requires Onward(a, b) && CalledSince(b, r, e)
    ensures CalledSince(a, r, e)
  {
    assert |a.calls| <= |b.calls|;
  }

  /** A pass calls the subscription it reaches next, and then goes on behind it. */
  lemma PassUnfolds(a: State, from: nat)
    requires Ticketed(a.live, a.next) && !a.thrown && NextFrom(a.live, from).Some?
    ensures var e := NextFrom(a.live, from).value;
            && Pass(a, from) == Pass(Called(a, e), e.ticket + 1) && Ticketed(Called(a, e).live, Called(a, e).next)
            && Onward(a, Called(a, e)) && Onward(Called(a, e), Pass(a, from)) && CalledSince(a, Pass(a, from), e)
  {
    var e := NextFrom(a.live, from).value;
    CalledOnward(a, e);
    PassOnward(Called(a, e), e.ticket + 1);
    assert Pass(a, from).calls[|a.calls|] == e;
  }

  lemma {:induction false} SurvivorCalled(a: State, from: nat, e: Entry, r: State)
    requires Ticketed(a.live, a.next) && Sorted(a.live)
    requires r == Pass(a, from)
    requires !r.thrown && e in r.live && from <= e.ticket
    ensures CalledSince(a, r, e)
    decreases |a.scripts|, 1, if a.next > from then a.next - from else 0
  {
    hide Pass, NextFrom, Sorted, CalledSince;
    NextFromIsLive(a.live, from);
    if a.thrown || NextFrom(a.live, from).None? {
      PassEnds(a, from);
      if !a.thrown {
        NextIsLeast(a.live, from, e);
      }
    } else {
      var n := NextFrom(a.live, from).value;
      PassUnfolds(a, from);
      if n.ticket < e.ticket {
        SurvivorCalled(Called(a, n), n.ticket + 1, e, r);
        CalledEarlier(a, Called(a, n), r, e);
      } else {
        NextIsLeast(a.live, from, e);
      }
    }
  }

  /** A broadcast that no exception ends has called every subscription that is there when it
      ends, those added while it ran included, whatever the callbacks did. */
  lemma SurvivorsCalled(a: State)
    requires Ticketed(a.live, a.next) && Sorted(a.live) && !Pass(a, 0).thrown
    ensures forall e | e in Pass(a, 0).live :: CalledSince(a, Pass(a, 0), e)
  {
    forall e | e in Pass(a, 0).live
      ensures CalledSince(a, Pass(a, 0), e)
    {
      SurvivorCalled(a, 0, e, Pass(a, 0));
    }
  }

  /** With callbacks that do nothing, a broadcast calls all subscriptions, in order, once. */
  lemma {:induction false} QuietPass(a: State, i: nat, from: nat)
    requires Ticketed(a.live, a.next) && Sorted(a.live) && a.scripts == [] && !a.thrown
    requires i <= |a.live| && (i > 0 ==> a.live[i - 1].ticket < from) && (i < |a.live| ==> from <= a.live[i].ticket)
    ensures Pass(a, from) == a.(calls := a.calls + a.live[i..])
    decreases |a.live| - i
  {
    hide *;
    SkipsTo(a.live, i, from);
    if i < |a.live| {
      PassUnfolds(a, from);
      NextTicket(a.live, i);
      QuietPass(Called(a, a.live[i]), i + 1, a.live[i].ticket + 1);
      assert a.calls + [a.live[i]] + a.live[i + 1..] == a.calls + a.live[i..];
    } else {
      PassEnds(a, from);
      assert a.calls + a.live[i..] == a.calls;
    }
  }

  lemma NextTicket(live: seq<Entry>, i: nat)
    requires Sorted(live) && i < |live|
    ensures i + 1 < |live| ==> live[i].ticket + 1 <= live[i + 1].ticket
  {
  }

  lemma PassEnds(a: State, from: nat)
    requires Ticketed(a.live, a.next) && (a.thrown || NextFrom(a.live, from).None?)
    ensures Pass(a, from) == a
  {
  }

  lemma {:induction false} SkipsTo(live: seq<Entry>, i: nat, from: nat)
    requires Sorted(live) && i <= |live|
    requires (i > 0 ==> live[i - 1].ticket < from) && (i < |live| ==> from <= live[i].ticket)
    ensures NextFrom(live, from) == if i < |live| then Some(live[i]) else None
  {
    if i > 0 {
      assert live[0].ticket < from;
      SkipsTo(live[1..], i - 1, from);
    }
  }

  /** The delegates of a sequence of subscriptions. */
  function Delegates(live: seq<Entry>): seq<Delegate> {
    seq(|live|, i requires 0 <= i < |live| => live[i].d)
  }

  /** The first delegate equal to `d` is at `i`, and is taken out. */
  ghost predicate GoneAt(before: seq<Delegate>, d: Delegate, after: seq<Delegate>, i: nat) {
    i < |before| && before[i] == d && d !in before[..i] && after == before[..i] + before[i + 1..]
  }

  /** A list of delegates after the first one equal to `d`, if any, is gone. */
  ghost predicate FirstGone(before: seq<Delegate>, d: Delegate, after: seq<Delegate>) {
    if d in before then exists i: nat :: GoneAt(before, d, after, i) else after == before
  }

  lemma GoneAtNext(x: Delegate, tail: seq<Delegate>, d: Delegate, left: seq<Delegate>, i: nat)
    requires x != d && GoneAt(tail, d, left, i)
    ensures GoneAt([x] + tail, d, [x] + left, i + 1)
  {
    var before := [x] + tail;
    assert before[..i + 1] == [x] + tail[..i];
    assert before[i + 2..] == tail[i + 1..];
    assert [x] + left == [x] + tail[..i] + tail[i + 1..];
  }

  lemma GoneBehind(x: Delegate, tail: seq<Delegate>, d: Delegate, left: seq<Delegate>)
    requires x != d && FirstGone(tail, d, left)
    ensures FirstGone([x] + tail, d, [x] + left)
  {
    hide GoneAt;
    if d in tail {
      var i: nat :| GoneAt(tail, d, left, i);
      GoneAtNext(x, tail, d, left, i);
    }
  }

  lemma {:induction false} RemoveFirstGone(live: seq<Entry>, d: Delegate)
    ensures FirstGone(Delegates(live), d, Delegates(RemoveFirst(live, d)))
  {
    var before, after := Delegates(live), Delegates(RemoveFirst(live, d));
    if live != [] && live[0].d == d {
      assert before[..0] == [] && after == before[1..];
      assert GoneAt(before, d, after, 0);
    } else if live != [] {
      RemoveFirstGone(live[1..], d);
      assert before == [live[0].d] + Delegates(live[1..]);
      assert after == [live[0].d] + Delegates(RemoveFirst(live[1..], d));
      GoneBehind(live[0].d, Delegates(live[1..]), d, Delegates(RemoveFirst(live[1..], d)));
    }
  }

  lemma {:induction false} IssuedDelegates(ds: seq<Delegate>, next: nat)
    ensures Delegates(Issued(ds, next)) == ds
  {
    if ds != [] {
      IssuedDelegates(ds[1..], next + 1);
      assert Delegates(Issued(ds, next)) == [ds[0]] + Delegates(Issued(ds[1..], next + 1));
    }
  }

  /** What an operation that calls nothing does to the list of delegates. */
  ghost predicate Did(before: seq<Delegate>, op: Op, after: seq<Delegate>) {
    match op
    case Add(d) => after == before + [d]
    case Remove(d) => FirstGone(before, d, after)
    case Clear => after == []
    case CopyAssign(ds) => after == ds
    case MoveAssign(ds) => after == ds
    case Broadcast => true
    case Throw => after == before
  }

  /** Each operation leaves the delegates that a plain list would hold, calls nothing, and a throw is
      the only one that throws. */
  lemma AppliedDelegates(a: State, op: Op)
    requires Ticketed(a.live, a.next) && !op.Broadcast?
    ensures var r := Apply(a, op);
            && Did(Delegates(a.live), op, Delegates(r.live))
            && r.calls == a.calls && r.scripts == a.scripts && r.thrown == (a.thrown || op.Throw?)
  {
    match op
    case Add(d) => assert Delegates(a.live + [Entry(a.next, d)]) == Delegates(a.live) + [d];
    case Remove(d) => RemoveFirstGone(a.live, d);
    case CopyAssign(ds) => IssuedDelegates(ds, a.next);
    case MoveAssign(ds) => IssuedDelegates(ds, a.next);
    case _ =>
  }

  /** A broadcast whose callbacks do nothing calls exactly the delegates held, in order. */
  lemma QuietBroadcast(a: State)
    requires Ticketed(a.live, a.next) && Sorted(a.live) && a.scripts == [] && !a.thrown
    ensures var r := Pass(a, 0);
            && r.live == a.live && !r.thrown && |r.calls| == |a.calls| + |a.live| && a.calls <= r.calls
            && Delegates(r.calls[|a.calls|..]) == Delegates(a.live)
  {
    QuietPass(a, 0, 0);
  }

  /** The subscription called next does what the next script says, operation by operation. */
  lemma CalledRunsScript(a: State, e: Entry)
    requires Ticketed(a.live, a.next) && a.scripts != []
    ensures Called(a, e) == RunScript(a.(calls := a.calls + [e], scripts := a.scripts[1..]), a.scripts[0])
  {
  }

  lemma {:induction false} ScriptGoesOn(a: State, ops: seq<Op>, more: seq<Op>)
    requires Ticketed(a.live, a.next)
    ensures RunScript(a, ops + more) == RunScript(RunScript(a, ops), more)
    decreases |ops|
  {
    if ops == [] {
      assert ops + more == more;
    } else if !a.thrown {
      assert (ops + more)[1..] == ops[1..] + more;
      ScriptGoesOn(Apply(a, ops[0]), ops[1..], more);
    } else {
      ThrownStops(a, ops);
      ThrownStops(a, ops + more);
      ThrownStops(a, more);
    }
  }

  /** After a throw nothing more of a script runs. */
  lemma ThrownStops(a: State, ops: seq<Op>)
    requires Ticketed(a.live, a.next) && a.thrown
    ensures RunScript(a, ops) == a
  {
  }

  /** The lists that arise as operations that call nothing are done one after the other. */
  ghost predicate Listed(lists: seq<seq<Delegate>>, ops: seq<Op>) {
    |lists| == |ops| + 1 && forall i | 0 <= i < |ops| :: Did(lists[i], ops[i], lists[i + 1])
  }

  predicate Plain(ops: seq<Op>) {
    forall op | op in ops :: !op.Broadcast? && !op.Throw?
  }

  /** A callback that does not broadcast or throw does to the delegates what its operations, all of
      them and in order, do to a plain list; a throw behind them keeps that and ends the callback. */
  lemma {:induction false} ScriptDoesAll(a: State, ops: seq<Op>, more: seq<Op>) returns (lists: seq<seq<Delegate>>)
    requires Ticketed(a.live, a.next) && !a.thrown && Plain(ops)
    ensures Listed(lists, ops) && lists[0] == Delegates(a.live)
    ensures var r := RunScript(a, ops);
            && lists[|ops|] == Delegates(r.live) && r.calls == a.calls && r.scripts == a.scripts && !r.thrown
            && RunScript(a, ops + [Throw] + more) == r.(thrown := true)
    decreases |ops|
  {
    if ops == [] {
      lists := [Delegates(a.live)];
      assert [] + [Throw] + more == [Throw] + more && ([Throw] + more)[1..] == more;
      ThrownStops(Apply(a, Throw), more);
    } else {
      var b := Apply(a, ops[0]);
      AppliedDelegates(a, ops[0]);
      var rest := ScriptDoesAll(b, ops[1..], more);
      lists := [Delegates(a.live)] + rest;
      assert (ops + [Throw] + more)[1..] == ops[1..] + [Throw] + more;
    }
  }

  /** A callback that broadcasts runs a whole broadcast of the container as it is then. */
  lemma NestedBroadcast(a: State, ops: seq<Op>)
    requires Ticketed(a.live, a.next) && !a.thrown
    ensures RunScript(a, [Broadcast] + ops) == RunScript(Pass(a, 0), ops)
  {
    assert ([Broadcast] + ops)[1..] == ops;
  }
}
