/**
 * Software timers in one intrusive list: `Start`, `Stop`, the destructor, `CheckExpired` and the
 * drain of `ProcessTimers`, whose callbacks start, stop and destroy timers. The clock stands
 * still while timers are processed; what happens to the timers is proved against `TimerSpec`.
 */
module Timers {
  import opened TimerSpec

  class Timer {
    var next: Timer?
    var enabled: bool
    var expireTime: int
    var timeout: int
    var once: bool
    ghost var shots: nat

    constructor ()
      ensures next == null && Value() == Data(false, 0, 0, false, 0)
    {
      next, enabled, expireTime, timeout, once, shots := null, false, 0, 0, false, 0;
    }

    ghost function Value(): Data
      reads this
    {
      Data(enabled, expireTime, timeout, once, shots)
    }

    method Arm(now: int, timeout: int, once: bool)
      modifies this`enabled, this`expireTime, this`timeout, this`once, this`shots
      ensures Value() == Started(now, timeout, once)
    {
      this.timeout := timeout;
      this.once := once;
      expireTime := now + timeout;
      enabled := true;
      shots := 0;
    }

    method Disarm()
      modifies this`enabled
      ensures Value() == old(Value()).(enabled := false)
    {
      enabled := false;
    }

    /** `CheckExpired`. */
    method CheckExpired(now: int) returns (expired: bool, stopped: bool)
      modifies this`enabled, this`expireTime, this`shots
      ensures expired == old(Due(Value(), now))
      ensures Value() == if expired then Fired(old(Value()), now) else old(Value())
      ensures stopped == (expired && once)
    {
      expired, stopped := false, false;
      if !enabled || now < expireTime {
        return;
      }
      if once {
        enabled := false;
        stopped := true;
      } else {
        expireTime := expireTime + timeout;
        if now > expireTime {
          expireTime := now;
        }
      }
      shots := shots + 1;
      expired := true;
    }
  }

  /** What a callback can do to the timers. */
  datatype Op =
    | StartOp(t: Timer, timeout: int, once: bool)
    | StopOp(t: Timer)
    | DestroyOp(t: Timer)

  /** The element at `i`, or null behind the last one. */
  ghost function At(list: seq<Timer>, i: nat): Timer? {
    if i < |list| then list[i] else null
  }

  /** The pointers form exactly this list. */
  ghost predicate Linked(head: Timer?, list: seq<Timer>)
    reads list
  {
    head == At(list, 0) && forall i | 0 <= i < |list| :: list[i].next == At(list, i + 1)
  }

  ghost predicate Distinct(list: seq<Timer>) {
    forall i, j | 0 <= i < j < |list| :: list[i] != list[j]
  }

  /** The list without `t`. */
  ghost function Except(list: seq<Timer>, t: Timer): seq<Timer> {
    if list == [] then [] else if list[0] == t then list[1..] else [list[0]] + Except(list[1..], t)
  }

  /** `t` is not among the first `i`: it is found there, or nowhere. */
  lemma {:induction false} ExceptAt(list: seq<Timer>, i: nat, t: Timer)
    requires i <= |list| && (forall j | 0 <= j < i :: list[j] != t) && (i < |list| ==> list[i] == t)
    ensures Except(list, t) == if i < |list| then list[..i] + list[i + 1..] else list
  {
    if i > 0 {
      ExceptAt(list[1..], i - 1, t);
      assert [list[0]] + list[1..] == list;
      assert i < |list| ==> [list[0]] + (list[1..][..i - 1] + list[1..][i..]) == list[..i] + list[i + 1..];
    }
  }

  lemma {:induction false} ExceptMembers(list: seq<Timer>, t: Timer)
    requires Distinct(list)
    ensures forall x | x in Except(list, t) :: x in list && x != t
    ensures forall x | x in list && x != t :: x in Except(list, t)
  {
    if list != [] {
      ExceptMembers(list[1..], t);
      assert list == [list[0]] + list[1..];
    }
  }

  ghost function ViewOf(alive: set<Timer>): map<Timer, Data>
    reads alive
  {
    map t | t in alive :: t.Value()
  }

  /** Enabled timers are listed; a listed timer that is not enabled has raised the stop flag. */
  ghost predicate Tracked(view: map<Timer, Data>, list: seq<Timer>, stopped: bool) {
    && (forall t | t in list :: t in view)
    && (forall t | t in view && view[t].enabled :: t in list)
    && (forall t | t in list && t in view && !view[t].enabled :: stopped)
  }

  lemma StartedTracked(view: map<Timer, Data>, list: seq<Timer>, stopped: bool, t: Timer, d: Data)
    requires Tracked(view, list, stopped) && AllSound(view) && t in view && d.enabled && Sound(d)
    ensures Tracked(view[t := d], if t in list then list else [t] + list, stopped)
    ensures AllSound(view[t := d])
  {
  }

  lemma DisabledTracked(view: map<Timer, Data>, list: seq<Timer>, stopped: bool, t: Timer)
    requires Tracked(view, list, stopped) && AllSound(view) && t in view
    ensures Tracked(view[t := view[t].(enabled := false)], list, true)
    ensures AllSound(view[t := view[t].(enabled := false)])
  {
  }

  lemma DestroyedTracked(view: map<Timer, Data>, list: seq<Timer>, stopped: bool, t: Timer)
    requires Tracked(view, list, stopped) && AllSound(view) && t in view && Distinct(list)
    ensures Tracked(view - {t}, Except(list, t), stopped)
    ensures AllSound(view - {t}) && t !in Except(list, t)
    ensures forall x | x in Except(list, t) :: x in list
  {
    ExceptMembers(list, t);
    var left := Except(list, t);
    forall x | x in left
      ensures x in view - {t} && (!(view - {t})[x].enabled ==> stopped)
    {
      assert x in list && x in view;
    }
  }

  /** What one operation of a callback makes of the timers: those that no longer exist are left alone, and
      a start that is refused changes nothing. */
  ghost function Acted(v: map<Timer, Data>, op: Op, now: int): map<Timer, Data> {
    if op.t !in v then v
    else
      match op
      case StartOp(t, timeout, once) => if timeout > 0 then v[t := Started(now, timeout, once)] else v
      case StopOp(t) => v[t := v[t].(enabled := false)]
      case DestroyOp(t) => v - {t}
  }

  ghost function Scripted(v: map<Timer, Data>, ops: seq<Op>, now: int): map<Timer, Data> {
    if ops == [] then v else Acted(Scripted(v, ops[..|ops| - 1], now), ops[|ops| - 1], now)
  }

  /** `n` callbacks in a row, each with the next script as long as there are some. */
  ghost function Called(v: map<Timer, Data>, scripts: seq<seq<Op>>, n: nat, now: int): map<Timer, Data> {
    if n == 0 then v
    else if n > |scripts| then Called(v, scripts, n - 1, now)
    else Scripted(Called(v, scripts, n - 1, now), scripts[n - 1], now)
  }

  function Left(scripts: nat, calls: nat): nat {
    if scripts > calls then scripts - calls else 0
  }

  /** The last operation of a script on a timer decides what becomes of it, if it still exists then. */
  lemma {:induction false} LastActDecides(v: map<Timer, Data>, ops: seq<Op>, i: nat, now: int)
    requires i < |ops| && forall j | i < j < |ops| :: ops[j].t != ops[i].t
    ensures var t, after, was := ops[i].t, Scripted(v, ops, now), Scripted(v, ops[..i], now);
            if t !in was then t !in after
            else match ops[i]
                 case StartOp(_, timeout, once) =>
                   t in after && if timeout > 0 then StartedAt(after[t], now, timeout, once) else after[t] == was[t]
                 case StopOp(_) => t in after && after[t] == was[t].(enabled := false)
                 case DestroyOp(_) => t !in after
  {
    var n := |ops| - 1;
    if i < n {
      assert ops[..n][..i] == ops[..i];
      LastActDecides(v, ops[..n], i, now);
    }
  }

  /** A timer that a script does not name stays as it is. */
  lemma {:induction false} UnnamedStays(v: map<Timer, Data>, ops: seq<Op>, t: Timer, now: int)
    requires !Names(ops, t)
    ensures t in Scripted(v, ops, now) <==> t in v
    ensures t in v ==> Scripted(v, ops, now)[t] == v[t]
  {
    if ops != [] {
      var n := |ops| - 1;
      assert forall op | op in ops[..n] :: op in ops;
      assert ops[n] in ops;
      UnnamedStays(v, ops[..n], t, now);
    }
  }

  class TimerService {
    var head: Timer?
    var timerStopped: bool
    var now: int
    /** What the callbacks still to be called are going to do, one script each. */
    var scripts: seq<seq<Op>>
    ghost const universe: seq<Timer>
    /** The timer objects that exist. */
    var alive: set<Timer>
    ghost var list: seq<Timer>
    ghost var invoked: seq<Timer>

    constructor (timers: seq<Timer>)
      requires forall t | t in timers :: t.Value() == Data(false, 0, 0, false, 0)
      ensures Valid() && universe == timers && list == []
    {
      head, timerStopped, now, scripts := null, false, 0, [];
      universe := timers;
      alive, list, invoked := set t | t in timers, [], [];
    }

    ghost function View(): map<Timer, Data>
      reads this, alive
    {
      ViewOf(alive)
    }

    /** The list is what the pointers say, without repetition. */
    ghost predicate Chained()
      reads this, list
    {
      Distinct(list) && Linked(head, list)
    }

    ghost predicate Valid()
      reads this, universe, alive, list
    {
      && (forall t | t in alive :: t in universe)
      && (forall t | t in list :: t in alive)
      && Chained()
      && Tracked(View(), list, timerStopped) && AllSound(View())
    }

    /** Is the timer in the list? The search loop of `Start`. */
    method Contains(t: Timer) returns (found: bool)
      requires Chained()
      ensures found <==> t in list
    {
      var p := head;
      ghost var i := 0;
      found := false;
      while p != null
        invariant i <= |list| && p == At(list, i) && !found
        invariant forall j | 0 <= j < i :: list[j] != t
        decreases |list| - i
      {
        if p == t {
          found := true;
          return;
        }
        p := p.next;
        i := i + 1;
      }
    }

    method Link(t: Timer)
      requires Chained() && t !in list
      modifies this`head, this`list, t`next
      ensures Chained() && list == [t] + old(list)
    {
      t.next := head;
      head := t;
      list := [t] + list;
    }

    method ArmIn(t: Timer, timeout: int, once: bool)
      requires Chained() && t in alive
      modifies t`enabled, t`expireTime, t`timeout, t`once, t`shots
      ensures Chained() && View() == old(View())[t := Started(now, timeout, once)]
    {
      t.Arm(now, timeout, once);
      assert forall x | x in alive && x != t :: x.Value() == old(x.Value());
    }

    method Enlist(t: Timer)
      requires Chained() && t in alive
      modifies this`head, this`list, t`next
      ensures Chained() && View() == old(View()) && list == if t in old(list) then old(list) else [t] + old(list)
    {
      var found := Contains(t);
      if !found {
        Link(t);
      }
    }

    /** `Start`; a timeout that is not positive is refused. */
    method Start(t: Timer, timeout: int, once: bool) returns (ok: bool)
      requires Valid() && t in alive
      modifies this`head, this`list, t
      ensures Valid() && ok == (timeout > 0)
      ensures ok ==> View().Keys == old(View()).Keys && StartedAt(View()[t], now, timeout, once)
      ensures forall x | x in View() && x != t :: x in old(View()) && View()[x] == old(View())[x]
      ensures View() == if ok then old(View())[t := Started(now, timeout, once)] else old(View())
    {
      ok := timeout > 0;
      if !ok {
        return;
      }
      StartedTracked(View(), list, timerStopped, t, Started(now, timeout, once));
      ArmIn(t, timeout, once);
      Enlist(t);
    }

    /** `Stop`: the timer leaves the list at the next pass. */
    method Stop(t: Timer)
      requires Valid() && t in alive
      modifies this`timerStopped, t`enabled
      ensures Valid() && View() == old(View())[t := old(View())[t].(enabled := false)]
      ensures timerStopped && list == old(list)
    {
      DisabledTracked(View(), list, timerStopped, t);
      DisarmIn(t);
      timerStopped := true;
    }

    method DisarmIn(t: Timer)
      requires Chained() && t in alive
      modifies t`enabled
      ensures Chained() && View() == old(View())[t := old(View())[t].(enabled := false)]
    {
      t.Disarm();
      assert forall x | x in alive && x != t :: x.Value() == old(x.Value());
    }

    /** Takes the element at `i` out of the chain; `prev` is the one before it. */
    method RemoveAt(prev: Timer?, cur: Timer, ghost i: nat)
      requires Chained() && i < |list| && cur == list[i] && prev == if i == 0 then null else list[i - 1]
      modifies this`head, this`list, list
      ensures Chained() && list == old(list[..i] + list[i + 1..])
      ensures forall x | x in old(list) :: x.Value() == old(x.Value())
    {
      var next := cur.next;
      cur.next := null;
      if prev == null {
        head := next;
      } else {
        prev.next := next;
      }
      list := list[..i] + list[i + 1..];
    }

    /** The list surgery of the destructor. */
    method Unlink(t: Timer)
      requires Chained()
      modifies this`head, this`list, list
      ensures Chained() && t !in list && list == Except(old(list), t)
      ensures forall x | x in old(list) :: x.Value() == old(x.Value())
    {
      var prev: Timer? := null;
      var cur := head;
      ghost var i := 0;
      while cur != null && cur != t
        invariant i <= |list| && list == old(list) && Chained()
        invariant cur == At(list, i) && prev == if i == 0 then null else list[i - 1]
        invariant forall j | 0 <= j < i :: list[j] != t
        decreases |list| - i
      {
        prev := cur;
        cur := cur.next;
        i := i + 1;
      }
      ExceptAt(list, i, t);
      if cur != null {
        RemoveAt(prev, cur, i);
      }
    }

    /** The destructor. */
    method Destroy(t: Timer)
      requires Valid() && t in alive
      modifies this`head, this`list, this`alive, list
      ensures Valid() && View() == old(View()) - {t}
      ensures t !in list && list == Except(old(list), t)
    {
      DestroyedTracked(View(), list, timerStopped, t);
      Unlink(t);
      alive := alive - {t};
      assert View() == old(View()) - {t};
    }

    /** The removal of stopped timers at the start of a pass. */
    method Prune()
      requires Valid()
      modifies this`head, this`list, this`timerStopped, list
      ensures Valid() && View() == old(View())
      ensures !timerStopped && forall t | t in list :: t.enabled
    {
      if timerStopped {
        DropDisabled(alive);
        timerStopped := false;
      }
    }

    /** One step of the pointer walk: a disabled element is taken out, an enabled one kept. */
    method DropStep(prev: Timer?, cur: Timer, ghost i: nat, ghost all: set<Timer>, ghost orig: seq<Timer>)
      returns (prev': Timer?, cur': Timer?, ghost i': nat)
      requires Chained() && (forall t | t in list :: t in orig) && i < |list| && cur == list[i] && cur in all
      requires prev == if i == 0 then null else list[i - 1]
      modifies this`head, this`list, orig
      ensures Chained() && ViewOf(all) == old(ViewOf(all))
      ensures list == if old(cur.enabled) then old(list) else old(list[..i] + list[i + 1..])
      ensures i' == (if old(cur.enabled) then i + 1 else i) && i' <= |list|
      ensures cur' == At(list, i') && prev' == if i' == 0 then null else list[i' - 1]
    {
      if cur.enabled {
        return cur, cur.next, i + 1;
      }
      prev', cur', i' := prev, cur.next, i;
      assert forall j | 0 <= j < |list| :: list[j] in orig;
      RemoveAt(prev, cur, i);
      assert forall x | x in all :: x.Value() == old(x.Value());
    }

    method DropDisabled(ghost all: set<Timer>)
      requires Chained() && forall t | t in list :: t in all
      modifies this`head, this`list, list
      ensures Chained() && ViewOf(all) == old(ViewOf(all))
      ensures forall t | t in list :: t in old(list) && ViewOf(all)[t].enabled
      ensures forall t | t in old(list) && ViewOf(all)[t].enabled :: t in list
    {
      var prev: Timer? := null;
      var cur := head;
      ghost var i, view, orig := 0, ViewOf(all), list;
      while cur != null
        invariant i <= |list| && Chained()
        invariant cur == At(list, i) && prev == if i == 0 then null else list[i - 1]
        invariant ViewOf(all) == view && Filtering(view, orig, list, i)
        decreases |list| - i
      {
        FilterStep(view, orig, list, i);
        prev, cur, i := DropStep(prev, cur, i, all, orig);
      }
    }

    /** `CheckExpired` on a listed timer. */
    method CheckIn(t: Timer) returns (expired: bool)
      requires Valid() && t in list
      modifies this`timerStopped, t`enabled, t`expireTime, t`shots
      ensures Valid() && expired == Due(old(View())[t], now)
      ensures View() == if expired then old(View())[t := Fired(old(View())[t], now)] else old(View())
    {
      CheckedTracked(View(), list, timerStopped, t, now);
      var stopped: bool;
      expired, stopped := CheckOne(t);
      timerStopped := timerStopped || stopped;
    }

    method CheckOne(t: Timer) returns (expired: bool, stopped: bool)
      requires Chained() && t in alive
      modifies t`enabled, t`expireTime, t`shots
      ensures Chained() && expired == Due(old(View())[t], now) && stopped == (expired && old(View())[t].once)
      ensures View() == if expired then old(View())[t := Fired(old(View())[t], now)] else old(View())
    {
      expired, stopped := t.CheckExpired(now);
      assert forall x | x in alive && x != t :: x.Value() == old(x.Value());
    }

    /** The walk that captures up to `MAX_TIMER_EXPIRED` expirations. */
    method Collect() returns (batch: seq<Timer>)
      requires Valid()
      modifies this`timerStopped, list
      ensures Valid() && Swept(old(View()), View(), batch, now) && |batch| <= MAX_TIMER_EXPIRED
      ensures |batch| < MAX_TIMER_EXPIRED ==> forall t | t in old(View()) && Due(old(View())[t], now) :: t in batch
    {
      var p := head;
      ghost var i, view := 0, View();
      batch := [];
      while p != null && |batch| < MAX_TIMER_EXPIRED
        invariant Valid() && p == At(list, i) && |batch| <= MAX_TIMER_EXPIRED
        invariant Sweeping(view, View(), list, i, batch, now)
        decreases |list| - i
      {
        SweepStep(view, View(), list, i, batch, now);
        var t: Timer := p;
        var expired := CheckIn(t);
        if expired {
          batch := batch + [t];
        }
        p := t.next;
        i := i + 1;
      }
    }

    /** A callback's operation. */
    method Operate(op: Op) returns (ghost acted: set<Timer>)
      requires Valid()
      modifies this`head, this`list, this`alive, this`timerStopped, universe
      ensures Valid() && Tampered(old(View()), View(), acted, now) && acted <= {op.t}
      ensures View() == Acted(old(View()), op, now)
    {
      acted := {};
      OnlyTouches(View(), op.t, now);
      if op.t in alive {
        match op
        case StartOp(t, timeout, once) =>
          var ok := Start(t, timeout, once);
          acted := if ok then {t} else {};
        case StopOp(t) =>
          Stop(t);
          acted := {t};
        case DestroyOp(t) =>
          assert forall j | 0 <= j < |list| :: list[j] in universe;
          Destroy(t);
          acted := {t};
      }
    }

    /** What a callback does. */
    method Perform(ops: seq<Op>) returns (ghost acted: set<Timer>)
      requires Valid()
      modifies this`head, this`list, this`alive, this`timerStopped, universe
      ensures Valid() && Tampered(old(View()), View(), acted, now) && View() == Scripted(old(View()), ops, now)
      ensures forall t | t in acted :: Names(ops, t)
    {
      acted := {};
      ghost var view := View();
      for i := 0 to |ops|
        invariant Valid() && Tampered(view, View(), acted, now) && View() == Scripted(view, ops[..i], now)
        invariant forall t | t in acted :: Names(ops, t)
      {
        assert ops[..i + 1][..i] == ops[..i];
        ghost var before := View();
        ghost var more := Operate(ops[i]);
        TamperedThen(view, before, View(), acted, more, now);
        acted := acted + more;
      }
      assert ops[..|ops|] == ops;
    }

    /** The captured expirations are called, in order; each callback runs its script. */
    method InvokeAll(batch: seq<Timer>) returns (ghost acted: set<Timer>)
      requires Valid()
      modifies this`head, this`list, this`alive, this`timerStopped, this`scripts, this`invoked, universe
      ensures Valid() && Tampered(old(View()), View(), acted, now)
      ensures invoked == old(invoked) + batch
      ensures View() == Called(old(View()), old(scripts), |batch|, now)
      ensures Consumed(old(scripts), scripts, acted) && |scripts| == Left(old(|scripts|), |batch|)
    {
      acted := {};
      ghost var view, all, was := View(), scripts, invoked;
      NothingYet(view, all, now);
      hide Tampered, Consumed, Scripted;
      for i := 0 to |batch|
        invariant Valid() && Tampered(view, View(), acted, now) && Consumed(all, scripts, acted)
        invariant invoked == was + batch[..i]
        invariant View() == Called(view, all, i, now) && |scripts| == Left(|all|, i)
      {
        ghost var before, left := View(), scripts;
        NextScript(all, left, acted);
        ghost var more := InvokeOne(batch[i]);
        TamperedThen(view, before, View(), acted, more, now);
        ConsumedThen(all, left, scripts, acted, more);
        acted := acted + more;
        TakesNext(was, batch, i);
      }
      assert batch[..|batch|] == batch;
    }

    method InvokeOne(t: Timer) returns (ghost acted: set<Timer>)
      requires Valid()
      modifies this`head, this`list, this`alive, this`timerStopped, this`scripts, this`invoked, universe
      ensures Valid() && Tampered(old(View()), View(), acted, now)
      ensures invoked == old(invoked) + [t]
      ensures View() == if old(scripts) == [] then old(View()) else Scripted(old(View()), old(scripts)[0], now)
      ensures Consumed(old(scripts), scripts, acted) && |scripts| == Left(old(|scripts|), 1)
    {
      hide Tampered, Consumed, Scripted, Names;
      NothingYet(View(), scripts, now);
      acted := {};
      invoked := invoked + [t];
      if scripts != [] {
        var script := scripts[0];
        scripts := scripts[1..];
        acted := Perform(script);
        ConsumedFirst(old(scripts), acted);
      }
    }

    /** One pass: stopped timers are dropped, expirations captured, callbacks called. */
    method Pass() returns (batch: seq<Timer>, ghost swept: map<Timer, Data>, ghost acted: set<Timer>)
      requires Valid()
      modifies this`head, this`list, this`alive, this`timerStopped, this`scripts, this`invoked, universe
      ensures Valid() && |batch| <= MAX_TIMER_EXPIRED
      ensures Swept(old(View()), swept, batch, now) && Tampered(swept, View(), acted, now)
      ensures |batch| < MAX_TIMER_EXPIRED ==> forall t | t in old(View()) && Due(old(View())[t], now) :: t in batch
      ensures invoked == old(invoked) + batch && Consumed(old(scripts), scripts, acted)
      ensures View() == Called(swept, old(scripts), |batch|, now) && |scripts| == Left(old(|scripts|), |batch|)
    {
      assert forall j | 0 <= j < |list| :: list[j] in universe;
      Prune();
      assert forall j | 0 <= j < |list| :: list[j] in universe;
      batch := Collect();
      swept := View();
      acted := InvokeAll(batch);
    }

    /** `ProcessTimers`: it ends, whatever the callbacks start and stop; `acted` are the timers
        they started, stopped or destroyed. */
    method ProcessTimers() returns (ghost acted: set<Timer>)
      requires Valid()
      modifies this`head, this`list, this`alive, this`timerStopped, this`scripts, this`invoked, universe
      ensures Valid() && Settled(View(), now)
      ensures old(invoked) <= invoked
      ensures Drained(old(View()), View(), invoked[|old(invoked)|..], acted, now)
      ensures Consumed(old(scripts), scripts, acted)
      ensures |scripts| == Left(old(|scripts|), |invoked| - old(|invoked|))
    {
      ghost var v0, fired, all := View(), [], scripts;
      acted := {};
      var count := MAX_TIMER_EXPIRED;
      NoProgress(v0, now);
      while count == MAX_TIMER_EXPIRED
        invariant Valid() && Draining(v0, View(), fired, acted, now, count)
        invariant invoked == old(invoked) + fired && Consumed(all, scripts, acted)
        invariant |scripts| == Left(|all|, |fired|)
        decreases count == MAX_TIMER_EXPIRED, Total(universe, View(), now)
      {
        count, fired, acted := DrainPass(v0, fired, acted, all);
      }
    }

    /** One round of the loop. */
    method DrainPass(ghost v0: map<Timer, Data>, ghost fired: seq<Timer>, ghost was: set<Timer>,
                     ghost all: seq<seq<Op>>)
      returns (count: nat, ghost fired': seq<Timer>, ghost acted: set<Timer>)
      requires Valid() && Progress(v0, View(), fired, was, now) && Consumed(all, scripts, was)
      modifies this`head, this`list, this`alive, this`timerStopped, this`scripts, this`invoked, universe
      ensures Valid() && Draining(v0, View(), fired', acted, now, count)
      ensures count == MAX_TIMER_EXPIRED ==> Total(universe, View(), now) < old(Total(universe, View(), now))
      ensures Consumed(all, scripts, acted)
      ensures fired <= fired' && invoked == old(invoked) + fired'[|fired|..]
      ensures |scripts| == Left(old(|scripts|), |fired'| - |fired|)
    {
      ghost var v, left := View(), scripts;
      var batch: seq<Timer>;
      ghost var swept;
      batch, swept, acted := Pass();
      PassDrains(universe, v0, v, swept, View(), fired, batch, was, acted, now);
      ConsumedThen(all, left, scripts, was, acted);
      count, fired', acted := |batch|, fired + batch, was + acted;
    }
  }

  /** The state between two passes, the last of which captured `count` expirations. */
  ghost predicate Draining(v0: map<Timer, Data>, v: map<Timer, Data>, fired: seq<Timer>, acted: set<Timer>, now: int,
                           count: nat) {
    && Progress(v0, v, fired, acted, now) && count <= MAX_TIMER_EXPIRED
    && (count < MAX_TIMER_EXPIRED ==> Settled(v, now) && Drained(v0, v, fired, acted, now))
  }

  lemma TakesNext(was: seq<Timer>, batch: seq<Timer>, i: nat)
    requires i < |batch|
    ensures was + batch[..i + 1] == was + batch[..i] + [batch[i]]
  {
  }

  ghost predicate Names(ops: seq<Op>, t: Timer) {
    exists op :: op in ops && op.t == t
  }

  ghost predicate Named(scripts: seq<seq<Op>>, t: Timer) {
    exists s :: s in scripts && Names(s, t)
  }

  /** The remaining scripts are the last ones of the earlier; those that ran name the timers in `acted`. */
  ghost predicate Consumed(scripts: seq<seq<Op>>, rest: seq<seq<Op>>, acted: set<Timer>) {
    && |rest| <= |scripts| && rest == scripts[|scripts| - |rest|..]
    && forall t | t in acted :: Named(scripts[..|scripts| - |rest|], t)
  }

  lemma ConsumedFirst(scripts: seq<seq<Op>>, acted: set<Timer>)
    requires scripts != [] && forall t | t in acted :: Names(scripts[0], t)
    ensures Consumed(scripts, scripts[1..], acted)
  {
    assert scripts[..1] == [scripts[0]];
    assert forall t | t in acted :: Named(scripts[..1], t) by {
      assert scripts[0] in scripts[..1];
    }
  }

  lemma NextScript(scripts: seq<seq<Op>>, rest: seq<seq<Op>>, acted: set<Timer>)
    requires Consumed(scripts, rest, acted)
    ensures rest != [] ==> rest[0] == scripts[|scripts| - |rest|]
  {
  }

  lemma NothingYet(view: map<Timer, Data>, scripts: seq<seq<Op>>, now: int)
    ensures Tampered(view, view, {}, now) && Consumed(scripts, scripts, {})
  {
  }

  lemma ConsumedThen(a: seq<seq<Op>>, b: seq<seq<Op>>, c: seq<seq<Op>>, acted: set<Timer>, more: set<Timer>)
    requires Consumed(a, b, acted) && Consumed(b, c, more)
    ensures Consumed(a, c, acted + more)
  {
    var ran, next := a[..|a| - |b|], b[..|b| - |c|];
    assert a[..|a| - |c|] == ran + next;
    forall t | t in acted + more
      ensures Named(ran + next, t)
    {
      var s :| (s in ran || s in next) && Names(s, t);
      assert s in ran + next;
    }
  }

  /** The outcome of a drain for every timer: it expired at most twice, and at most once if it is
      a one-shot; if it was due it expired, unless a callback acted on it. */
  ghost predicate Drained(v0: map<Timer, Data>, v: map<Timer, Data>, fired: seq<Timer>, acted: set<Timer>, now: int) {
    forall t | t in v0 ::
      && Count(fired, t) <= Weight(v0[t], now) <= 2
      && (v0[t].once ==> Count(fired, t) <= 1)
      && (Due(v0[t], now) ==> t in fired || t in acted)
      && (t !in acted ==> t in v && Passed(v0[t], v[t], Count(fired, t), now))
  }

  lemma NoProgress(v: map<Timer, Data>, now: int)
    ensures Progress(v, v, [], {}, now)
  {
  }

  lemma PassDrains(universe: seq<Timer>, v0: map<Timer, Data>, v: map<Timer, Data>, v1: map<Timer, Data>,
                   v2: map<Timer, Data>,
                   fired: seq<Timer>, batch: seq<Timer>, was: set<Timer>, acted: set<Timer>, now: int)
    requires AllSound(v) && Progress(v0, v, fired, was, now) && Swept(v, v1, batch, now) && Tampered(v1, v2, acted, now)
    requires |batch| < MAX_TIMER_EXPIRED ==> forall t | t in v && Due(v[t], now) :: t in batch
    requires forall t | t in v :: t in universe
    ensures Progress(v0, v2, fired + batch, was + acted, now)
    ensures |batch| < MAX_TIMER_EXPIRED ==> Settled(v2, now) && Drained(v0, v2, fired + batch, was + acted, now)
    ensures |batch| == MAX_TIMER_EXPIRED ==> Total(universe, v2, now) < Total(universe, v, now)
  {
    ProgressPass(v0, v, v1, v2, fired, batch, was, acted, now);
    if |batch| < MAX_TIMER_EXPIRED {
      LastPassSettles(v, v1, v2, batch, acted, now);
      forall t | t in v0 {
        DrainOutcome(v0, v, v1, v2, fired, batch, was, acted, now, t);
      }
    } else if |batch| == MAX_TIMER_EXPIRED {
      assert batch[0] in batch;
      PassIsLighter(universe, v, v1, v2, batch, acted, now);
    }
  }

  lemma OnlyTouches(v: map<Timer, Data>, t: Timer, now: int)
    ensures Tampered(v, v, {}, now)
    ensures forall timeout, once | timeout > 0 && t in v :: Tampered(v, v[t := Started(now, timeout, once)], {t}, now)
    ensures t in v ==> Tampered(v, v[t := v[t].(enabled := false)], {t}, now)
    ensures Tampered(v, v - {t}, {t}, now)
  {
  }

  lemma TamperedThen(v: map<Timer, Data>, v1: map<Timer, Data>, v2: map<Timer, Data>, a: set<Timer>, b: set<Timer>,
                     now: int)
    requires Tampered(v, v1, a, now) && Tampered(v1, v2, b, now)
    ensures Tampered(v, v2, a + b, now)
  {
  }

  lemma CheckedTracked(view: map<Timer, Data>, list: seq<Timer>, stopped: bool, t: Timer, now: int)
    requires Tracked(view, list, stopped) && AllSound(view) && t in list
    ensures Due(view[t], now) ==>
      && Tracked(view[t := Fired(view[t], now)], list, stopped || view[t].once)
        && AllSound(view[t := Fired(view[t], now)])
  {
  }

  /** The walk has come to position `i`. */
  ghost predicate Sweeping(view: map<Timer, Data>, view': map<Timer, Data>, list: seq<Timer>, i: nat,
                           batch: seq<Timer>, now: int) {
    && i <= |list| && Swept(view, view', batch, now)
    && (forall t | t in batch :: t in list[..i])
    && (forall j | 0 <= j < i :: list[j] in view && (Due(view[list[j]], now) ==> list[j] in batch))
  }

  lemma SweepStep(view: map<Timer, Data>, view': map<Timer, Data>, list: seq<Timer>, i: nat, batch: seq<Timer>,
                  now: int)
    requires Sweeping(view, view', list, i, batch, now) && Distinct(list) && i < |list| && list[i] in view
    ensures list[i] in view' && view'[list[i]] == view[list[i]]
    ensures Due(view[list[i]], now) ==>
      Sweeping(view, view'[list[i] := Fired(view[list[i]], now)], list, i + 1, batch + [list[i]], now)
    ensures !Due(view[list[i]], now) ==> Sweeping(view, view', list, i + 1, batch, now)
  {
    var t := list[i];
    assert t !in batch;
    assert forall x | x in batch :: x in list[..i + 1] by {
      assert list[..i + 1] == list[..i] + [t];
    }
    assert t in list[..i + 1];
  }

  /** The first `i` elements of `list` are enabled; it has lost only disabled ones. */
  ghost predicate Filtering(view: map<Timer, Data>, orig: seq<Timer>, list: seq<Timer>, i: nat) {
    && i <= |list|
    && (forall t | t in list :: t in orig && t in view)
    && (forall t | t in orig && t in view && view[t].enabled :: t in list)
    && (forall j | 0 <= j < i :: view[list[j]].enabled)
  }

  lemma FilterStep(view: map<Timer, Data>, orig: seq<Timer>, list: seq<Timer>, i: nat)
    requires Filtering(view, orig, list, i) && i < |list|
    ensures view[list[i]].enabled ==> Filtering(view, orig, list, i + 1)
    ensures !view[list[i]].enabled ==> Filtering(view, orig, list[..i] + list[i + 1..], i)
  {
  }
}
