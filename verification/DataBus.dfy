/**
 * The type-erased topic registry of the data bus. Signals, serializers, stringifiers and cached
 * values are stored without their type and cast back when used. Each lock region is one event;
 * the events of different threads interleave, and the registry is not reset meanwhile.
 */
module DataBus {
  import opened Common

  /** A message type, as `std::type_index` tells types apart. */
  type Type = nat

  /** An object behind a `shared_ptr<void>`, with the type it was made with. Signals are numbered as
      they are made. */
  datatype Erased = Erased(made: Type, content: nat)

  datatype State = State(
    types: map<string, Type>,
    signals: map<string, Erased>,
    serializers: map<string, Erased>,
    stringifiers: map<string, Erased>,
    lastValues: map<string, Erased>,
    cached: set<string>)          // topics with the last-value cache switched on

  const EMPTY := State(map[], map[], map[], map[], map[], {})

  datatype Event =
    | Subscribe(topic: string, t: Type, lastValueCache: bool)
    | Publish(topic: string, t: Type, data: nat)
    | RegisterSerializer(topic: string, t: Type, serializer: nat)
    | RegisterStringifier(topic: string, t: Type, stringifier: nat)

  predicate Mismatch(s: State, topic: string, t: Type) {
    topic in s.types && s.types[topic] != t
  }

  /** The first lock region of `InternalSubscribe`, `InternalPublish` and the registrations. */
  function Step(s: State, e: Event): State {
    match e
    case Subscribe(topic, t, lvc) =>
      // the cache is switched on before the type is checked
      var s1 := if lvc then s.(cached := s.cached + {topic}) else s;
      if Mismatch(s, topic, t) then s1
      else
        var s2 := s1.(types := s.types[topic := t]);
        if topic in s.signals then s2 else s2.(signals := s.signals[topic := Erased(t, |s.signals|)])
    case Publish(topic, t, data) =>
      if Mismatch(s, topic, t) then s
      else
        var s1 := s.(types := s.types[topic := t]);
        if topic in s.cached then s1.(lastValues := s.lastValues[topic := Erased(t, data)]) else s1
    case RegisterSerializer(topic, t, serializer) =>
      if Mismatch(s, topic, t) then s
      else s.(types := s.types[topic := t], serializers := s.serializers[topic := Erased(t, serializer)])
    case RegisterStringifier(topic, t, stringifier) =>
      if Mismatch(s, topic, t) then s
      else s.(types := s.types[topic := t], stringifiers := s.stringifiers[topic := Erased(t, stringifier)])
  }

  ghost predicate MadeAs(objects: map<string, Erased>, types: map<string, Type>) {
    forall k | k in objects :: k in types && objects[k].made == types[k]
  }

  /** Everything stored under a topic has the topic's type. */
  ghost predicate WellTyped(s: State) {
    && MadeAs(s.signals, s.types) && MadeAs(s.serializers, s.types) && MadeAs(s.stringifiers, s.types)
    && MadeAs(s.lastValues, s.types)
  }

  /** The types fixed so far stay. */
  ghost predicate Keeps(types: map<string, Type>, types': map<string, Type>) {
    forall k | k in types :: k in types' && types'[k] == types[k]
  }

  lemma MadeAsPut(objects: map<string, Erased>, types: map<string, Type>, topic: string, t: Type, x: nat)
    requires MadeAs(objects, types) && (topic in types ==> types[topic] == t)
    ensures MadeAs(objects, types[topic := t]) && MadeAs(objects[topic := Erased(t, x)], types[topic := t])
  {
  }

  function Stored(e: Event, signals: nat): nat {
    match e
    case Subscribe(_, _, _) => signals
    case Publish(_, _, data) => data
    case RegisterSerializer(_, _, serializer) => serializer
    case RegisterStringifier(_, _, stringifier) => stringifier
  }

  lemma StepKeeps(s: State, e: Event)
    requires WellTyped(s)
    ensures WellTyped(Step(s, e)) && Keeps(s.types, Step(s, e).types) && s.cached <= Step(s, e).cached
  {
    hide MadeAs;
    if !Mismatch(s, e.topic, e.t) {
      MadeAsPut(s.signals, s.types, e.topic, e.t, Stored(e, |s.signals|));
      MadeAsPut(s.serializers, s.types, e.topic, e.t, Stored(e, |s.signals|));
      MadeAsPut(s.stringifiers, s.types, e.topic, e.t, Stored(e, |s.signals|));
      MadeAsPut(s.lastValues, s.types, e.topic, e.t, Stored(e, |s.signals|));
    }
  }

  /** What is stored under a topic. */
  function ContentAt(objects: map<string, Erased>, topic: string): Option<nat> {
    if topic in objects then Some(objects[topic].content) else None
  }

  /** Casting a stored object back; only sound to the type it was made with. */
  function Cast(e: Erased, t: Type): nat
    requires e.made == t
  {
    e.content
  }

  /** What a publish hands out to be used outside the lock, every part cast to its type. */
  datatype Outgoing = Mismatched | Outgoing(signal: Option<nat>, serializer: Option<nat>, text: Option<nat>)

  class DataBus {
    var types: map<string, Type>
    var signals: map<string, Erased>
    var serializers: map<string, Erased>
    var stringifiers: map<string, Erased>
    var lastValues: map<string, Erased>
    var cached: set<string>

    constructor ()
      ensures View() == EMPTY
    {
      types, signals, serializers, stringifiers, lastValues, cached := map[], map[], map[], map[], map[], {};
    }

    ghost function View(): State
      reads this
    {
      State(types, signals, serializers, stringifiers, lastValues, cached)
    }

    /** `CheckOrEstablishType`: the first use of a topic fixes its type. */
    method CheckOrEstablishType(topic: string, expected: Type) returns (mismatch: bool)
      requires WellTyped(View())
      modifies this`types
      ensures WellTyped(View()) && mismatch == Mismatch(old(View()), topic, expected)
      ensures types == if mismatch then old(types) else old(types)[topic := expected]
    {
      if topic in types {
        return types[topic] != expected;
      }
      types := types[topic := expected];
      mismatch := false;
    }

    /** The first lock region of `InternalSubscribe`, with `GetOrCreateSignal`. */
    method SubscribeLocked(topic: string, t: Type, lastValueCache: bool) returns (signal: Option<nat>)
      requires WellTyped(View())
      modifies this
      ensures WellTyped(View()) && View() == Step(old(View()), Subscribe(topic, t, lastValueCache))
      ensures signal.None? <==> Mismatch(old(View()), topic, t)
      ensures signal.Some? ==> topic in types && types[topic] == t && signal == ContentAt(signals, topic)
    {
      if lastValueCache {
        cached := cached + {topic};
      }
      var mismatch := CheckOrEstablishType(topic, t);
      if mismatch {
        return None;
      }
      if topic !in signals {
        signals := signals[topic := Erased(t, |signals|)];
      }
      signal := Some(Cast(signals[topic], t));
    }

    /** The second lock region: the cached value, if there is one and it has not expired. The topic
        got the type `t` in the first region, and types are never changed. */
    method LastValueLocked(topic: string, t: Type, expired: bool) returns (value: Option<nat>)
      requires WellTyped(View()) && topic in types && types[topic] == t
      ensures value == if topic in lastValues && !expired then Some(lastValues[topic].content) else None
    {
      if topic in lastValues && !expired {
        value := Some(Cast(lastValues[topic], t));
      } else {
        value := None;
      }
    }

    /** The cached object is destroyed as a `t` and a new one is built in its place. */
    method StoreLastValue(topic: string, t: Type, data: nat)
      requires WellTyped(View()) && topic in types && types[topic] == t
      modifies this`lastValues
      ensures WellTyped(View())
      ensures lastValues == if topic in cached then old(lastValues)[topic := Erased(t, data)] else old(lastValues)
    {
      if topic in cached {
        if topic in lastValues {
          var previous := Cast(lastValues[topic], t);
          lastValues := lastValues[topic := lastValues[topic].(content := data)];
        } else {
          lastValues := lastValues[topic := Erased(t, data)];
        }
      }
    }

    /** The lock region of `InternalPublish`. */
    method PublishLocked(topic: string, t: Type, data: nat) returns (out: Outgoing)
      requires WellTyped(View())
      modifies this
      ensures WellTyped(View()) && View() == Step(old(View()), Publish(topic, t, data))
      ensures out.Mismatched? <==> Mismatch(old(View()), topic, t)
      ensures out.Outgoing? ==>
        && out.signal == ContentAt(old(signals), topic) && out.serializer == ContentAt(old(serializers), topic)
        && out.text == ContentAt(old(stringifiers), topic)
    {
      var mismatch := CheckOrEstablishType(topic, t);
      if mismatch {
        return Mismatched;
      }
      StoreLastValue(topic, t, data);
      out := Outgoing(
        if topic in signals then Some(Cast(signals[topic], t)) else None,
        if topic in serializers then Some(Cast(serializers[topic], t)) else None,
        if topic in stringifiers then Some(Cast(stringifiers[topic], t)) else None);
    }

    /** `InternalRegisterSerializer`. */
    method RegisterSerializerLocked(topic: string, t: Type, serializer: nat) returns (mismatch: bool)
      requires WellTyped(View())
      modifies this
      ensures WellTyped(View()) && View() == Step(old(View()), RegisterSerializer(topic, t, serializer))
      ensures mismatch == Mismatch(old(View()), topic, t)
    {
      mismatch := CheckOrEstablishType(topic, t);
      if !mismatch {
        serializers := serializers[topic := Erased(t, serializer)];
      }
    }

    /** `InternalRegisterStringifier`. */
    method RegisterStringifierLocked(topic: string, t: Type, stringifier: nat) returns (mismatch: bool)
      requires WellTyped(View())
      modifies this
      ensures WellTyped(View()) && View() == Step(old(View()), RegisterStringifier(topic, t, stringifier))
      ensures mismatch == Mismatch(old(View()), topic, t)
    {
      mismatch := CheckOrEstablishType(topic, t);
      if !mismatch {
        stringifiers := stringifiers[topic := Erased(t, stringifier)];
      }
    }
  }

  ghost function Exec(s: State, events: seq<Event>): State {
    if events == [] then s else Step(Exec(s, events[..|events| - 1]), events[|events| - 1])
  }

  /** The type with which a topic was first used. */
  ghost function FirstUse(events: seq<Event>, topic: string): Option<Type> {
    if events == [] then None
    else if events[0].topic == topic then Some(events[0].t)
    else FirstUse(events[1..], topic)
  }

  /** Has anyone asked for the cache of this topic yet? */
  ghost predicate CacheAsked(events: seq<Event>, topic: string) {
    exists e :: e in events && Asks(e, topic)
  }

  /** The value of the last publish, with the topic's type, after the cache was asked for. */
  ghost function LastPublished(events: seq<Event>, topic: string): Option<nat> {
    if events == [] then None
    else
      var before, e := events[..|events| - 1], events[|events| - 1];
      if e.Publish? && e.topic == topic && FirstUse(events, topic) == Some(e.t) && CacheAsked(before, topic)
      then Some(e.data)
      else LastPublished(before, topic)
  }

  lemma {:induction false} FirstUseAppend(events: seq<Event>, e: Event, topic: string)
    ensures FirstUse(events + [e], topic)
         == if FirstUse(events, topic).Some? then FirstUse(events, topic) else if e.topic == topic then Some(e.t)
           else None
  {
    if events != [] && events[0].topic != topic {
      FirstUseAppend(events[1..], e, topic);
      assert (events + [e])[1..] == events[1..] + [e];
    } else if events == [] {
      assert [e][1..] == [];
    }
  }

  /** In every run, a topic has the type of its first use, and everything stored for it is of that
      type, so that every cast back is to the type stored. */
  lemma {:induction false} TopicTypeIsFirstUse(events: seq<Event>, topic: string)
    ensures WellTyped(Exec(EMPTY, events))
    ensures var types := Exec(EMPTY, events).types;
            (if topic in types then Some(types[topic]) else None) == FirstUse(events, topic)
  {
    if events != [] {
      var before, e := events[..|events| - 1], events[|events| - 1];
      TopicTypeIsFirstUse(before, topic);
      StepKeeps(Exec(EMPTY, before), e);
      FirstUseAppend(before, e, topic);
      assert events == before + [e];
    }
  }

  lemma {:induction false} ExecAppend(s: State, events: seq<Event>, more: seq<Event>)
    ensures Exec(s, events + more) == Exec(Exec(s, events), more)
  {
    if more == [] {
      assert events + more == events;
    } else {
      var n := |more| - 1;
      ExecAppend(s, events, more[..n]);
      assert (events + more)[..|events + more| - 1] == events + more[..n];
    }
  }

  /** Types once fixed stay fixed, whatever runs. */
  lemma {:induction false} RunKeeps(s: State, events: seq<Event>)
    requires WellTyped(s)
    ensures WellTyped(Exec(s, events)) && Keeps(s.types, Exec(s, events).types)
  {
    if events != [] {
      RunKeeps(s, events[..|events| - 1]);
      StepKeeps(Exec(s, events[..|events| - 1]), events[|events| - 1]);
    }
  }

  /** A subscription that was accepted in its first lock region finds, in its second, its topic still
      of its type and the last value published with it, whatever `more` threads ran in between; so
      the second region, `LastValueLocked`, may cast and delivers that value. */
  lemma LateSubscriberGetsLastPublished(events: seq<Event>, topic: string, t: Type, cache: bool, more: seq<Event>)
    requires !Mismatch(Exec(EMPTY, events), topic, t)
    ensures var all := events + [Subscribe(topic, t, cache)] + more;
            var s := Exec(EMPTY, all);
            && WellTyped(s) && topic in s.types && s.types[topic] == t && FirstUse(all, topic) == Some(t)
            && (if topic in s.lastValues then Some(s.lastValues[topic].content) else None) == LastPublished(all, topic)
            && (topic in s.lastValues ==> s.lastValues[topic].made == t)
  {
    var subscribed := events + [Subscribe(topic, t, cache)];
    assert subscribed[..|events|] == events;
    TopicTypeIsFirstUse(subscribed, topic);
    RunKeeps(Exec(EMPTY, subscribed), more);
    ExecAppend(EMPTY, subscribed, more);
    TopicTypeIsFirstUse(subscribed + more, topic);
    CacheHoldsLastPublished(subscribed + more, topic);
  }

  /** No two topics share a signal. */
  ghost predicate OwnSignals(signals: map<string, Erased>) {
    && (forall k | k in signals :: signals[k].content < |signals|)
    && (forall j, k | j in signals && k in signals && j != k :: signals[j].content != signals[k].content)
  }

  lemma NewSignal(signals: map<string, Erased>, topic: string, t: Type)
    requires OwnSignals(signals) && topic !in signals
    ensures OwnSignals(signals[topic := Erased(t, |signals|)])
  {
    var put := signals[topic := Erased(t, |signals|)];
    assert put.Keys == signals.Keys + {topic} && |put.Keys| == |signals.Keys| + 1;
  }

  /** A step makes a signal for its topic or leaves all signals alone. */
  lemma StepMakesSignal(s: State, e: Event)
    ensures var made := e.Subscribe? && !Mismatch(s, e.topic, e.t) && e.topic !in s.signals;
            Step(s, e).signals == if made then s.signals[e.topic := Erased(e.t, |s.signals|)] else s.signals
  {
  }

  lemma StepSignals(s: State, e: Event)
    requires OwnSignals(s.signals)
    ensures OwnSignals(Step(s, e).signals)
    ensures forall k | k in s.signals :: ContentAt(Step(s, e).signals, k) == ContentAt(s.signals, k)
    ensures e.Subscribe? && !Mismatch(s, e.topic, e.t) ==> e.topic in Step(s, e).signals
  {
    hide Step, OwnSignals;
    StepMakesSignal(s, e);
    if e.topic !in s.signals {
      NewSignal(s.signals, e.topic, e.t);
    }
  }

  lemma {:induction false} SignalsKept(s: State, events: seq<Event>, topic: string)
    requires OwnSignals(s.signals)
    ensures OwnSignals(Exec(s, events).signals)
    ensures topic in s.signals ==> ContentAt(Exec(s, events).signals, topic) == ContentAt(s.signals, topic)
  {
    if events != [] {
      SignalsKept(s, events[..|events| - 1], topic);
      StepSignals(Exec(s, events[..|events| - 1]), events[|events| - 1]);
    }
  }

  /** Subscribers and publishers of a topic meet: the signal handed to a subscription is the one every
      later subscription and publish of the topic gets, in any run, and no other topic ever has it. */
  lemma SignalIsShared(events: seq<Event>, topic: string, t: Type, cache: bool, more: seq<Event>, other: string)
    requires !Mismatch(Exec(EMPTY, events), topic, t)
    ensures var first := Exec(EMPTY, events + [Subscribe(topic, t, cache)]).signals;
            var later := Exec(EMPTY, events + [Subscribe(topic, t, cache)] + more).signals;
            && ContentAt(first, topic).Some? && ContentAt(later, topic) == ContentAt(first, topic)
            && (other != topic ==> ContentAt(later, other) != ContentAt(first, topic))
  {
    var subscribed := events + [Subscribe(topic, t, cache)];
    assert subscribed[..|events|] == events;
    SignalsKept(EMPTY, events, topic);
    StepSignals(Exec(EMPTY, events), Subscribe(topic, t, cache));
    SignalsKept(Exec(EMPTY, subscribed), more, topic);
    ExecAppend(EMPTY, subscribed, more);
  }

  /** The last serializer registered with the topic's type. */
  ghost function LastSerializer(events: seq<Event>, topic: string): Option<nat> {
    if events == [] then None
    else
      var before, e := events[..|events| - 1], events[|events| - 1];
      if e.RegisterSerializer? && e.topic == topic && FirstUse(events, topic) == Some(e.t)
      then Some(e.serializer)
      else LastSerializer(before, topic)
  }

  /** The last stringifier registered with the topic's type. */
  ghost function LastStringifier(events: seq<Event>, topic: string): Option<nat> {
    if events == [] then None
    else
      var before, e := events[..|events| - 1], events[|events| - 1];
      if e.RegisterStringifier? && e.topic == topic && FirstUse(events, topic) == Some(e.t)
      then Some(e.stringifier)
      else LastStringifier(before, topic)
  }

  /** What one event does to the two registries of a topic of type `t`, if it has one yet. */
  lemma StepRegisters(s: State, e: Event, topic: string)
    ensures var s', fits := Step(s, e), e.topic == topic && !Mismatch(s, topic, e.t);
            && ContentAt(s'.serializers, topic)
               == (if e.RegisterSerializer? && fits then Some(e.serializer) else ContentAt(s.serializers, topic))
            && ContentAt(s'.stringifiers, topic)
               == (if e.RegisterStringifier? && fits then Some(e.stringifier) else ContentAt(s.stringifiers, topic))
  {
  }

  /** In every run, a publish finds the last serializer and the last stringifier registered with the
      topic's type, and none if there was none. */
  lemma {:induction false} RegistryHoldsLast(events: seq<Event>, topic: string)
    ensures var s := Exec(EMPTY, events);
            && ContentAt(s.serializers, topic) == LastSerializer(events, topic)
            && ContentAt(s.stringifiers, topic) == LastStringifier(events, topic)
  {
    if events != [] {
      hide Step;
      var before, e := events[..|events| - 1], events[|events| - 1];
      RegistryHoldsLast(before, topic);
      TopicTypeIsFirstUse(before, topic);
      FirstUseAppend(before, e, topic);
      assert events == before + [e];
      StepRegisters(Exec(EMPTY, before), e, topic);
    }
  }

  predicate Asks(e: Event, topic: string) {
    e.Subscribe? && e.topic == topic && e.lastValueCache
  }

  lemma AskedAppend(events: seq<Event>, e: Event, topic: string)
    ensures CacheAsked(events + [e], topic) <==> CacheAsked(events, topic) || Asks(e, topic)
  {
    assert forall x :: x in events + [e] <==> x in events || x == e;
  }

  lemma StepCaches(s: State, e: Event, topic: string)
    ensures topic in Step(s, e).cached <==> topic in s.cached || Asks(e, topic)
  {
  }

  lemma {:induction false} CachedSinceAsked(events: seq<Event>, topic: string)
    ensures topic in Exec(EMPTY, events).cached <==> CacheAsked(events, topic)
  {
    if events != [] {
      var before, e := events[..|events| - 1], events[|events| - 1];
      CachedSinceAsked(before, topic);
      assert events == before + [e];
      AskedAppend(before, e, topic);
      StepCaches(Exec(EMPTY, before), e, topic);
    }
  }

  /** In every run, the cached value is the last one published, with the topic's type, since the
      cache was asked for; and there is none if there was no such publish. */
  lemma {:induction false} CacheHoldsLastPublished(events: seq<Event>, topic: string)
    ensures var s := Exec(EMPTY, events);
            (if topic in s.lastValues then Some(s.lastValues[topic].content) else None) == LastPublished(events, topic)
  {
    if events != [] {
      var before, e := events[..|events| - 1], events[|events| - 1];
      CacheHoldsLastPublished(before, topic);
      CachedSinceAsked(before, topic);
      TopicTypeIsFirstUse(before, topic);
      FirstUseAppend(before, e, topic);
      assert events == before + [e];
    }
  }

  /** A publish, registration or subscription with another type than the first leaves all stored
      objects as they are; a subscription can still switch the cache on. */
  lemma MismatchChangesNothing(events: seq<Event>, e: Event)
    requires FirstUse(events, e.topic).Some? && FirstUse(events, e.topic) != Some(e.t)
    ensures Step(Exec(EMPTY, events), e)
         == if e.Subscribe? && e.lastValueCache then
           Exec(EMPTY, events).(cached := Exec(EMPTY, events).cached + {e.topic})
            else Exec(EMPTY, events)
  {
    TopicTypeIsFirstUse(events, e.topic);
  }

  const MAX_PARTICIPANTS: nat := 8

  /** The registered participants, in order, without the first occurrence of `p`. */
  function Without(list: seq<nat>, p: nat): seq<nat> {
    if list == [] then [] else if list[0] == p then list[1..] else [list[0]] + Without(list[1..], p)
  }

  lemma {:induction false} WithoutAt(list: seq<nat>, p: nat, i: nat)
    requires i < |list| && list[i] == p && forall j | 0 <= j < i :: list[j] != p
    ensures Without(list, p) == list[..i] + list[i + 1..]
  {
    if i > 0 {
      var rest := list[1..];
      WithoutAt(rest, p, i - 1);
      assert rest[..i - 1] == list[1..i] && rest[i..] == list[i + 1..];
      assert list[..i] == [list[0]] + list[1..i];
    }
  }

  lemma {:induction false} WithoutAbsent(list: seq<nat>, p: nat)
    requires forall j | 0 <= j < |list| :: list[j] != p
    ensures Without(list, p) == list
  {
    if list != [] {
      WithoutAbsent(list[1..], p);
    }
  }

  lemma ShiftedOut(a: seq<nat>, list: seq<nat>, i: nat)
    requires i < |list| && |a| == |list| - 1
    requires (forall k | 0 <= k < i :: a[k] == list[k]) && (forall k | i <= k < |a| :: a[k] == list[k + 1])
    ensures a == list[..i] + list[i + 1..]
  {
  }

  /** The fixed array of participants and its count. */
  class Participants {
    const slots: array<nat>
    var count: nat

    constructor ()
      ensures Valid() && List() == [] && fresh(slots)
    {
      slots := new nat[MAX_PARTICIPANTS];
      count := 0;
    }

    ghost predicate Valid()
      reads this
    {
      slots.Length == MAX_PARTICIPANTS && count <= MAX_PARTICIPANTS
    }

    ghost function List(): seq<nat>
      requires Valid()
      reads this, slots
    {
      slots[..count]
    }

    /** `InternalAddParticipant`: refused when the array is full. */
    method Add(p: nat) returns (added: bool)
      requires Valid()
      modifies this`count, slots
      ensures Valid() && added == (old(count) < MAX_PARTICIPANTS)
      ensures List() == if added then old(List()) + [p] else old(List())
    {
      added := count < MAX_PARTICIPANTS;
      if added {
        slots[count] := p;
        count := count + 1;
      }
    }

    /** `InternalRemoveParticipant`: the first match goes and the later ones move up. */
    method Remove(p: nat)
      requires Valid()
      modifies this`count, slots
      ensures Valid() && List() == Without(old(List()), p)
    {
      var i := 0;
      while i < count && slots[i] != p
        invariant i <= count
        invariant forall j | 0 <= j < i :: slots[j] != p
      {
        i := i + 1;
      }
      ghost var list := List();
      if i == count {
        WithoutAbsent(list, p);
        return;
      }
      WithoutAt(list, p, i);
      var j := i;
      while j < count - 1
        invariant i <= j < count && count == |list|
        invariant forall k | 0 <= k < i :: slots[k] == list[k]
        invariant forall k | i < k <= j :: slots[k - 1] == list[k]
        invariant forall k | j < k < count :: slots[k] == list[k]
      {
        slots[j] := slots[j + 1];
        j := j + 1;
      }
      forall k | i <= k < count - 1
        ensures slots[k] == list[k + 1]
      {
        assert slots[(k + 1) - 1] == list[k + 1];
      }
      count := count - 1;
      slots[count] := 0;
      ShiftedOut(slots[..count], list, i);
    }
  }
}
