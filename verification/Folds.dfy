/** Feeding a sequence of bits into a state, and iterating a step, whatever the state is. */
module Folds {
  ghost function Fold<S>(f: (S, bool) -> S, s: S, bits: seq<bool>): S
    decreases |bits|
  {
    if bits == [] then s else Fold(f, f(s, bits[0]), bits[1..])
  }

  ghost function Iterate<S>(step: S -> S, s: S, n: nat): S
    decreases n
  {
    if n == 0 then s else Iterate(step, step(s), n - 1)
  }

  /** The first `n` bits a word gives up, and what is left of it. */
  ghost function Leading<S>(top: S -> bool, left: S -> S, d: S, n: nat): seq<bool>
    decreases n
  {
    if n == 0 then [] else [top(d)] + Leading(top, left, left(d), n - 1)
  }

  ghost function Flags(bits: seq<bool>, others: seq<bool>): seq<bool>
    requires |bits| == |others|
  {
    if bits == [] then [] else [bits[0] != others[0]] + Flags(bits[1..], others[1..])
  }

  lemma {:induction false} FoldConcat<S>(f: (S, bool) -> S, s: S, a: seq<bool>, b: seq<bool>)
    ensures Fold(f, s, a + b) == Fold(f, Fold(f, s, a), b)
    decreases |a|
  {
    if a == [] {
      assert a + b == b;
    } else {
      FoldConcat(f, f(s, a[0]), a[1..], b);
      assert (a + b)[1..] == a[1..] + b;
    }
  }

  /** If feeding a word's top bit is the same as adding the word and taking a step, then feeding
      its first bits is the same as adding it and taking as many steps. */
  lemma {:induction false} FoldWord<S(!new)>(f: (S, bool) -> S, step: S -> S, add: (S, S) -> S, top: S -> bool,
                                             left: S -> S,
                                             s: S, d: S, n: nat)
    requires forall x: S, y: S :: add(f(x, top(y)), left(y)) == step(add(x, y))
    ensures add(Fold(f, s, Leading(top, left, d, n)), Iterate(left, d, n)) == Iterate(step, add(s, d), n)
    decreases n
  {
    if n > 0 {
      FoldWord(f, step, add, top, left, f(s, top(d)), left(d), n - 1);
      assert Leading(top, left, d, n)[1..] == Leading(top, left, left(d), n - 1);
    }
  }

  /** If one bit is fed linearly, a sequence is. */
  lemma {:induction false} FoldLinear<S(!new)>(f: (S, bool) -> S, add: (S, S) -> S, s: S, t: S, a: seq<bool>,
                                               b: seq<bool>)
    requires |a| == |b|
    requires forall x: S, y: S, p: bool, q: bool :: add(f(x, p), f(y, q)) == f(add(x, y), p != q)
    ensures add(Fold(f, s, a), Fold(f, t, b)) == Fold(f, add(s, t), Flags(a, b))
    decreases |a|
  {
    if a != [] {
      FoldLinear(f, add, f(s, a[0]), f(t, b[0]), a[1..], b[1..]);
      assert Flags(a, b)[1..] == Flags(a[1..], b[1..]);
    }
  }

  /** A step that only zero leads to zero never reaches it. */
  lemma {:induction false} IterateNonzero<S(!new)>(step: S -> S, zero: S, s: S, n: nat)
    requires forall x: S :: step(x) == zero ==> x == zero
    requires s != zero
    ensures Iterate(step, s, n) != zero
    decreases n
  {
    if n > 0 {
      IterateNonzero(step, zero, step(s), n - 1);
    }
  }

  lemma {:induction false} FoldNonzero<S(!new)>(f: (S, bool) -> S, zero: S, s: S, bits: seq<bool>)
    requires forall x: S :: f(x, false) == zero ==> x == zero
    requires s != zero && forall i | 0 <= i < |bits| :: !bits[i]
    ensures Fold(f, s, bits) != zero
    decreases |bits|
  {
    if bits != [] {
      FoldNonzero(f, zero, f(s, bits[0]), bits[1..]);
    }
  }

  lemma {:induction false} FoldZero<S>(f: (S, bool) -> S, zero: S, bits: seq<bool>)
    requires f(zero, false) == zero && forall i | 0 <= i < |bits| :: !bits[i]
    ensures Fold(f, zero, bits) == zero
    decreases |bits|
  {
    if bits != [] {
      FoldZero(f, zero, bits[1..]);
    }
  }

  lemma {:induction false} FlagsAt(a: seq<bool>, b: seq<bool>)
    requires |a| == |b|
    ensures |Flags(a, b)| == |a| && forall i | 0 <= i < |a| :: Flags(a, b)[i] == (a[i] != b[i])
  {
    if a != [] {
      FlagsAt(a[1..], b[1..]);
    }
  }

  lemma LeadingFour<S>(top: S -> bool, left: S -> S, d: S, n: nat)
    requires n >= 4
    ensures Leading(top, left, d, n)
         == [top(d), top(left(d)), top(left(left(d))), top(left(left(left(d))))]
            + Leading(top, left, left(left(left(left(d)))), n - 4)
    ensures Iterate(left, d, n) == Iterate(left, left(left(left(left(d)))), n - 4)
  {
    var d1 := left(d);
    var d2 := left(d1);
    var d3 := left(d2);
    assert Leading(top, left, d, n) == [top(d)] + Leading(top, left, d1, n - 1);
    assert Leading(top, left, d1, n - 1) == [top(d1)] + Leading(top, left, d2, n - 2);
    assert Leading(top, left, d2, n - 2) == [top(d2)] + Leading(top, left, d3, n - 3);
    assert Leading(top, left, d3, n - 3) == [top(d3)] + Leading(top, left, left(d3), n - 4);
    assert Iterate(left, d, n) == Iterate(left, d1, n - 1) == Iterate(left, d2, n - 2) == Iterate(left, d3, n - 3);
  }

  lemma LeadingEight<S>(top: S -> bool, left: S -> S, d: S, m: S)
    requires m == left(left(left(left(d))))
    ensures Leading(top, left, d, 8)
         == [top(d), top(left(d)), top(left(left(d))), top(left(left(left(d)))),
             top(m), top(left(m)), top(left(left(m))), top(left(left(left(m))))]
    ensures Iterate(left, d, 8) == left(left(left(left(m))))
  {
    LeadingFour(top, left, d, 8);
    LeadingFour(top, left, m, 4);
  }

  lemma {:induction false} LeadingNext<S>(top: S -> bool, left: S -> S, d: S, n: nat)
    ensures Leading(top, left, d, n + 1) == Leading(top, left, d, n) + [top(Iterate(left, d, n))]
    ensures Iterate(left, d, n + 1) == left(Iterate(left, d, n))
    decreases n
  {
    if n > 0 {
      LeadingNext(top, left, left(d), n - 1);
    }
  }

  lemma FoldNext<S>(f: (S, bool) -> S, s: S, bits: seq<bool>, bit: bool)
    ensures Fold(f, s, bits + [bit]) == f(Fold(f, s, bits), bit)
  {
    FoldConcat(f, s, bits, [bit]);
  }

  /** Bits put in front of each other, the last one first. */
  ghost function Packed<S>(cons: (bool, S) -> S, zero: S, w: seq<bool>): S {
    if w == [] then zero else cons(w[0], Packed(cons, zero, w[1..]))
  }

  /** A bit put in front of a word that has room for it can be taken off again. */
  ghost predicate GivesBack<S>(cons: (bool, S) -> S, top: S -> bool, left: S -> S, room: (S, nat) -> bool, size: nat,
                               b: bool, x: S, k: nat)
  {
    k < size && room(x, k + 1) ==> room(cons(b, x), k) && top(cons(b, x)) == b && left(cons(b, x)) == x
  }

  /** A word with `room` for more bits gives back exactly the bits put in. */
  lemma {:induction false} PackedHolds<S(!new)>(cons: (bool, S) -> S, zero: S, top: S -> bool, left: S -> S,
                                                room: (S, nat) -> bool, size: nat, w: seq<bool>)
    requires |w| <= size && room(zero, size)
    requires forall b: bool, x: S, k: nat :: GivesBack(cons, top, left, room, size, b, x, k)
    ensures room(Packed(cons, zero, w), size - |w|)
    ensures Leading(top, left, Packed(cons, zero, w), |w|) == w && Iterate(left, Packed(cons, zero, w), |w|) == zero
    ensures w != [] ==> top(Packed(cons, zero, w)) == w[0]
  {
    if w != [] {
      PackedHolds(cons, zero, top, left, room, size, w[1..]);
      var x, k := Packed(cons, zero, w[1..]), size - |w|;
      assert GivesBack(cons, top, left, room, size, w[0], x, k);
      assert Leading(top, left, Packed(cons, zero, w), |w|) == [w[0]] + w[1..];
    }
  }

  lemma {:induction false} IterateLinear<S(!new)>(step: S -> S, add: (S, S) -> S, s: S, t: S, n: nat)
    requires forall x: S, y: S :: add(step(x), step(y)) == step(add(x, y))
    ensures add(Iterate(step, s, n), Iterate(step, t, n)) == Iterate(step, add(s, t), n)
    decreases n
  {
    if n > 0 {
      IterateLinear(step, add, step(s), step(t), n - 1);
    }
  }
}
