/**
 * Rounding on machine words and rounding on numbers agree: a word stands for the number its bits
 * spell, and the smeared and incremented word of `NextHigher` for the power of two of `BlockHeap`.
 */
module Rounding {
  import NextHigher
  import opened BlockHeap

  /** The number a word stands for: twice that of all bits but the last, and the last. */
  ghost function Number(k: bv64): nat {
    if k == 0 then 0 else 2 * Number(k >> 1) + if k & 1 == 1 then 1 else 0
  }

  /** How many bits a word takes. */
  ghost function Bits(k: bv64): nat {
    if k == 0 then 0 else 1 + Bits(k >> 1)
  }

  /** A word has as many bits as the power of two just above its number says. */
  lemma {:induction false} NumberWithinBits(k: bv64)
    ensures Number(k) < PowerOfTwo(Bits(k))
    ensures Bits(k) > 0 ==> PowerOfTwo(Bits(k) - 1) <= Number(k)
  {
    if k != 0 {
      NumberWithinBits(k >> 1);
    }
  }

  lemma OnesHalved(x: bv64)
    requires x & (x + 1) == 0 && x != 0
    ensures (x >> 1) & ((x >> 1) + 1) == 0 && x & 1 == 1
  {
  }

  /** A word of ones only is one below its power of two. */
  lemma {:induction false} OnesNumber(x: bv64)
    requires x & (x + 1) == 0
    ensures Number(x) + 1 == PowerOfTwo(Bits(x))
  {
    if x != 0 {
      OnesHalved(x);
      OnesNumber(x >> 1);
    }
  }

  lemma SmearHalved(k: bv64, x: bv64)
    requires x == k | (x >> 1)
    ensures x >> 1 == (k >> 1) | ((x >> 1) >> 1)
    ensures x == 0 <==> k == 0
  {
  }

  /** Smearing adds no bits at the top. */
  lemma {:induction false} SmearKeepsBits(k: bv64, x: bv64)
    requires x == k | (x >> 1)
    ensures Bits(x) == Bits(k)
    decreases k
  {
    SmearHalved(k, x);
    if k != 0 {
      SmearKeepsBits(k >> 1, x >> 1);
    }
  }

  predicate Odd(x: bv64) {
    x & 1 == 1
  }

  lemma Increment(x: bv64, y: bv64)
    requires y == x + 1 && y != 0
    ensures !Odd(x) ==> y >> 1 == x >> 1 && Odd(y)
    ensures Odd(x) ==> y >> 1 == (x >> 1) + 1 && !Odd(y) && y >> 1 != 0
  {
  }

  lemma NumberHalves(x: bv64)
    ensures Number(x) == 2 * Number(x >> 1) + if Odd(x) then 1 else 0
    ensures Odd(x) ==> Bits(x) == Bits(x >> 1) + 1
  {
  }

  lemma {:induction false} NextNumber(x: bv64, y: bv64)
    requires y == x + 1 && y != 0
    ensures Number(y) == Number(x) + 1
    decreases Bits(x)
  {
    hide *;
    Increment(x, y);
    NumberHalves(x);
    NumberHalves(y);
    if Odd(x) {
      NextNumber(x >> 1, y >> 1);
    }
  }

  /** The next power of two of a number between two is the upper one. */
  lemma {:induction false} PowerFromBetween(e: nat, n: nat, f: nat)
    requires e <= f && n <= PowerOfTwo(f) && (f > e ==> PowerOfTwo(f - 1) < n)
    ensures PowerFrom(PowerOfTwo(e), n) == PowerOfTwo(f)
    decreases f - e
  {
    if e < f {
      PowersAscend(e, f - 1);
      PowerFromBetween(e + 1, n, f);
    }
  }

  /** What the six smears of `l` and the increment give for the word after `l`, unless it wraps. */
  lemma SmearedIsPowerFrom(l: bv64, k: bv64, x: bv64, r: bv64)
    requires k == l + 1 && k != 0 && x == l | (x >> 1) && r == x + 1 && r != 0
    ensures Number(r) == PowerFrom(1, Number(k))
  {
    hide *;
    SmearIsOnes(l, x);
    OnesNumber(x);
    SmearKeepsBits(l, x);
    NumberWithinBits(l);
    NextNumber(x, r);
    NextNumber(l, k);
    OneIsPower();
    PowerFromBetween(0, Number(k), Bits(l));
  }

  lemma SmearIsOnes(l: bv64, x: bv64)
    requires x == l | (x >> 1)
    ensures x & (x + 1) == 0
  {
    NextHigher.OnesPlusOne(l, x);
  }

  lemma OneIsPower()
    ensures PowerOfTwo(0) == 1
  {
  }

  lemma LeastPowerIsNotZero(k: bv64, r: bv64)
    requires NextHigher.LeastPower(k, r)
    ensures r != 0
  {
  }

  lemma RoundedIsPowerFrom(l: bv64, k: bv64, r: bv64)
    requires k == l + 1 && k != 0 && r == NextHigher.Smeared(l, 6) + 1 && r != 0
    ensures Number(r) == PowerFrom(1, Number(k))
  {
    hide *;
    NextHigher.FullySmeared(l);
    SmearedIsPowerFrom(l, k, NextHigher.Smeared(l, 6), r);
  }

  lemma RoundedIsBlockSize(total: bv64, r: bv64, size: nat)
    requires total != 0 && r == NextHigher.Smeared(total - 1, 6) + 1 && r != 0 && Number(total) == size + HEADER
    ensures Number(r) == BlockSize(size)
  {
    hide NextHigher.Smeared, Number, PowerFrom;
    RoundedIsPowerFrom(total - 1, total, r);
  }

  /** The block size the allocator computes on machine words, from request and header together, is
      the one `BlockHeap` computes on numbers. */
  method WordBlockSize(total: bv64, ghost size: nat) returns (r: bv64)
    requires 1 <= total <= NextHigher.TOP && Number(total) == size + HEADER
    ensures Number(r) == BlockSize(size)
  {
    hide *;
    r := NextHigher.NextPower(total);
    LeastPowerIsNotZero(total, r);
    NotZero(total);
    RoundedIsBlockSize(total, r, size);
  }

  lemma NotZero(k: bv64)
    requires k >= 1
    ensures k != 0
  {
  }
}
