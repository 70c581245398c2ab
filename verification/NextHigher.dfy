/** Rounding a request up to a power of two by smearing its highest bit over those below. */
module NextHigher {
  predicate PowerOfTwo(r: bv64) {
    r != 0 && r & (r - 1) == 0
  }

  /** What the smearing loop has made of `k` after `n` rounds. */
  function Smeared(k: bv64, n: nat): bv64 {
    var a := k | (k >> 1);
    var b := a | (a >> 2);
    var c := b | (b >> 4);
    var d := c | (c >> 8);
    var e := d | (d >> 16);
    match n
    case 0 => k
    case 1 => a
    case 2 => b
    case 3 => c
    case 4 => d
    case 5 => e
    case _ => e | (e >> 32)
  }

  function Stride(n: nat): bv64 {
    match n
    case 0 => 1
    case 1 => 2
    case 2 => 4
    case 3 => 8
    case 4 => 16
    case 5 => 32
    case _ => 64
  }

  /** All the smears together make every bit below the highest one. */
  lemma FullySmeared(k: bv64)
    ensures Smeared(k, 6) == k | (Smeared(k, 6) >> 1)
  {
  }

  lemma OnesPlusOne(k: bv64, x: bv64)
    requires x == k | (x >> 1)
    ensures x & (x + 1) == 0
  {
  }

  lemma Round0(k: bv64, x: bv64, i: bv64)
    requires i == 1 && x == Smeared(k, 0)
    ensures x | (x >> i) == Smeared(k, 1) && i << 1 == 2
  {
  }

  lemma Round1(k: bv64, x: bv64, i: bv64)
    requires i == 2 && x == Smeared(k, 1)
    ensures x | (x >> i) == Smeared(k, 2) && i << 1 == 4
  {
  }

  lemma Round2(k: bv64, x: bv64, i: bv64)
    requires i == 4 && x == Smeared(k, 2)
    ensures x | (x >> i) == Smeared(k, 3) && i << 1 == 8
  {
  }

  lemma Round3(k: bv64, x: bv64, i: bv64)
    requires i == 8 && x == Smeared(k, 3)
    ensures x | (x >> i) == Smeared(k, 4) && i << 1 == 16
  {
  }

  lemma Round4(k: bv64, x: bv64, i: bv64)
    requires i == 16 && x == Smeared(k, 4)
    ensures x | (x >> i) == Smeared(k, 5) && i << 1 == 32
  {
  }

  lemma Round5(k: bv64, x: bv64, i: bv64)
    requires i == 32 && x == Smeared(k, 5)
    ensures x | (x >> i) == Smeared(k, 6) && i << 1 == 64
  {
  }

  lemma Round(k: bv64, x: bv64, i: bv64, n: nat)
    requires n < 6 && i == Stride(n) && x == Smeared(k, n)
    ensures x | (x >> i) == Smeared(k, n + 1) && i << 1 == Stride(n + 1) && (i << 1 < 64 <==> n + 1 < 6)
  {
    if
    case n == 0 => Round0(k, x, i);
    case n == 1 => Round1(k, x, i);
    case n == 2 => Round2(k, x, i);
    case n == 3 => Round3(k, x, i);
    case n == 4 => Round4(k, x, i);
    case n == 5 => Round5(k, x, i);
  }

  /** The bit-smearing loop. */
  method Smear(k: bv64) returns (x: bv64)
    ensures x == Smeared(k, 6)
  {
    x := k;
    var i: bv64 := 1;
    ghost var n := 0;
    while i < 64
      invariant n <= 6 && i == Stride(n) && x == Smeared(k, n) && (i < 64 <==> n < 6)
      decreases 6 - n
    {
      Round(k, x, i, n);
      x := x | (x >> i);
      i := i << 1;
      n := n + 1;
    }
  }

  const TOP: bv64 := 0x8000_0000_0000_0000

  /** The least power of two that is not below `k`. */
  ghost predicate LeastPower(k: bv64, r: bv64) {
    PowerOfTwo(r) && k <= r && forall p | PowerOfTwo(p) && k <= p :: r <= p
  }

  /** `nexthigher`: the least power of two that is not below `k`; zero, and arguments above 2^63,
      wrap around to zero. */
  method NextPower(k: bv64) returns (r: bv64)
    ensures 1 <= k <= TOP ==> LeastPower(k, r)
    ensures k == 0 || k > TOP ==> r == 0
    ensures r == Smeared(k - 1, 6) + 1
  {
    var x := Smear(k - 1);
    r := x + 1;
    FullySmeared(k - 1);
    if 1 <= k <= TOP {
      RoundedUp(k, x);
    } else {
      WrapsToZero(k, x);
    }
  }

  lemma RoundedUp(k: bv64, x: bv64)
    requires x == (k - 1) | (x >> 1) && 1 <= k <= TOP
    ensures LeastPower(k, x + 1)
  {
    OnesPlusOne(k - 1, x);
    BecomesPower(k, x);
    forall p | PowerOfTwo(p) && k <= p
      ensures x + 1 <= p
    {
      hide PowerOfTwo;
      OneLess(k, p);
      SmearBelow(k - 1, x, p);
    }
  }

  lemma OneLess(k: bv64, p: bv64)
    requires 1 <= k <= p && PowerOfTwo(p)
    ensures k - 1 < p
  {
  }

  /** Smearing stays below any power of two that is above. */
  lemma SmearBelow(k: bv64, x: bv64, p: bv64)
    requires x == k | (x >> 1) && PowerOfTwo(p) && k < p
    ensures x + 1 <= p
  {
  }

  lemma BecomesPower(k: bv64, x: bv64)
    requires x == (k - 1) | (x >> 1) && 1 <= k <= TOP && x & (x + 1) == 0
    ensures PowerOfTwo(x + 1) && k <= x + 1
  {
  }

  lemma WrapsToZero(k: bv64, x: bv64)
    requires x == (k - 1) | (x >> 1) && (k == 0 || k > TOP)
    ensures x + 1 == 0
  {
  }
}
