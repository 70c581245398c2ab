/**
 * Time that wraps: the extension of the 32-bit kernel tick to an unbounded count, and the
 * comparison of wrapping sequence numbers that accepts only newer messages.
 */
module WrappingTime {
  const WORD: nat := 0x1_0000_0000

  /** `CmsisRtos2Clock`: the last tick seen and the wraps counted so far. */
  class Clock {
    var last: nat
    var high: nat

    constructor ()
      ensures last == 0 && high == 0
    {
      last, high := 0, 0;
    }

    /** `now`, at a moment when the kernel's tick counter reads `cur`. */
    method Now(cur: nat) returns (ticks: nat)
      requires cur < WORD
      modifies this
      ensures last == cur && high == old(high) + (if cur < old(last) then WORD else 0) && ticks == high + cur
    {
      if cur < last {
        high := high + WORD;
      }
      last := cur;
      ticks := high + cur;
    }

    /** The clock stands at the true tick `t`. */
    ghost predicate At(t: nat)
      reads this
    {
      last == t % WORD && high == t - t % WORD
    }

    method NowAt(t: nat, ghost before: nat) returns (ticks: nat)
      requires At(before) && before <= t < before + WORD
      modifies this
      ensures At(t) && ticks == t
    {
      Rollover(before, t);
      ticks := Now(t % WORD);
    }

    /** For any calls at true ticks that do not decrease and lie less than 2^32 apart, the first one
        before 2^32, the clock returns the exact unbounded ticks. */
    method Run(times: seq<nat>) returns (readings: seq<nat>)
      requires At(0) && Gaps(times)
      modifies this
      ensures readings == times
    {
      readings := [];
      for i := 0 to |times|
        invariant readings == times[..i] && At(if i == 0 then 0 else times[i - 1])
      {
        var ticks := NowAt(times[i], if i == 0 then 0 else times[i - 1]);
        readings := readings + [ticks];
      }
    }
  }

  ghost predicate Gaps(times: seq<nat>) {
    && (times != [] ==> times[0] < WORD)
    && forall i | 0 < i < |times| :: times[i - 1] <= times[i] < times[i - 1] + WORD
  }

  /** Within one lap, the tick counter reads less than before exactly when it has wrapped, once. */
  lemma Rollover(t: nat, t': nat)
    requires t <= t' < t + WORD
    ensures t' - t' % WORD == t - t % WORD + if t' % WORD < t % WORD then WORD else 0
  {
  }

  /** A gap of 2^32 goes unnoticed: the reading falls behind by a whole lap. */
  lemma FullLapIsMissed(t: nat)
    ensures !((t + WORD) % WORD < t % WORD)
  {
  }

  /** `w`-bit unsigned numbers: the range, and half of it. */
  datatype Width = W8 | W16 | W32

  function Range(w: Width): (r: nat)
    ensures r >= 0x100
  {
    match w
    case W8 => 0x100
    case W16 => 0x1_0000
    case W32 => 0x1_0000_0000
  }

  /** The subtraction wraps, and its result is read as a signed number of the same width. */
  function SignedDifference(a: nat, b: nat, w: Width): int {
    var d := (a - b) % Range(w);
    if d >= Range(w) / 2 then d - Range(w) else d
  }

  lemma Residue8(x: int, y: int)
    ensures (x % 0x100 - y % 0x100) % 0x100 == (x - y) % 0x100
  {
  }

  lemma Residue16(x: int, y: int)
    ensures (x % 0x1_0000 - y % 0x1_0000) % 0x1_0000 == (x - y) % 0x1_0000
  {
  }

  lemma Residue32(x: int, y: int)
    ensures (x % 0x1_0000_0000 - y % 0x1_0000_0000) % 0x1_0000_0000 == (x - y) % 0x1_0000_0000
  {
  }

  lemma ResidueOfDifference(x: int, y: int, w: Width)
    ensures (x % Range(w) - y % Range(w)) % Range(w) == (x - y) % Range(w)
  {
    match w
    case W8 => Residue8(x, y);
    case W16 => Residue16(x, y);
    case W32 => Residue32(x, y);
  }

  lemma SmallResidue(d: int, w: Width)
    ensures 0 <= d < Range(w) ==> d % Range(w) == d
    ensures d < 0 <= d + Range(w) ==> d % Range(w) == d + Range(w)
  {
    match w
    case W8 =>
    case W16 =>
    case W32 =>
  }

  /** Truncation to `w` bits loses nothing within half the range. */
  lemma DifferenceIsTrue(x: nat, y: nat, w: Width)
    requires -(Range(w) / 2) <= x - y < Range(w) / 2
    ensures SignedDifference(x % Range(w), y % Range(w), w) == x - y
  {
    ResidueOfDifference(x, y, w);
    SmallResidue(x - y, w);
  }

  class MonotonicGuard {
    const width: Width
    var lastTimestamp: nat
    var first: bool

    constructor (width: Width)
      ensures this.width == width && first && lastTimestamp == 0
    {
      this.width, lastTimestamp, first := width, 0, true;
    }

    /** `IsNewer`. */
    method IsNewer(timestamp: nat) returns (newer: bool)
      modifies this`lastTimestamp, this`first
      ensures newer == (old(first) || SignedDifference(timestamp, old(lastTimestamp), width) > 0)
      ensures lastTimestamp == (if newer then timestamp else old(lastTimestamp)) && first == (old(first) && !newer)
    {
      if first {
        lastTimestamp := timestamp;
        first := false;
        return true;
      }
      var diff := SignedDifference(timestamp, lastTimestamp, width);
      if diff > 0 {
        lastTimestamp := timestamp;
        return true;
      }
      newer := false;
    }

    /** On truncations of true numbers, each within half the range of the last one accepted, the
        guard accepts exactly those greater than all before: the strict running maxima. */
    method Filter(numbers: seq<nat>) returns (accepted: seq<bool>)
      requires first && Close(numbers, width)
      modifies this`lastTimestamp, this`first
      ensures accepted == RunningMaxima(numbers)
    {
      accepted := [];
      for i := 0 to |numbers|
        invariant accepted == RunningMaxima(numbers[..i])
        invariant first == (i == 0)
        invariant i > 0 ==> lastTimestamp == Highest(numbers[..i]) % Range(width)
      {
        assert numbers[..i + 1][..i] == numbers[..i];
        if i > 0 {
          assert Close(numbers, width);
          DifferenceIsTrue(numbers[i], Highest(numbers[..i]), width);
        }
        var newer := IsNewer(numbers[i] % Range(width));
        accepted := accepted + [newer];
      }
      assert numbers[..|numbers|] == numbers;
    }
  }

  ghost function Highest(numbers: seq<nat>): nat {
    if numbers == [] then 0
    else
      var n := |numbers| - 1;
      if n == 0 || numbers[n] > Highest(numbers[..n]) then numbers[n] else Highest(numbers[..n])
  }

  /** Which numbers are greater than all before them. */
  ghost function RunningMaxima(numbers: seq<nat>): seq<bool> {
    if numbers == [] then []
    else
      var n := |numbers| - 1;
      RunningMaxima(numbers[..n]) + [n == 0 || numbers[n] > Highest(numbers[..n])]
  }

  lemma {:induction false} HighestIsMaximum(numbers: seq<nat>, i: nat)
    requires i < |numbers|
    ensures numbers[i] <= Highest(numbers) && Highest(numbers) in numbers
  {
    var n := |numbers| - 1;
    if n > 0 {
      HighestIsMaximum(numbers[..n], if i < n then i else 0);
      assert numbers == numbers[..n] + [numbers[n]];
    }
  }

  /** Every number after the first lies within half the range of the highest before it. */
  ghost predicate Close(numbers: seq<nat>, w: Width) {
    forall i | 0 < i < |numbers| :: -(Range(w) / 2) <= numbers[i] - Highest(numbers[..i]) < Range(w) / 2
  }

  /** Half the range is the limit: a number that far ahead is taken for an old one. */
  lemma HalfRangeAheadRejected(x: nat, w: Width)
    ensures SignedDifference((x + Range(w) / 2) % Range(w), x % Range(w), w) < 0
  {
    ResidueOfDifference(x + Range(w) / 2, x, w);
    SmallResidue(Range(w) / 2, w);
  }
}
