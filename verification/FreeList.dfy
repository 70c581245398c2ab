/** A free list threaded through the first words of the free blocks. */
module FreeList {
  ghost function At(list: seq<int>, i: nat): int {
    if i < |list| then list[i] else 0
  }

  /** From `head`, through the first words, exactly the blocks of `free`. */
  ghost predicate Chained(head: int, words: map<int, int>, free: seq<int>) {
    && head == At(free, 0)
    && (forall i | 0 <= i < |free| :: free[i] != 0 && free[i] in words && words[free[i]] == At(free, i + 1))
  }

  ghost predicate Distinct(s: seq<int>) {
    forall i, j | 0 <= i < j < |s| :: s[i] != s[j]
  }
}
