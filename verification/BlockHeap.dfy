/**
 * `xmalloc`, `xfree` and `xrealloc` over bucket allocators. Every block starts with a header word:
 * while the block is in use it names the allocator that issued it, and while the block is free the
 * same word is the free-list link.
 */
module BlockHeap {
  import opened FreeList

  const HEADER: nat := 16           // XALLOC_BLOCK_HEADER_SIZE on a 64-bit system

  /** The least power of two at or above `n`, starting from `p`. */
  function PowerFrom(p: nat, n: nat): (r: nat)
    requires p > 0
    ensures r >= n && r >= p && (r == p || r < 2 * n)
    decreases n - p
  {
    if p >= n then p else PowerFrom(2 * p, n)
  }

  function PowerOfTwo(e: nat): (r: nat)
    ensures r > 0
  {
    if e == 0 then 1 else 2 * PowerOfTwo(e - 1)
  }

  lemma {:induction false} PowersAscend(e: nat, f: nat)
    requires e <= f
    ensures PowerOfTwo(e) <= PowerOfTwo(f)
  {
    if e < f {
      PowersAscend(e, f - 1);
    }
  }

  lemma {:induction false} LeastPowerFrom(e: nat, n: nat) returns (f: nat)
    ensures e <= f && PowerFrom(PowerOfTwo(e), n) == PowerOfTwo(f)
    ensures f > e ==> PowerOfTwo(f - 1) < n
    decreases n - PowerOfTwo(e)
  {
    f := e;
    if PowerOfTwo(e) < n {
      f := LeastPowerFrom(e + 1, n);
    }
  }

  /** The block size is the least power of two that holds request and header, which is what
      `NextHigher.NextPower` computes on machine words, see `Rounding`. */
  lemma BlockSizeIsLeastPower(size: nat) returns (f: nat)
    ensures BlockSize(size) == PowerOfTwo(f)
    ensures forall e: nat | PowerOfTwo(e) >= size + HEADER :: BlockSize(size) <= PowerOfTwo(e)
  {
    f := LeastPowerFrom(0, size + HEADER);
    forall e: nat | PowerOfTwo(e) >= size + HEADER
      ensures PowerOfTwo(f) <= PowerOfTwo(e)
    {
      if e < f {
        PowersAscend(e, f - 1);
      } else {
        PowersAscend(f, e);
      }
    }
  }

  /** The block size that serves a request. */
  function BlockSize(size: nat): (r: nat)
    ensures r >= size + HEADER
  {
    PowerFrom(1, size + HEADER)
  }

  /** A raw block: where it starts, and the size of the blocks of the allocator that issued it. */
  datatype Block = Block(size: nat, inUse: bool)

  /** Blocks never overlap. */
  ghost predicate Apart(blocks: map<int, Block>) {
    forall p, q | p in blocks && q in blocks && p != q :: p + blocks[p].size <= q || q + blocks[q].size <= p
  }

  predicate IsFree(blocks: map<int, Block>, p: int, size: nat) {
    p in blocks && blocks[p].size == size && !blocks[p].inUse
  }

  /** The free list of one block size holds exactly the free blocks of that size. */
  ghost predicate ListHolds(size: nat, head: int, words: map<int, int>, free: seq<int>, blocks: map<int, Block>) {
    && Chained(head, words, free) && Distinct(free)
    && forall p :: p in free <==> IsFree(blocks, p, size)
  }

  function HeadOf(heads: map<nat, int>, size: nat): int {
    if size in heads then heads[size] else 0
  }

  ghost function FreeOf(free: map<nat, seq<int>>, size: nat): seq<int> {
    if size in free then free[size] else []
  }

  /** Headers are intact: a block in use names the allocator that issued it. */
  ghost predicate Headed(words: map<int, int>, blocks: map<int, Block>) {
    forall p | p in blocks :: p > 0 && blocks[p].size >= HEADER
      && (blocks[p].inUse ==> p in words && words[p] == blocks[p].size)
  }

  ghost predicate ListAt(heads: map<nat, int>, words: map<int, int>, free: map<nat, seq<int>>,
                         blocks: map<int, Block>, s: nat) {
    ListHolds(s, HeadOf(heads, s), words, FreeOf(free, s), blocks)
  }

  ghost predicate Lists(heads: map<nat, int>, words: map<int, int>, free: map<nat, seq<int>>, blocks: map<int, Block>) {
    forall s: nat :: ListAt(heads, words, free, blocks, s)
  }

  ghost predicate WellFormed(heads: map<nat, int>, words: map<int, int>, free: map<nat, seq<int>>,
                             blocks: map<int, Block>) {
    Apart(blocks) && Headed(words, blocks) && Lists(heads, words, free, blocks)
  }

  /** Where a new heap block may lie. */
  ghost predicate Fits(blocks: map<int, Block>, p: int, size: nat) {
    p > 0 && p !in blocks && forall q | q in blocks :: p + size <= q || q + blocks[q].size <= p
  }

  lemma PopKeeps(heads: map<nat, int>, words: map<int, int>, free: map<nat, seq<int>>, blocks: map<int, Block>, s: nat)
    requires WellFormed(heads, words, free, blocks) && HeadOf(heads, s) != 0
    ensures var p := HeadOf(heads, s);
            && p in words && FreeOf(free, s) != [] && p == FreeOf(free, s)[0] && p in blocks && !blocks[p].inUse
              && blocks[p].size == s
            && WellFormed(heads[s := words[p]], words[p := s], free[s := FreeOf(free, s)[1..]],
                          blocks[p := Block(s, true)])
  {
    var p, list := HeadOf(heads, s), FreeOf(free, s);
    assert ListAt(heads, words, free, blocks, s);
    assert list[0] in list && IsFree(blocks, p, s);
    var heads', words', free', blocks' := heads[s := words[p]], words[p := s], free[s := list[1..]],
      blocks[p := Block(s, true)];
    forall t: nat
      ensures ListAt(heads', words', free', blocks', t)
    {
      assert ListAt(heads, words, free, blocks, t);
      if t == s {
        PoppedList(s, words, list, blocks);
      } else {
        OtherList(t, HeadOf(heads, t), words, FreeOf(free, t), blocks, p, s, Block(s, true));
      }
    }
  }

  /** The head is the newest free block, or null if there is none. */
  lemma HeadIsFirst(heads: map<nat, int>, words: map<int, int>, free: map<nat, seq<int>>, blocks: map<int, Block>,
                    s: nat)
    requires WellFormed(heads, words, free, blocks)
    ensures if FreeOf(free, s) == [] then HeadOf(heads, s) == 0
            else HeadOf(heads, s) == FreeOf(free, s)[0] && HeadOf(heads, s) != 0
  {
    assert ListAt(heads, words, free, blocks, s);
  }

  lemma PoppedList(s: nat, words: map<int, int>, list: seq<int>, blocks: map<int, Block>)
    requires list != [] && ListHolds(s, list[0], words, list, blocks)
    ensures ListHolds(s, words[list[0]], words[list[0] := s], list[1..], blocks[list[0] := Block(s, true)])
  {
    var p := list[0];
    assert IsFree(blocks, p, s) by {
      assert p in list;
    }
    forall q
      ensures q in list[1..] <==> q in list && q != p
    {
      if q in list && q != p {
        var i :| 0 <= i < |list| && list[i] == q;
        assert list[1..][i - 1] == q;
      }
    }
  }

  /** A list does not notice a change to a block that is none of its own, before and after. */
  lemma OtherList(t: nat, head: int, words: map<int, int>, list: seq<int>, blocks: map<int, Block>, p: int, word: int,
                  b: Block)
    requires ListHolds(t, head, words, list, blocks) && p !in list && (b.inUse || b.size != t)
    ensures ListHolds(t, head, words[p := word], list, blocks[p := b])
  {
    forall q
      ensures q in list <==> IsFree(blocks[p := b], q, t)
    {
      assert q in list <==> IsFree(blocks, q, t);
    }
    forall i | 0 <= i < |list|
      ensures list[i] in words[p := word] && words[p := word][list[i]] == At(list, i + 1)
    {
      assert list[i] in list;
    }
  }

  lemma FreshKeeps(heads: map<nat, int>, words: map<int, int>, free: map<nat, seq<int>>, blocks: map<int, Block>,
                   s: nat, p: int)
    requires WellFormed(heads, words, free, blocks) && s >= HEADER && Fits(blocks, p, s)
    ensures WellFormed(heads, words[p := s], free, blocks[p := Block(s, true)])
  {
    var words', blocks' := words[p := s], blocks[p := Block(s, true)];
    forall t: nat
      ensures ListAt(heads, words', free, blocks', t)
    {
      assert ListAt(heads, words, free, blocks, t);
      OtherList(t, HeadOf(heads, t), words, FreeOf(free, t), blocks, p, s, Block(s, true));
    }
  }

  lemma FreeKeeps(heads: map<nat, int>, words: map<int, int>, free: map<nat, seq<int>>, blocks: map<int, Block>, p: int)
    requires WellFormed(heads, words, free, blocks) && p in blocks && blocks[p].inUse
    ensures var s := blocks[p].size;
            WellFormed(heads[s := p], words[p := HeadOf(heads, s)], free[s := [p] + FreeOf(free, s)],
                       blocks[p := Block(s, false)])
  {
    var s := blocks[p].size;
    var head, list := HeadOf(heads, s), FreeOf(free, s);
    var heads', words', free', blocks' := heads[s := p], words[p := head], free[s := [p] + list],
      blocks[p := Block(s, false)];
    forall t: nat
      ensures ListAt(heads', words', free', blocks', t)
    {
      assert ListAt(heads, words, free, blocks, t);
      if t == s {
        PushedList(s, head, words, list, blocks, p);
      } else {
        OtherList(t, HeadOf(heads, t), words, FreeOf(free, t), blocks, p, head, Block(s, false));
      }
    }
  }

  lemma PushedList(s: nat, head: int, words: map<int, int>, list: seq<int>, blocks: map<int, Block>, p: int)
    requires ListHolds(s, head, words, list, blocks) && p > 0 && p in blocks && blocks[p].inUse && blocks[p].size == s
    ensures ListHolds(s, p, words[p := head], [p] + list, blocks[p := Block(s, false)])
  {
    assert !IsFree(blocks, p, s);
    forall i | 0 <= i < |list|
      ensures list[i] != p
    {
      assert list[i] in list;
    }
  }

  function ByteAt(bytes: map<int, bv8>, a: int): bv8 {
    if a in bytes then bytes[a] else 0
  }

  /** `n` bytes from address `a` on. */
  ghost function Content(bytes: map<int, bv8>, a: int, n: nat): seq<bv8> {
    seq(n, i => ByteAt(bytes, a + i))
  }

  /** The bytes outside `n` bytes from `a` on are the same. */
  ghost predicate SameOutside(bytes: map<int, bv8>, bytes': map<int, bv8>, a: int, n: nat) {
    forall b | b < a || b >= a + n :: ByteAt(bytes', b) == ByteAt(bytes, b)
  }

  lemma ContentKept(bytes: map<int, bv8>, bytes': map<int, bv8>, a: int, n: nat, p: int, k: nat)
    requires SameOutside(bytes, bytes', a, n) && (p + k <= a || a + n <= p)
    ensures Content(bytes', p, k) == Content(bytes, p, k)
  {
  }

  lemma ContentGrows(bytes: map<int, bv8>, bytes': map<int, bv8>, to: int, from: int, i: nat, x: bv8,
                     was: map<int, bv8>)
    requires Content(bytes, to, i) == Content(was, from, i) && x == ByteAt(was, from + i)
             && bytes' == bytes[to + i := x]
    ensures Content(bytes', to, i + 1) == Content(was, from, i + 1)
  {
    ContentKept(bytes, bytes', to + i, 1, to, i);
    assert Content(bytes', to, i + 1) == Content(bytes', to, i) + [ByteAt(bytes', to + i)];
    assert Content(was, from, i + 1) == Content(was, from, i) + [x];
  }

  function Min(a: nat, b: nat): nat {
    if a < b then a else b
  }

  class XAllocator {
    /** The first word of every raw block. */
    var words: map<int, int>
    /** The client's bytes. */
    var bytes: map<int, bv8>
    /** The free-list head of the allocator of each block size. */
    var heads: map<nat, int>
    ghost var free: map<nat, seq<int>>
    ghost var blocks: map<int, Block>

    constructor ()
      ensures Valid() && blocks == map[]
    {
      words, bytes, heads, free, blocks := map[], map[], map[], map[], map[];
    }

    ghost predicate Valid()
      reads this
    {
      WellFormed(heads, words, free, blocks)
    }

    /** Is this a client pointer to a block in use? */
    ghost predicate Live(ptr: int)
      reads this
    {
      ptr - HEADER in blocks && blocks[ptr - HEADER].inUse
    }

    /** What a client may store in the block. */
    ghost function Usable(ptr: int): nat
      requires Valid() && Live(ptr)
      reads this
    {
      blocks[ptr - HEADER].size - HEADER
    }

    /** The client writes a byte of its block; the header is out of its reach. */
    method Store(ptr: int, i: nat, value: bv8)
      requires Valid() && Live(ptr) && i < Usable(ptr)
      modifies this`bytes
      ensures Valid() && bytes == old(bytes)[ptr + i := value]
    {
      bytes := bytes[ptr + i := value];
    }

    /** `xmalloc`; `heapBlock` is where the heap would put a new block of the size needed. */
    method Malloc(size: nat, heapBlock: int) returns (ptr: int)
      requires Valid() && Fits(blocks, heapBlock, BlockSize(size))
      modifies this`words, this`heads, this`free, this`blocks
      ensures Valid() && Live(ptr) && Usable(ptr) >= size && ptr != 0
      ensures !old(Live(ptr)) && blocks == old(blocks)[ptr - HEADER := Block(BlockSize(size), true)]
      ensures words[ptr - HEADER] == BlockSize(size)
      ensures var s, list := BlockSize(size), FreeOf(old(free), BlockSize(size));
              if list != [] then ptr - HEADER == list[0] && free == old(free)[s := list[1..]]
              else ptr - HEADER == heapBlock && free == old(free)
    {
      var s := BlockSize(size);
      var p := HeadOf(heads, s);
      HeadIsFirst(heads, words, free, blocks, s);
      if p != 0 {
        PopKeeps(heads, words, free, blocks, s);
        heads := heads[s := words[p]];
        free := free[s := FreeOf(free, s)[1..]];
      } else {
        p := heapBlock;
        FreshKeeps(heads, words, free, blocks, s, p);
      }
      words := words[p := s];
      blocks := blocks[p := Block(s, true)];
      ptr := p + HEADER;
    }

    /** `xfree`: the block goes to the free list of the allocator that issued it, named by the
        header word which the link then overwrites. */
    method Free(ptr: int)
      requires Valid() && (ptr != 0 ==> Live(ptr))
      modifies this`words, this`heads, this`free, this`blocks
      ensures Valid()
      ensures ptr == 0 ==> blocks == old(blocks) && free == old(free)
      ensures ptr != 0 ==>
        && blocks == old(blocks)[ptr - HEADER := Block(old(blocks)[ptr - HEADER].size, false)]
        && free == old(free)[old(blocks)[ptr - HEADER].size := [ptr - HEADER] + FreeOf(old(free),
              old(blocks)[ptr - HEADER].size)]
    {
      if ptr == 0 {
        return;
      }
      var p := ptr - HEADER;
      FreeKeeps(heads, words, free, blocks, p);
      var s := words[p];
      words := words[p := HeadOf(heads, s)];
      heads := heads[s := p];
      free := free[s := [p] + FreeOf(free, s)];
      blocks := blocks[p := Block(s, false)];
    }

    /** `memcpy` between two client areas that do not overlap. */
    method Copy(to: int, from: int, n: nat)
      requires to + n <= from || from + n <= to
      modifies this`bytes
      ensures Content(bytes, to, n) == Content(old(bytes), from, n) && SameOutside(old(bytes), bytes, to, n)
    {
      ghost var was := bytes;
      for i := 0 to n
        invariant Content(bytes, to, i) == Content(was, from, i) && SameOutside(was, bytes, to, i)
      {
        ghost var before := bytes;
        bytes := bytes[to + i := ByteAt(bytes, from + i)];
        ContentGrows(before, bytes, to, from, i, ByteAt(before, from + i), was);
      }
    }

    /** A client block other than `except` is as it was. */
    twostate predicate Untouched(except: int, q: int)
      requires old(Valid()) && Valid()
      reads this
    {
      old(Live(q)) && q != except ==>
        Live(q) && Usable(q) == old(Usable(q)) && Content(bytes, q, Usable(q)) == Content(old(bytes), q, old(Usable(q)))
    }

    lemma HeaderNamesIssuer(ptr: int)
      requires Valid() && Live(ptr)
      ensures ptr - HEADER in words && words[ptr - HEADER] == blocks[ptr - HEADER].size >= HEADER
    {
    }

    lemma LiveApart(p: int, q: int)
      requires Valid() && Live(p) && Live(q) && p != q
      ensures q + Usable(q) <= p || p + Usable(p) <= q
    {
    }

    /** `xrealloc`: the new block starts with the old one's bytes, as many as both hold; all other
        blocks keep theirs. */
    method Realloc(oldMem: int, size: nat, heapBlock: int) returns (ptr: int)
      requires Valid() && (oldMem != 0 ==> Live(oldMem)) && Fits(blocks, heapBlock, BlockSize(size))
      modifies this
      ensures Valid()
      ensures size == 0 && oldMem != 0 ==> ptr == 0 && !Live(oldMem)
      ensures size > 0 || oldMem == 0 ==> Live(ptr) && Usable(ptr) >= size && !old(Live(ptr))
      ensures size > 0 && oldMem != 0 ==>
        && !Live(oldMem)
        && Content(bytes, ptr, Min(old(Usable(oldMem)), size)) == Content(old(bytes), oldMem,
              Min(old(Usable(oldMem)), size))
      ensures forall q: int :: Untouched(oldMem, q)
    {
      hide WellFormed, Content;
      if oldMem == 0 {
        ptr := Malloc(size, heapBlock);
        return;
      }
      if size == 0 {
        Free(oldMem);
        return 0;
      }
      ptr := Malloc(size, heapBlock);
      Move(oldMem, ptr, size);
      forall q: int
        ensures Untouched(oldMem, q)
      {
        if old(Live(q)) && q != oldMem {
          LiveApart(ptr, q);
          ContentKept(old(bytes), bytes, ptr, Usable(ptr), q, Usable(q));
        }
      }
    }

    /** The bytes move to the new block, and the old one is freed. */
    method Move(oldMem: int, newMem: int, size: nat)
      requires Valid() && oldMem != 0 && Live(oldMem) && Live(newMem) && oldMem != newMem && Usable(newMem) >= size
      modifies this
      ensures Valid() && !Live(oldMem)
      ensures blocks == old(blocks)[oldMem - HEADER := Block(old(Usable(oldMem)) + HEADER, false)]
      ensures Content(bytes, newMem, Min(old(Usable(oldMem)), size))
           == Content(old(bytes), oldMem, Min(old(Usable(oldMem)), size))
      ensures SameOutside(old(bytes), bytes, newMem, old(Usable(newMem)))
    {
      LiveApart(oldMem, newMem);
      HeaderNamesIssuer(oldMem);
      hide Content, WellFormed;
      var oldSize := words[oldMem - HEADER] - HEADER;
      Copy(newMem, oldMem, Min(oldSize, size));
      Free(oldMem);
    }
  }
}
