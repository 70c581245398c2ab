/**
 * The fixed-block allocator: a pool cut into equal blocks, or blocks from the heap, and a free
 * list threaded through the first word of the free blocks themselves. While a block is in use its
 * owner may write anything into that word.
 */
module Allocator {
  import opened FreeList

  const POINTER_SIZE: nat := 8
  const WORD: nat := 0x1_0000_0000

  datatype Request = Granted(block: int) | Exhausted | Refused

  /** The address of block `i`; `size` bytes a block. */
  function Address(pool: int, size: nat, i: nat): int {
    pool + Scaled(size, i)
  }

  function Scaled(size: nat, i: nat): nat {
    if i == 0 then 0 else Scaled(size, i - 1) + size
  }

  /** Blocks do not overlap, and lie within a pool of `n` blocks. */
  lemma {:induction false} BlocksApart(pool: int, size: nat, i: nat, j: nat)
    requires i < j
    ensures Address(pool, size, i) + size <= Address(pool, size, j)
    ensures Address(pool, size, i) >= pool
  {
    if i + 1 < j {
      BlocksApart(pool, size, i, j - 1);
    }
  }

  /** Blocks are aligned: a block's offset is a multiple of the block size. */
  lemma {:induction false} BlocksAligned(pool: int, size: nat, i: nat)
    ensures Address(pool, size, i) == pool + size * i
  {
    if i > 0 {
      BlocksAligned(pool, size, i - 1);
      assert size * i == size * (i - 1) + size;
    }
  }

  /** No block is both free and in use, nor free twice. */
  ghost predicate Parted(free: seq<int>, inUse: set<int>) {
    Distinct(free) && 0 !in inUse && forall b | b in free :: b !in inUse
  }

  /** In a pool, the blocks handed out so far are exactly the first `index`, and are accounted for. */
  ghost predicate PoolParted(pool: int, size: nat, index: nat, free: seq<int>, inUse: set<int>) {
    && |free| + |inUse| == index
    && forall b :: b in free || b in inUse ==> exists i :: 0 <= i < index && b == Address(pool, size, i)
  }

  /** Counters wrap at 32 bits. */
  lemma Up(n: nat)
    ensures (n % WORD + 1) % WORD == (n + 1) % WORD
  {
  }

  lemma Down(n: nat)
    requires n > 0
    ensures (n % WORD - 1) % WORD == (n - 1) % WORD
  {
  }

  datatype Op = Get(size: nat, heapBlock: int) | Put(block: int) | Write(block: int, value: int)

  class Allocator {
    const blockSize: nat
    const objectSize: nat
    const maxObjects: nat
    const pool: int
    var head: int
    var poolIndex: nat
    var blockCnt: nat
    var blocksInUse: nat
    var allocations: nat
    var deallocations: nat
    /** The first word of every block there is. */
    var words: map<int, int>
    /** The free blocks, newest first, and the blocks in use: what the pointers stand for. */
    var free: seq<int>
    var inUse: set<int>
    ghost var granted: nat
    ghost var returned: nat

    constructor (size: nat, objects: nat, memory: int)
      requires objects < WORD && memory > 0
      ensures Valid() && objectSize == size && maxObjects == objects && blockSize >= size && blockSize >= POINTER_SIZE
      ensures inUse == {} && free == [] && granted == 0 && returned == 0
    {
      blockSize := if size < POINTER_SIZE then POINTER_SIZE else size;
      objectSize, maxObjects, pool := size, objects, memory;
      head, poolIndex, blockCnt, blocksInUse, allocations, deallocations, words := 0, 0, 0, 0, 0, 0, map[];
      free, inUse, granted, returned := [], {}, 0, 0;
    }

    ghost predicate Counted()
      reads this
    {
      && |inUse| == granted - returned
      && allocations == granted % WORD && deallocations == returned % WORD && blocksInUse == |inUse| % WORD
    }

    ghost predicate Valid()
      reads this
    {
      && blockSize >= POINTER_SIZE && pool > 0 && maxObjects < WORD && poolIndex <= maxObjects
      && Chained(head, words, free) && Parted(free, inUse) && Counted()
      && (maxObjects > 0 ==> PoolParted(pool, blockSize, poolIndex, free, inUse))
    }

    /** `Pop`. */
    method Pop() returns (block: int)
      requires Valid()
      modifies this`head, this`free
      ensures Chained(head, words, free) && block == At(old(free), 0)
      ensures free == if old(free) == [] then [] else old(free)[1..]
    {
      block := head;
      if head != 0 {
        head := words[head];
        free := free[1..];
      }
    }

    /** `Push`: the block's first word becomes the link, whatever its owner had left there. */
    method Push(block: int)
      requires Chained(head, words, free) && block != 0 && block !in free
      modifies this`head, this`words, this`free
      ensures Chained(head, words, free) && free == [block] + old(free)
    {
      words := words[block := head];
      head := block;
      free := [block] + free;
    }

    /** The owner of a block writes into its first word. */
    method Scribble(block: int, value: int)
      requires Valid() && block in inUse
      modifies this`words
      ensures Valid() && words == old(words)[block := value]
    {
      words := words[block := value];
    }

    /** A block is handed out, and counted. */
    method Hand(block: int)
      requires Chained(head, words, free) && Counted() && block !in inUse
      modifies this`blocksInUse, this`allocations, this`inUse, this`granted
      ensures Chained(head, words, free) && Counted() && inUse == old(inUse) + {block}
      ensures granted == old(granted) + 1
    {
      Up(|inUse|);
      Up(granted);
      assert |inUse + {block}| == |inUse| + 1;
      blocksInUse := (blocksInUse + 1) % WORD;
      allocations := (allocations + 1) % WORD;
      inUse := inUse + {block};
      granted := granted + 1;
    }

    /** `Allocate`, with no new-handler installed; `heapBlock` is what the heap would return. */
    method Allocate(size: nat, heapBlock: int) returns (r: Request)
      requires Valid() && (maxObjects == 0 ==> heapBlock != 0 && heapBlock !in free && heapBlock !in inUse)
      modifies this
      ensures Valid()
      ensures r == Refused <==> size > objectSize
      ensures r == Exhausted <==> size <= objectSize && maxObjects > 0 && old(|inUse|) == maxObjects
      ensures !r.Granted? ==>
        inUse == old(inUse) && free == old(free) && granted == old(granted) && returned == old(returned)
      ensures r.Granted? ==>
        && r.block !in old(inUse) && inUse == old(inUse) + {r.block} && r.block !in free
        && granted == old(granted) + 1 && returned == old(returned)
        && (maxObjects > 0 ==> exists i :: 0 <= i < maxObjects && r.block == Address(pool, blockSize, i))
        && (if old(free) != [] then r.block == old(free)[0] && free == old(free)[1..]
            else free == []
                 && r.block == if maxObjects > 0 then Address(pool, blockSize, old(poolIndex)) else heapBlock)
    {
      if size > objectSize {
        return Refused;
      }
      if head != 0 {
        var block := Reuse();
        return Granted(block);
      }
      if maxObjects > 0 {
        if poolIndex >= maxObjects {
          return Exhausted;
        }
        var block := Carve();
        return Granted(block);
      }
      blockCnt := (blockCnt + 1) % WORD;
      words := words[heapBlock := 0];
      Hand(heapBlock);
      r := Granted(heapBlock);
    }

    /** The newest free block. */
    method Reuse() returns (block: int)
      requires Valid() && head != 0
      modifies this`head, this`free, this`blocksInUse, this`allocations, this`inUse, this`granted
      ensures Valid() && old(free) != [] && block == old(free)[0] && free == old(free)[1..]
      ensures block !in old(inUse) && inUse == old(inUse) + {block} && block !in free && granted == old(granted) + 1
    {
      PopParts(pool, blockSize, poolIndex, free, inUse);
      block := Pop();
      Hand(block);
    }

    /** The next block of the untouched pool tail. */
    method Carve() returns (block: int)
      requires Valid() && 0 < maxObjects && poolIndex < maxObjects && free == []
      modifies this`poolIndex, this`words, this`blocksInUse, this`allocations, this`inUse, this`granted
      ensures Valid() && block == Address(pool, blockSize, old(poolIndex))
      ensures block !in old(inUse) && inUse == old(inUse) + {block} && granted == old(granted) + 1
    {
      CarveParts(pool, blockSize, poolIndex, free, inUse);
      block := Address(pool, blockSize, poolIndex);
      poolIndex := poolIndex + 1;
      words := words[block := 0];
      Hand(block);
    }

    /** `Deallocate` of a block in use. */
    method Deallocate(block: int)
      requires Valid() && block in inUse
      modifies this
      ensures Valid() && inUse == old(inUse) - {block} && free == [block] + old(free)
      ensures granted == old(granted) && returned == old(returned) + 1
    {
      PushParts(pool, blockSize, poolIndex, free, inUse, block);
      Push(block);
      TakeBack(block);
    }

    /** A block is taken back, and counted. */
    method TakeBack(block: int)
      requires Chained(head, words, free) && Counted() && block in inUse
      modifies this`blocksInUse, this`deallocations, this`inUse, this`returned
      ensures Chained(head, words, free) && Counted() && inUse == old(inUse) - {block}
      ensures returned == old(returned) + 1
    {
      Down(|inUse|);
      Up(returned);
      assert |inUse - {block}| == |inUse| - 1;
      blocksInUse := (blocksInUse - 1) % WORD;
      deallocations := (deallocations + 1) % WORD;
      inUse := inUse - {block};
      returned := returned + 1;
    }

    /** Any run that frees and writes only blocks in use: free blocks, blocks in use and the
        untouched tail never overlap, and the blocks in use are those granted and not returned. */
    method Run(ops: seq<Op>)
      requires Valid()
      modifies this
      ensures Valid() && |inUse| == granted - returned
      ensures maxObjects > 0 ==> |free| + |inUse| == poolIndex <= maxObjects
    {
      for n := 0 to |ops|
        invariant Valid()
      {
        Perform(ops[n]);
      }
    }

    /** One operation of a run; one that does not respect ownership is skipped. */
    method Perform(op: Op)
      requires Valid()
      modifies this
      ensures Valid()
      ensures op.Put? ==> inUse == old(inUse) - {op.block} && granted == old(granted)
      ensures op.Write? ==> inUse == old(inUse) && free == old(free)
                            && words == if op.block in inUse then old(words)[op.block := op.value] else old(words)
      ensures op.Get? ==> old(inUse) <= inUse && returned == old(returned)
      ensures op.Get? && op.size <= objectSize && maxObjects > 0 && old(|inUse|) < maxObjects ==>
              granted == old(granted) + 1
      ensures op.Get? && op.size <= objectSize && maxObjects == 0 && op.heapBlock != 0
              && op.heapBlock !in old(free) && op.heapBlock !in old(inUse) ==>
              granted == old(granted) + 1
    {
      match op
      case Get(size, heapBlock) =>
        if maxObjects > 0 || (heapBlock != 0 && heapBlock !in free && heapBlock !in inUse) {
          var r := Allocate(size, heapBlock);
        }
      case Put(block) =>
        if block in inUse {
          Deallocate(block);
        }
      case Write(block, value) =>
        if block in inUse {
          Scribble(block, value);
        }
    }
  }

  lemma PopParts(pool: int, size: nat, index: nat, free: seq<int>, inUse: set<int>)
    requires Parted(free, inUse) && free != []
    ensures Parted(free[1..], inUse + {free[0]}) || free[0] == 0
    ensures PoolParted(pool, size, index, free, inUse) ==> PoolParted(pool, size, index, free[1..], inUse + {free[0]})
  {
    var block := free[0];
    assert block in free;
    assert |inUse + {block}| == |inUse| + 1;
    forall b | b in free[1..]
      ensures b in free && b != block
    {
      var i :| 0 <= i < |free[1..]| && free[1..][i] == b;
      assert free[i + 1] == b;
    }
  }

  lemma PushParts(pool: int, size: nat, index: nat, free: seq<int>, inUse: set<int>, block: int)
    requires Parted(free, inUse) && block in inUse
    ensures Parted([block] + free, inUse - {block})
    ensures PoolParted(pool, size, index, free, inUse) ==>
            PoolParted(pool, size, index, [block] + free, inUse - {block})
  {
  }

  lemma CarveParts(pool: int, size: nat, index: nat, free: seq<int>, inUse: set<int>)
    requires Parted(free, inUse) && size > 0 && pool > 0 && free == [] && PoolParted(pool, size, index, free, inUse)
    ensures var block := Address(pool, size, index);
            block !in inUse && Parted(free, inUse + {block}) && PoolParted(pool, size, index + 1, free, inUse + {block})
  {
    var block := Address(pool, size, index);
    if block in inUse {
      var i :| 0 <= i < index && block == Address(pool, size, i);
      BlocksApart(pool, size, i, index);
    }
    if index > 0 {
      BlocksApart(pool, size, 0, index);
    }
  }
}
