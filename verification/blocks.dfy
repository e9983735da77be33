/**
 Splitting an index range into blocks: the `blocks` class of include/thread-pool/BS_thread_pool.hpp.
 Indices are unbounded integers: the range must be representable in the index type.
 */
module LoopBlocks {

  datatype Blocks = Blocks(first: int, after: int, num: nat, size: nat, remainder: nat) {

    function Start(block: nat): int {
      first + block * size + (if block < remainder then block else remainder)
    }

    function End(block: nat): int {
      if block == num - 1 then after else Start(block + 1)
    }
  }

  /** The constructor. Its callers never ask for zero blocks. */
  function Divide(first: int, after: int, requested: nat): Blocks
    requires 0 < requested
  {
    if after > first then
      var total := after - first;
      var num := if requested > total then total else requested;
      var size, remainder := total / num, total % num;
      if size == 0 then Blocks(first, after, if total > 1 then total else 1, 1, remainder)
      else Blocks(first, after, num, size, remainder)
    else Blocks(first, after, 0, 0, 0)
  }

  lemma QuotientPositive(total: nat, num: nat)
    requires 0 < num <= total
    ensures 1 <= total / num
    ensures total == num * (total / num) + total % num && total % num < num
  {
    assert total == num * (total / num) + total % num;
  }

  /** The repair of an empty block size never runs: a non-empty range divides as requested. */
  lemma RepairUnreachable(first: int, after: int, requested: nat)
    requires first < after && 0 < requested
    ensures var b, total := Divide(first, after, requested), after - first;
            && b.num == (if requested > total then total else requested)
            && b.size == total / b.num && b.remainder == total % b.num
            && b.size >= 1 && b.num >= 1 && b.remainder < b.num
            && total == b.num * b.size + b.remainder
  {
    var total := after - first;
    QuotientPositive(total, if requested > total then total else requested);
  }

  lemma StartStep(b: Blocks, block: nat)
    ensures b.Start(block + 1) == b.Start(block) + b.size + if block < b.remainder then 1 else 0
  {
    assert (block + 1) * b.size == block * b.size + b.size;
  }

  /** The blocks start where the range starts, end where it ends, and each ends where the next starts. */
  lemma BlocksTile(first: int, after: int, requested: nat, block: nat)
    requires first < after && 0 < requested
    requires block < Divide(first, after, requested).num
    ensures var b := Divide(first, after, requested);
            && b.Start(0) == first
            && b.End(b.num - 1) == after
            && b.End(block) == b.Start(block + 1)
            && b.End(block) - b.Start(block) == b.size + (if block < b.remainder then 1 else 0)
            && b.Start(block) < b.End(block)
  {
    var b := Divide(first, after, requested);
    RepairUnreachable(first, after, requested);
    StartStep(b, block);
    assert b.Start(b.num) == after;
  }

  lemma {:induction false} StartsAscend(b: Blocks, i: nat, j: nat)
    requires i <= j
    ensures b.Start(i) <= b.Start(j)
    decreases j - i
  {
    if i < j {
      StartsAscend(b, i, j - 1);
      StartStep(b, j - 1);
    }
  }

  /** The block of an index, looking from the last block down. */
  function BlockOf(b: Blocks, index: int, upTo: nat): nat {
    if upTo == 0 || b.Start(upTo) <= index then upTo else BlockOf(b, index, upTo - 1)
  }

  lemma {:induction false} BlockOfContains(b: Blocks, index: int, upTo: nat)
    requires b.first <= index < b.Start(upTo + 1)
    ensures BlockOf(b, index, upTo) <= upTo
    ensures b.Start(BlockOf(b, index, upTo)) <= index < b.Start(BlockOf(b, index, upTo) + 1)
  {
    if upTo > 0 && index < b.Start(upTo) {
      BlockOfContains(b, index, upTo - 1);
    }
  }

  lemma StartsSeparate(b: Blocks, index: int, j: nat, k: nat)
    requires b.Start(j) <= index < b.Start(j + 1)
    requires b.Start(k) <= index < b.Start(k + 1)
    ensures j == k
  {
    if j < k {
      StartsAscend(b, j + 1, k);
    } else if j > k {
      StartsAscend(b, k + 1, j);
    }
  }

  ghost predicate Contains(b: Blocks, block: nat, index: int) {
    block < b.num && b.Start(block) <= index < b.End(block)
  }

  /** Every index of the range is in exactly one block. */
  lemma EveryIndexInOneBlock(first: int, after: int, requested: nat, index: int)
    requires first <= index < after && 0 < requested
    ensures exists k :: Contains(Divide(first, after, requested), k, index) &&
              forall j :: Contains(Divide(first, after, requested), j, index) ==> j == k
  {
    var b := Divide(first, after, requested);
    RepairUnreachable(first, after, requested);
    BlocksTile(first, after, requested, b.num - 1);
    BlockOfContains(b, index, b.num - 1);
    var k := BlockOf(b, index, b.num - 1);
    BlocksTile(first, after, requested, k);
    assert Contains(b, k, index);
    forall j | Contains(b, j, index)
      ensures j == k
    {
      BlocksTile(first, after, requested, j);
      StartsSeparate(b, index, j, k);
    }
  }
}
