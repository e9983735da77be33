/**
 Message blocks on the wire: src/shared/messaging.cpp and the read loop of src/shared/ssl.cpp.
 A connection is the sequence of chunks that successive reads return; a read that finds nothing
 returns the empty chunk.
 */
module Framing {
  import opened Collections

  newtype Byte = x: int | 0 <= x < 0x100
  type UInt32 = x: int | 0 <= x < 0x1_0000_0000

  /** 't', 'm', 'x', 2. */
  const HEADER: seq<Byte> := [0x74, 0x6d, 0x78, 0x02]

  /** Most bytes one read returns. */
  const BUFFER_SIZE := 1500

  /** A 64-bit unsigned result wraps around. */
  function ToSizeT(x: int): nat {
    if 0 <= x < 0x1_0000_0000_0000_0000 then x else x % 0x1_0000_0000_0000_0000
  }

  /** A block size as it is written: most significant byte first. */
  function BigEndian(n: UInt32): (bytes: seq<Byte>) {
    [(n / 0x100_0000) as Byte, (n / 0x1_0000 % 0x100) as Byte, (n / 0x100 % 0x100) as Byte, (n % 0x100) as Byte]
  }

  function FromBigEndian(bytes: seq<Byte>): UInt32
    requires |bytes| == 4
  {
    (bytes[0] as int) * 0x100_0000 + (bytes[1] as int) * 0x1_0000 + (bytes[2] as int) * 0x100 + bytes[3] as int
  }

  lemma SizeRoundTrip(n: UInt32, bytes: seq<Byte>)
    requires |bytes| == 4
    ensures FromBigEndian(BigEndian(n)) == n
    ensures BigEndian(FromBigEndian(bytes)) == bytes
  {
    var a, b, c := bytes[0] as int, bytes[1] as int, bytes[2] as int;
    var m: int := FromBigEndian(bytes);
    assert m / 0x100 == a * 0x1_0000 + b * 0x100 + c;
    assert m / 0x1_0000 == a * 0x100 + b;
    assert n / 0x1_0000 == (n / 0x100) / 0x100;
    assert n / 0x100_0000 == (n / 0x1_0000) / 0x100;
  }

  /** Sizes are written in the order of their bytes, the first of which counts most. */
  lemma BigEndianOrders(m: UInt32, n: UInt32) returns (k: nat)
    requires m < n
    ensures k < 4 && BigEndian(m)[..k] == BigEndian(n)[..k] && BigEndian(m)[k] < BigEndian(n)[k]
  {
    var a, b := BigEndian(m), BigEndian(n);
    assert m / 0x1_0000 == (m / 0x100) / 0x100 && n / 0x1_0000 == (n / 0x100) / 0x100;
    assert m / 0x100_0000 == (m / 0x1_0000) / 0x100 && n / 0x100_0000 == (n / 0x1_0000) / 0x100;
    k := if a[0] != b[0] then 0 else if a[1] != b[1] then 1 else if a[2] != b[2] then 2 else 3;
  }

  /** A small size is in the last byte. */
  lemma SmallSizeLast(n: UInt32)
    requires n < 0x100
    ensures BigEndian(n) == [0, 0, 0, n as Byte]
  {
  }

  function ToUInt32(x: nat): UInt32 {
    if x < 0x1_0000_0000 then x else x % 0x1_0000_0000
  }

  /** The value of a MessageBlock. */
  datatype Block = Block(size: UInt32, payload: seq<Byte>)

  /** The block whose payload was set to `payload`: the size is cut to 32 bits. */
  function BlockOf(payload: seq<Byte>): Block {
    Block(ToUInt32(|payload|), payload)
  }

  function Pack(block: Block): seq<Byte> {
    HEADER + BigEndian(block.size) + block.payload
  }

  /** Where `b` first stands in `s`, or |s|. */
  function IndexOf(s: seq<Byte>, b: Byte): (i: nat)
    ensures i <= |s| && (i < |s| ==> s[i] == b)
    ensures forall j :: 0 <= j < i ==> s[j] != b
  {
    if s == [] || s[0] == b then 0 else 1 + IndexOf(s[1..], b)
  }

  /** What one buffer of bytes does to a block, and the number of payload bytes reported. */
  function Apply(buffer: seq<Byte>, block: Block, offset: nat): (Block, nat) {
    if buffer == [] then (block, 0)
    else if offset == 0 then
      var at := IndexOf(buffer, HEADER[0]);
      if at + 4 > |buffer| || buffer[at..at + 4] != HEADER || at + 8 > |buffer| then (block, 0)
      else
        var payload := block.payload + buffer[at + 8..];
        (Block(FromBigEndian(buffer[at + 4..at + 8]), payload), ToSizeT(|payload|))
    else if offset < block.size then
      var payload := block.payload + buffer;
      (Block(block.size, payload), ToSizeT(|payload| - offset))
    else (block, 0)
  }

  class MessageBlock {
    var payloadSize: UInt32
    var payload: seq<Byte>

    constructor ()
      ensures Value() == Block(0, [])
    {
      payloadSize, payload := 0, [];
    }

    ghost function Value(): Block
      reads this
    {
      Block(payloadSize, payload)
    }

    method SetPayload(value: seq<Byte>)
      modifies this
      ensures Value() == BlockOf(value)
    {
      payload := value;
      payloadSize := ToUInt32(|payload|);
    }

    method ApplyBuffer(buffer: seq<Byte>, payloadOffset: nat) returns (inserted: nat)
      modifies this
      ensures (Value(), inserted) == Apply(buffer, old(Value()), payloadOffset)
    {
      hide FromBigEndian, ToSizeT;
      if |buffer| == 0 {
        return 0;
      }
      if payloadOffset == 0 {
        var at := IndexOf(buffer, HEADER[0]);
        if at == |buffer| || at + |HEADER| > |buffer| || buffer[at..at + |HEADER|] != HEADER {
          return 0;
        }
        at := at + |HEADER|;
        if |buffer| - at < 4 {
          return 0;
        }
        payloadSize := FromBigEndian(buffer[at..at + 4]);
        at := at + 4;
        payload := payload + buffer[at..];
        return ToSizeT(|payload|);
      }
      if payloadOffset < payloadSize {
        payload := payload + buffer;
        return ToSizeT(|payload| - payloadOffset);
      }
      return 0;
    }
  }

  method PackBlock(block: MessageBlock) returns (bytes: seq<Byte>)
    ensures bytes == Pack(block.Value())
  {
    bytes := HEADER;
    bytes := bytes + BigEndian(block.payloadSize);
    bytes := bytes + block.payload;
  }

  /** How a call of receive_message ends. `Waiting` means the reads ran out before it returned. */
  datatype Received = Nothing | Got(block: Block) | Waiting(partial: Block)

  predicate Reads(chunks: seq<seq<Byte>>) {
    forall i :: 0 <= i < |chunks| ==> |chunks[i]| <= BUFFER_SIZE
  }

  /** The read loop, from the point where `applied` payload bytes are in the block. */
  function Accumulate(block: Block, applied: nat, chunks: seq<seq<Byte>>): (Received, nat)
    decreases |chunks|
  {
    if 0 < applied < block.size then
      if chunks == [] then (Waiting(block), 0)
      else
        var (block', more) := Apply(chunks[0], block, applied);
        var (r, used) := Accumulate(block', ToSizeT(applied + more), chunks[1..]);
        (r, used + 1)
    else if block.size == 0 then (Nothing, 0)
    else (Got(block), 0)
  }

  /** What one call of receive_message returns, and how many reads it makes. */
  function Receive(chunks: seq<seq<Byte>>): (Received, nat) {
    if chunks == [] then (Waiting(Block(0, [])), 0)
    else if chunks[0] == [] then (Nothing, 1)
    else
      var (block, applied) := Apply(chunks[0], Block(0, []), 0);
      var (r, used) := Accumulate(block, applied, chunks[1..]);
      (r, used + 1)
  }

  /** The call has made `used` reads and is about to test the loop's guard. */
  ghost predicate Reached(chunks: seq<seq<Byte>>, block: Block, applied: nat, used: nat) {
    && used <= |chunks|
    && var (r, more) := Accumulate(block, applied, chunks[used..]);
       Receive(chunks) == (r, used + more)
  }

  lemma ReachesNext(chunks: seq<seq<Byte>>, block: Block, applied: nat, used: nat)
    requires Reached(chunks, block, applied, used)
    requires used < |chunks| && 0 < applied < block.size
    ensures var (block', more) := Apply(chunks[used], block, applied);
            Reached(chunks, block', ToSizeT(applied + more), used + 1)
  {
    assert chunks[used..][1..] == chunks[used + 1..];
  }

  method ReceiveMessage(chunks: seq<seq<Byte>>) returns (r: Received, used: nat)
    ensures (r, used) == Receive(chunks)
  {
    if chunks == [] {
      return Waiting(Block(0, [])), 0;
    }
    if |chunks[0]| == 0 {
      return Nothing, 1;
    }
    var block := new MessageBlock();
    var applied: nat := block.ApplyBuffer(chunks[0], 0);
    used := 1;
    while applied > 0 && applied < block.payloadSize
      invariant Reached(chunks, block.Value(), applied, used)
      decreases |chunks| - used
    {
      if used == |chunks| {
        return Waiting(Block(block.payloadSize, block.payload)), used;
      }
      ReachesNext(chunks, block.Value(), applied, used);
      var more := block.ApplyBuffer(chunks[used], applied);
      applied := ToSizeT(applied + more);
      used := used + 1;
    }
    if block.payloadSize == 0 {
      return Nothing, used;
    }
    return Got(Block(block.payloadSize, block.payload)), used;
  }

  /** A chunk ends exactly `n` bytes into the stream. */
  ghost predicate Boundary(chunks: seq<seq<Byte>>, n: nat) {
    exists k :: 0 <= k <= |chunks| && |Concat(chunks[..k])| == n
  }

  lemma {:induction false} ConcatGrows(chunks: seq<seq<Byte>>, i: nat, j: nat)
    requires i <= j <= |chunks|
    ensures |Concat(chunks[..i])| <= |Concat(chunks[..j])|
  {
    assert chunks[..j] == chunks[..i] + chunks[i..j];
    ConcatAppend(chunks[..i], chunks[i..j]);
  }

  lemma ConcatShift(chunks: seq<seq<Byte>>, k: nat)
    requires 0 < k <= |chunks|
    ensures Concat(chunks[..k]) == chunks[0] + Concat(chunks[1..][..k - 1])
  {
    assert chunks[..k][1..] == chunks[1..][..k - 1];
  }

  /** One turn of the read loop. */
  lemma AccumulateStep(block: Block, chunks: seq<seq<Byte>>)
    requires Reads(chunks) && chunks != []
    requires 0 < |block.payload| < block.size
    ensures var (r, used) := Accumulate(Block(block.size, block.payload + chunks[0]),
                                        |block.payload + chunks[0]|, chunks[1..]);
            Accumulate(block, |block.payload|, chunks) == (r, used + 1)
  {
    var block' := Block(block.size, block.payload + chunks[0]);
    if chunks[0] == [] {
      assert block' == block;
    }
    assert Apply(chunks[0], block, |block.payload|) == (block', |chunks[0]|);
    assert ToSizeT(|block.payload| + |chunks[0]|) == |block'.payload|;
  }

  /** No read before the `k`th completes the payload. */
  ghost predicate Short(block: Block, chunks: seq<seq<Byte>>, k: nat)
    requires k <= |chunks|
  {
    forall j :: 0 <= j < k ==> |block.payload| + |Concat(chunks[..j])| < block.size
  }

  lemma ShortStep(block: Block, chunks: seq<seq<Byte>>, k: nat)
    requires 0 < k <= |chunks| && Short(block, chunks, k)
    ensures |block.payload| < block.size
    ensures Short(Block(block.size, block.payload + chunks[0]), chunks[1..], k - 1)
  {
    assert |Concat(chunks[..0])| == 0;
    forall j | 0 <= j < k - 1
      ensures |block.payload + chunks[0]| + |Concat(chunks[1..][..j])| < block.size
    {
      ConcatShift(chunks, j + 1);
    }
  }

  /**
   The loop stops at the first read that brings the payload to its size, and keeps every byte
   of that read.
   */
  lemma {:induction false} AccumulateStops(block: Block, chunks: seq<seq<Byte>>, k: nat)
    requires Reads(chunks) && k <= |chunks| && Short(block, chunks, k)
    requires 0 < block.size && 0 < |block.payload|
    requires |block.payload| + |Concat(chunks[..k])| >= block.size
    ensures Accumulate(block, |block.payload|, chunks) ==
            (Got(Block(block.size, block.payload + Concat(chunks[..k]))), k)
    decreases k
  {
    if k == 0 {
      assert block.payload + Concat(chunks[..0]) == block.payload;
    } else {
      ConcatShift(chunks, k);
      ShortStep(block, chunks, k);
      AccumulateStep(block, chunks);
      AccumulateStops(Block(block.size, block.payload + chunks[0]), chunks[1..], k - 1);
      assert block.payload + chunks[0] + Concat(chunks[1..][..k - 1]) == block.payload + Concat(chunks[..k]);
    }
  }

  /** The loop waits, with everything read so far, when no read completes the payload. */
  lemma {:induction false} AccumulateWaits(block: Block, chunks: seq<seq<Byte>>)
    requires Reads(chunks) && Short(block, chunks, |chunks|)
    requires 0 < |block.payload|
    requires |block.payload| + |Concat(chunks)| < block.size
    ensures Accumulate(block, |block.payload|, chunks) ==
            (Waiting(Block(block.size, block.payload + Concat(chunks))), |chunks|)
    decreases |chunks|
  {
    if chunks == [] {
      assert block.payload + Concat(chunks) == block.payload;
    } else {
      assert block.payload + chunks[0] + Concat(chunks[1..]) == block.payload + Concat(chunks);
      assert chunks[..|chunks|] == chunks && chunks[1..][..|chunks| - 1] == chunks[1..];
      ShortStep(block, chunks, |chunks|);
      AccumulateStep(block, chunks);
      AccumulateWaits(Block(block.size, block.payload + chunks[0]), chunks[1..]);
    }
  }

  /** The first read that completes the payload. */
  lemma FirstEnough(block: Block, chunks: seq<seq<Byte>>) returns (k: nat)
    requires |block.payload| + |Concat(chunks)| >= block.size
    ensures k <= |chunks| && Short(block, chunks, k)
    ensures |block.payload| + |Concat(chunks[..k])| >= block.size
  {
    assert chunks[..|chunks|] == chunks;
    k := 0;
    while |block.payload| + |Concat(chunks[..k])| < block.size
      invariant k <= |chunks| && Short(block, chunks, k)
      decreases |chunks| - k
    {
      k := k + 1;
    }
  }

  /** The first read left a block of this size behind, with the bytes from `start` on in it. */
  ghost predicate Opened(chunk: seq<Byte>, start: nat, size: UInt32) {
    && start <= |chunk|
    && Apply(chunk, Block(0, []), 0) == (Block(size, chunk[start..]), |chunk| - start)
  }

  lemma TakePrefix(front: seq<Byte>, back: seq<Byte>, chunk: seq<Byte>)
    requires chunk <= front + back && |chunk| >= |front|
    ensures chunk == front + chunk[|front|..]
    ensures chunk[|front|..] <= back
  {
  }

  lemma Middle(front: seq<Byte>, middle: seq<Byte>, back: seq<Byte>)
    ensures (front + (middle + back))[|front|..|front| + |middle|] == middle
  {
  }

  lemma {:induction false} IndexAfter(garbage: seq<Byte>, b: Byte, rest: seq<Byte>)
    requires b !in garbage && (rest == [] || rest[0] == b)
    ensures IndexOf(garbage + rest, b) == |garbage|
  {
    if garbage == [] {
      assert garbage + rest == rest;
    } else {
      assert (garbage + rest)[1..] == garbage[1..] + rest;
      IndexAfter(garbage[1..], b, rest);
    }
  }

  /** Where the header stands in the first read. */
  lemma HeaderFound(garbage: seq<Byte>, head: seq<Byte>, tail: seq<Byte>, chunk: seq<Byte>)
    requires head != [] && head[0] !in garbage && chunk <= garbage + (head + tail)
    ensures IndexOf(chunk, head[0]) == if |chunk| <= |garbage| then |chunk| else |garbage|
  {
    if |chunk| <= |garbage| {
      assert chunk <= garbage;
      assert chunk + [] == chunk;
      IndexAfter(chunk, head[0], []);
    } else {
      TakePrefix(garbage, head + tail, chunk);
      IndexAfter(garbage, head[0], chunk[|garbage|..]);
    }
  }

  /** The header and the size, in a read that reaches that far. */
  lemma HeaderRead(garbage: seq<Byte>, head: seq<Byte>, size: seq<Byte>, tail: seq<Byte>, chunk: seq<Byte>)
    requires chunk <= garbage + (head + (size + tail)) && |chunk| >= |garbage| + |head| + |size|
    ensures chunk[|garbage|..|garbage| + |head|] == head
    ensures chunk[|garbage| + |head|..|garbage| + |head| + |size|] == size
  {
    TakePrefix(garbage, head + (size + tail), chunk);
    var afterGarbage := chunk[|garbage|..];
    TakePrefix(head, size + tail, afterGarbage);
    var afterHead := afterGarbage[|head|..];
    TakePrefix(size, tail, afterHead);
    Middle(garbage, head, afterHead);
    Middle(garbage + head, size, afterHead[|size|..]);
    assert garbage + head + afterHead == chunk;
  }

  /** What the first read of a block leaves behind, by how far past the header it reaches. */
  lemma FirstRead(garbage: seq<Byte>, block: Block, rest: seq<Byte>, chunk: seq<Byte>)
    requires HEADER[0] !in garbage
    requires chunk != [] && chunk <= garbage + Pack(block) + rest
    ensures |chunk| < |garbage| + 8 ==> Apply(chunk, Block(0, []), 0) == (Block(0, []), 0)
    ensures 0 <= |chunk| - |garbage| - 8 < 0x1_0000_0000_0000_0000 ==>
              Opened(chunk, |garbage| + 8, block.size)
  {
    assert garbage + Pack(block) + rest ==
           garbage + (HEADER + (BigEndian(block.size) + (block.payload + rest)));
    HeaderFound(garbage, HEADER, BigEndian(block.size) + (block.payload + rest), chunk);
    SizeRoundTrip(block.size, BigEndian(block.size));
    if |chunk| >= |garbage| + 8 {
      HeaderRead(garbage, HEADER, BigEndian(block.size), block.payload + rest, chunk);
      assert [] + chunk[|garbage| + 8..] == chunk[|garbage| + 8..];
    }
  }

  /**
   When the first read reaches into the payload, the block received holds every byte after the
   header up to the end of the first read that completes the payload.
   */
  lemma ReceivesToReadEnd(chunks: seq<seq<Byte>>, start: nat, size: UInt32) returns (k: nat)
    requires Reads(chunks) && chunks != [] && chunks[0] != []
    requires Opened(chunks[0], start, size) && start < |chunks[0]| && 0 < size
    requires |Concat(chunks)| >= start + size
    ensures 0 < k <= |chunks| && |Concat(chunks[..k])| >= start + size
    ensures forall j :: 0 <= j < k ==> |Concat(chunks[..j])| < start + size
    ensures Receive(chunks) == (Got(Block(size, Concat(chunks[..k])[start..])), k)
  {
    var block := Block(size, chunks[0][start..]);
    assert Reached(chunks, block, |block.payload|, 1);
    var n := FirstEnough(block, chunks[1..]);
    k := n + 1;
    AccumulateStops(block, chunks[1..], n);
    ShortFromStart(chunks, block, start, k);
    JoinReads(chunks, start, k);
  }

  lemma JoinReads(chunks: seq<seq<Byte>>, start: nat, k: nat)
    requires 0 < k <= |chunks| && start <= |chunks[0]|
    ensures Concat(chunks[..k])[start..] == chunks[0][start..] + Concat(chunks[1..][..k - 1])
    ensures |Concat(chunks[..k])| == |chunks[0]| + |Concat(chunks[1..][..k - 1])|
  {
    ConcatShift(chunks, k);
  }

  lemma ShortFromStart(chunks: seq<seq<Byte>>, block: Block, start: nat, k: nat)
    requires 0 < k <= |chunks| && start <= |chunks[0]| && block.payload == chunks[0][start..]
    requires 0 < block.size && Short(block, chunks[1..], k - 1)
    ensures forall j :: 0 <= j < k ==> |Concat(chunks[..j])| < start + block.size
  {
    forall j | 0 <= j < k
      ensures |Concat(chunks[..j])| < start + block.size
    {
      if j > 0 {
        ConcatShift(chunks, j);
      }
    }
  }

  /** `k` reads into the stream, and what is left of it. */
  lemma Split(chunks: seq<seq<Byte>>, k: nat)
    requires k <= |chunks|
    ensures Concat(chunks) == Concat(chunks[..k]) + Concat(chunks[k..])
  {
    assert chunks == chunks[..k] + chunks[k..];
    ConcatAppend(chunks[..k], chunks[k..]);
  }

  /** A first read that ends before the payload loses it: with nothing, or with an empty payload. */
  lemma PayloadMissed(garbage: seq<Byte>, payload: seq<Byte>, rest: seq<Byte>, chunks: seq<seq<Byte>>)
    requires 0 < |payload| < 0x1_0000_0000 && HEADER[0] !in garbage
    requires chunks != [] && chunks[0] != []
    requires chunks[0] <= garbage + Pack(BlockOf(payload)) + rest
    requires |chunks[0]| <= |garbage| + 8
    ensures Receive(chunks) ==
            if |chunks[0]| == |garbage| + 8 then (Got(Block(|payload|, [])), 1) else (Nothing, 1)
  {
    FirstRead(garbage, BlockOf(payload), rest, chunks[0]);
    if |chunks[0]| == |garbage| + 8 {
      var seen := chunks[0][|garbage| + 8..];
      assert seen == [];
      NothingApplied(chunks, Block(BlockOf(payload).size, seen));
    } else {
      NothingApplied(chunks, Block(0, []));
    }
  }

  lemma NothingApplied(chunks: seq<seq<Byte>>, block: Block)
    requires chunks != [] && chunks[0] != [] && Apply(chunks[0], Block(0, []), 0) == (block, 0)
    ensures Receive(chunks) == (if block.size == 0 then Nothing else Got(block), 1)
  {
  }

  /**
   A byte before the header that is the header's first, but does not start it, makes the read return
   nothing, however much of the block it holds.
   */
  lemma StrayByteLoses(chunks: seq<seq<Byte>>, at: nat)
    requires chunks != [] && at < |chunks[0]| && chunks[0][at] == HEADER[0] && HEADER[0] !in chunks[0][..at]
    requires !(HEADER <= chunks[0][at..])
    ensures Receive(chunks) == (Nothing, 1)
  {
    var chunk := chunks[0];
    IndexAfter(chunk[..at], HEADER[0], chunk[at..]);
    assert chunk == chunk[..at] + chunk[at..];
    if at + |HEADER| <= |chunk| {
      assert chunk[at..][..|HEADER|] == chunk[at..at + |HEADER|];
    }
    NothingApplied(chunks, Block(0, []));
  }

  /** The reads up to `k` are exactly the block when they end where it ends. */
  lemma EndsWithBlock(garbage: seq<Byte>, payload: seq<Byte>, rest: seq<Byte>,
                      chunks: seq<seq<Byte>>, k: nat)
    requires Concat(chunks) == garbage + Pack(BlockOf(payload)) + rest
    requires k <= |chunks| && |Concat(chunks[..k])| == |garbage| + 8 + |payload|
    ensures Concat(chunks[..k])[|garbage| + 8..] == payload
    ensures Concat(chunks[k..]) == rest
  {
    Split(chunks, k);
    var start := |garbage| + 8;
    assert Concat(chunks)[start..start + |payload|] == payload;
    assert Concat(chunks)[start + |payload|..] == rest;
  }

  /** The reads that complete the payload end at a boundary if there is one at the block's end. */
  lemma StopsAtBoundary(chunks: seq<seq<Byte>>, k: nat, total: nat)
    requires 0 < k <= |chunks| && |Concat(chunks[..k])| >= total
    requires forall j :: 0 <= j < k ==> |Concat(chunks[..j])| < total
    ensures |Concat(chunks[..k])| == total <==> Boundary(chunks, total)
  {
    if Boundary(chunks, total) {
      var end :| 0 <= end <= |chunks| && |Concat(chunks[..end])| == total;
      ConcatGrows(chunks, k, end);
    }
  }

  /**
   A block comes back whole, with exactly its own bytes read, if and only if the first read
   reaches into the payload and some read ends where the block ends. Bytes before the header do
   no harm as long as none of them is the header's first.
   */
  lemma ReceivedExactly(garbage: seq<Byte>, payload: seq<Byte>, rest: seq<Byte>,
                        chunks: seq<seq<Byte>>)
    requires 0 < |payload| < 0x1_0000_0000 && HEADER[0] !in garbage
    requires Reads(chunks) && Concat(chunks) == garbage + Pack(BlockOf(payload)) + rest
    requires chunks != [] && chunks[0] != []
    ensures Receive(chunks).0 == Got(BlockOf(payload)) <==>
            && |chunks[0]| > |garbage| + 8
            && Boundary(chunks, |garbage| + 8 + |payload|)
    ensures Receive(chunks).0 == Got(BlockOf(payload)) ==>
              var used := Receive(chunks).1; used <= |chunks| && Concat(chunks[used..]) == rest
  {
    assert Concat(chunks) == chunks[0] + Concat(chunks[1..]);
    if |chunks[0]| <= |garbage| + 8 {
      PayloadMissed(garbage, payload, rest, chunks);
    } else {
      FirstRead(garbage, BlockOf(payload), rest, chunks[0]);
      var k := ReceivesToReadEnd(chunks, |garbage| + 8, |payload|);
      StopsAtBoundary(chunks, k, |garbage| + 8 + |payload|);
      if |Concat(chunks[..k])| == |garbage| + 8 + |payload| {
        EndsWithBlock(garbage, payload, rest, chunks, k);
      }
    }
  }

  /** When the first read reaches into the payload and no read completes it, the call goes on waiting. */
  /** After a first read that opens a block, the loop goes on with the reads behind it. */
  lemma GoesOn(chunks: seq<seq<Byte>>, start: nat, size: UInt32)
    requires chunks != [] && chunks[0] != [] && Opened(chunks[0], start, size)
    ensures var (r, used) := Accumulate(Block(size, chunks[0][start..]), |chunks[0]| - start, chunks[1..]);
            Receive(chunks) == (r, used + 1)
  {
    hide Accumulate, Apply;
  }

  lemma WaitsToReadEnd(chunks: seq<seq<Byte>>, start: nat, size: UInt32)
    requires Reads(chunks) && chunks != [] && chunks[0] != []
    requires Opened(chunks[0], start, size) && start < |chunks[0]| && 0 < size
    requires |Concat(chunks)| < start + size
    ensures Receive(chunks) == (Waiting(Block(size, Concat(chunks)[start..])), |chunks|)
  {
    var block := Block(size, chunks[0][start..]);
    GoesOn(chunks, start, size);
    FirstApart(chunks, start);
    hide Concat, Accumulate, Short, Receive, Opened;
    NeverComplete(block, chunks[1..]);
    AccumulateWaits(block, chunks[1..]);
  }

  lemma FirstApart(chunks: seq<seq<Byte>>, start: nat)
    requires chunks != [] && start <= |chunks[0]|
    ensures chunks[0][start..] + Concat(chunks[1..]) == Concat(chunks)[start..]
    ensures |Concat(chunks)| == |chunks[0]| + |Concat(chunks[1..])|
  {
  }

  /** As long as a block's end is not read, the call has kept all of its payload that was. */
  lemma WaitsForTheRest(garbage: seq<Byte>, payload: seq<Byte>, chunks: seq<seq<Byte>>)
    requires 0 < |payload| < 0x1_0000_0000 && HEADER[0] !in garbage
    requires Reads(chunks) && chunks != [] && |chunks[0]| > |garbage| + 8
    requires Concat(chunks) <= garbage + Pack(BlockOf(payload)) && |Concat(chunks)| < |garbage| + 8 + |payload|
    ensures Receive(chunks) == (Waiting(Block(|payload|, payload[..|Concat(chunks)| - |garbage| - 8])), |chunks|)
  {
    var start, whole := |garbage| + 8, garbage + Pack(BlockOf(payload));
    assert whole + [] == whole && whole[start..] == payload;
    hide Pack, Receive, Opened, Apply;
    assert Concat(chunks) == chunks[0] + Concat(chunks[1..]);
    FirstRead(garbage, BlockOf(payload), [], chunks[0]);
    WaitsToReadEnd(chunks, start, |payload|);
    assert Concat(chunks)[start..] == payload[..|Concat(chunks)| - start];
  }

  lemma NeverComplete(block: Block, chunks: seq<seq<Byte>>)
    requires |block.payload| + |Concat(chunks)| < block.size
    ensures Short(block, chunks, |chunks|)
  {
    assert chunks[..|chunks|] == chunks;
    forall j | 0 <= j < |chunks|
      ensures |block.payload| + |Concat(chunks[..j])| < block.size
    {
      ConcatGrows(chunks, j, |chunks|);
    }
  }

  /** The reads of one block: written at once, read in any pieces that reach into its payload. */
  ghost predicate Carries(chunks: seq<seq<Byte>>, payload: seq<Byte>) {
    && 0 < |payload| < 0x1_0000_0000
    && Reads(chunks)
    && Concat(chunks) == Pack(BlockOf(payload))
    && chunks != [] && |chunks[0]| > 8
    && chunks[|chunks| - 1] != []
  }

  /** Every block that repeated calls return until the reads run out; empty reads return nothing. */
  function ReceiveAll(chunks: seq<seq<Byte>>): seq<Block>
    decreases |chunks|
  {
    var (r, used) := Receive(chunks);
    if r.Waiting? || used > |chunks| || used == 0 then []
    else (if r.Got? then [r.block] else []) + ReceiveAll(chunks[used..])
  }

  /** The reads of a connection: for each block some idle reads, then the block's own. */
  function Traffic(idle: seq<nat>, carried: seq<seq<seq<Byte>>>): seq<seq<Byte>>
    requires |idle| == |carried|
  {
    if idle == [] then []
    else seq(idle[0], _ => []) + carried[0] + Traffic(idle[1..], carried[1..])
  }

  lemma {:induction false} SkipsIdle(n: nat, chunks: seq<seq<Byte>>)
    ensures ReceiveAll(seq(n, _ => []) + chunks) == ReceiveAll(chunks)
  {
    var all := seq(n, _ => []) + chunks;
    if n == 0 {
      assert all == chunks;
    } else {
      assert all[1..] == seq(n - 1, _ => []) + chunks;
      SkipsIdle(n - 1, chunks);
    }
  }

  /** Reads that do not end with an idle one are not complete before the last of them. */
  lemma LastReadCompletes(front: seq<seq<Byte>>, later: seq<seq<Byte>>, j: nat)
    requires j < |front| && front[|front| - 1] != []
    ensures |Concat((front + later)[..j])| < |Concat(front)|
  {
    var last := front[|front| - 1];
    assert (front + later)[..j] == front[..j];
    assert front[|front| - 1..] == [last];
    Split(front, |front| - 1);
    ConcatSingle(last);
    ConcatGrows(front, j, |front| - 1);
  }

  /** One call reads exactly the reads of the block at the front. */
  lemma ReceivesFront(front: seq<seq<Byte>>, payload: seq<Byte>, later: seq<seq<Byte>>)
    requires Carries(front, payload) && Reads(later)
    ensures Receive(front + later) == (Got(BlockOf(payload)), |front|)
  {
    var chunks, rest := front + later, Concat(later);
    ConcatAppend(front, later);
    assert [] + Pack(BlockOf(payload)) + rest == Concat(chunks);
    assert chunks[..|front|] == front;
    assert Concat(chunks) == chunks[0] + Concat(chunks[1..]);
    FirstRead([], BlockOf(payload), rest, chunks[0]);
    var k := ReceivesToReadEnd(chunks, 8, |payload|);
    if k < |front| {
      LastReadCompletes(front, later, k);
    }
    assert k == |front|;
    assert Concat(front)[8..] == payload;
  }

  lemma {:induction false} TrafficReads(idle: seq<nat>, carried: seq<seq<seq<Byte>>>)
    requires |idle| == |carried| && forall i :: 0 <= i < |carried| ==> Reads(carried[i])
    ensures Reads(Traffic(idle, carried))
  {
    if idle != [] {
      TrafficReads(idle[1..], carried[1..]);
    }
  }

  lemma ReceivesOneOf(idle: nat, front: seq<seq<Byte>>, payload: seq<Byte>, later: seq<seq<Byte>>)
    requires Carries(front, payload) && Reads(later)
    ensures ReceiveAll(seq(idle, _ => []) + front + later) == [BlockOf(payload)] + ReceiveAll(later)
  {
    assert seq(idle, _ => []) + front + later == seq(idle, _ => []) + (front + later);
    SkipsIdle(idle, front + later);
    ReceivesFront(front, payload, later);
    assert (front + later)[|front|..] == later;
  }

  function Blocks(payloads: seq<seq<Byte>>): seq<Block> {
    if payloads == [] then [] else [BlockOf(payloads[0])] + Blocks(payloads[1..])
  }

  /** Over a whole connection, the blocks received are the blocks sent, in order. */
  lemma {:induction false} ReceivesAllSent(payloads: seq<seq<Byte>>, idle: seq<nat>,
                                           carried: seq<seq<seq<Byte>>>)
    requires |payloads| == |idle| == |carried|
    requires forall i :: 0 <= i < |payloads| ==> Carries(carried[i], payloads[i])
    ensures ReceiveAll(Traffic(idle, carried)) == Blocks(payloads)
  {
    if payloads != [] {
      ReceivesAllSent(payloads[1..], idle[1..], carried[1..]);
      TrafficReads(idle[1..], carried[1..]);
      ReceivesOneOf(idle[0], carried[0], payloads[0], Traffic(idle[1..], carried[1..]));
    }
  }
}
