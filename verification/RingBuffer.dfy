/** One fixed-size buffer of versioned blocks, and the growing vector of them that a section uses. */
module RingBuffer {
  import opened Blocks

  // version: odd means readable. data: always BLOCK_SIZE bytes, of which `size` count.
  datatype Block = Block(version: nat, size: nat, data: Bytes)

  function EmptyBlock(): (b: Block)
    ensures Untouched(b)
  {
    Block(0, 0, seq(BLOCK_SIZE, i => 0))
  }

  // A committed block that carries this message.
  ghost predicate Carries(b: Block, m: Message) {
    b.version % 2 == 1 && b.version < UINT32_LIMIT && |b.data| == BLOCK_SIZE && b.size == |m| && b.data[..b.size] == m
  }

  ghost predicate Untouched(b: Block) {
    b.version == 0 && |b.data| == BLOCK_SIZE
  }

  // While it is written, a block has an even version: one that was odd is bumped first.
  function WritingVersion(version: nat): nat {
    if version % 2 == 1 then Wrap(version + 1) else version
  }

  function WrittenVersion(version: nat): nat {
    Wrap(WritingVersion(version) + 1)
  }

  // What a read stores back; it keeps the version odd, also where it wraps.
  function ReadVersion(version: nat): nat {
    Wrap(version + 2)
  }

  lemma ReadVersionStaysOdd(version: nat)
    requires version < UINT32_LIMIT
    ensures ReadVersion(version) % 2 == version % 2 && ReadVersion(version) < UINT32_LIMIT
  {
  }

  class RingBufferQueue {
    const capacity: nat
    const blocks: array<Block>
    var blockCounter: nat
    ghost var contents: seq<Message>

    ghost predicate Valid()
      reads this, blocks
    {
      && blocks.Length == capacity
      && |contents| == blockCounter <= capacity
      && (forall i :: 0 <= i < blockCounter ==> Carries(blocks[i], contents[i]))
      && (forall i :: blockCounter <= i < capacity ==> Untouched(blocks[i]))
    }

    constructor (ringBufferCapacity: nat)
      ensures Valid() && capacity == ringBufferCapacity && contents == [] && fresh(blocks)
    {
      capacity := ringBufferCapacity;
      blocks := new Block[ringBufferCapacity](i => EmptyBlock());
      blockCounter := 0;
      contents := [];
    }

    // Refuses when full; a buffer is never written round.
    method Write(message: Message) returns (ok: bool)
      requires Valid()
      modifies this`blockCounter, this`contents, blocks
      ensures Valid()
      ensures ok <==> old(blockCounter) < capacity
      ensures contents == if ok then old(contents) + [message] else old(contents)
      ensures ok ==> blocks[old(blockCounter)].version == 1
      ensures forall i :: 0 <= i < capacity && !(ok && i == old(blockCounter)) ==> blocks[i] == old(blocks[i])
    {
      if blockCounter >= capacity {
        return false;
      }
      var blockIndex := blockCounter;
      blockCounter := blockCounter + 1;
      var version := blocks[blockIndex].version;
      blocks[blockIndex] := blocks[blockIndex].(version := WritingVersion(version));
      blocks[blockIndex] := blocks[blockIndex].(size := |message|);
      blocks[blockIndex] := blocks[blockIndex].(data := message + blocks[blockIndex].data[|message|..]);
      blocks[blockIndex] := blocks[blockIndex].(version := WrittenVersion(version));
      contents := contents + [message];
      return true;
    }

    // Any block committed so far can be read, any number of times.
    method Read(blockIndex: nat) returns (ok: bool, message: Message)
      requires Valid() && blockIndex < capacity
      modifies blocks
      ensures Valid()
      ensures ok <==> blockIndex < blockCounter
      ensures ok ==> message == contents[blockIndex]
      ensures ok ==> blocks[blockIndex] == old(blocks[blockIndex].(version := ReadVersion(blocks[blockIndex].version)))
      ensures forall i :: 0 <= i < capacity && !(ok && i == blockIndex) ==> blocks[i] == old(blocks[i])
    {
      var version := blocks[blockIndex].version;
      if version % 2 == 1 {
        ReadVersionStaysOdd(version);
        message := blocks[blockIndex].data[..blocks[blockIndex].size];
        blocks[blockIndex] := blocks[blockIndex].(version := ReadVersion(version));
        return true, message;
      }
      return false, [];
    }
  }

  /* ---------- the layout of a chain of buffers, on values ---------- */

  // All buffers but the last are full, and none is empty.
  ghost predicate Packed(capacity: nat, chain: seq<seq<Message>>) {
    && (forall q :: 0 <= q < |chain| ==> 0 < |chain[q]| <= capacity)
    && (forall q :: 0 <= q < |chain| - 1 ==> |chain[q]| == capacity)
  }

  ghost function Flat(chain: seq<seq<Message>>): seq<Message> {
    if chain == [] then [] else Flat(Front(chain)) + Last(chain)
  }

  // Number of the first block of buffer q.
  function Base(capacity: nat, q: nat): nat {
    if q == 0 then 0 else Base(capacity, q - 1) + capacity
  }

  lemma {:induction false} BaseIsProduct(capacity: nat, q: nat)
    ensures Base(capacity, q) == q * capacity
  {
    if q > 0 {
      BaseIsProduct(capacity, q - 1);
    }
  }

  lemma {:induction false} PackedLength(capacity: nat, chain: seq<seq<Message>>)
    requires Packed(capacity, chain) && chain != []
    ensures |Flat(chain)| == Base(capacity, |chain| - 1) + |Last(chain)|
  {
    if |chain| > 1 {
      PackedLength(capacity, Front(chain));
      assert Last(Front(chain)) == chain[|chain| - 2];
    } else {
      assert Front(chain) == [] && Flat([]) == [];
    }
  }

  lemma {:induction false} BlockAt(capacity: nat, chain: seq<seq<Message>>, q: nat, i: nat)
    requires Packed(capacity, chain) && q < |chain| && i < |chain[q]|
    ensures Base(capacity, q) + i < |Flat(chain)| && Flat(chain)[Base(capacity, q) + i] == chain[q][i]
  {
    PackedLength(capacity, chain);
    if q == |chain| - 1 {
      if q > 0 {
        PackedLength(capacity, Front(chain));
        assert Last(Front(chain)) == chain[|chain| - 2];
      }
    } else {
      BlockAt(capacity, Front(chain), q, i);
    }
  }

  lemma {:induction false} BaseMonotone(capacity: nat, q: nat, p: nat)
    requires q <= p
    ensures Base(capacity, q) <= Base(capacity, p)
  {
    if q < p {
      BaseMonotone(capacity, q, p - 1);
    }
  }

  // Blocks of a section before a 32-bit buffer index returns to the first buffer.
  function Reach(capacity: nat): nat {
    UINT32_LIMIT * capacity
  }

  // The cursor in the last slot of a buffer that is not the last within reach.
  lemma IndexFits(capacity: nat, q: nat)
    requires Base(capacity, q) + capacity < Reach(capacity)
    ensures q + 1 < UINT32_LIMIT
  {
    BaseIsProduct(capacity, UINT32_LIMIT);
    if UINT32_LIMIT <= q + 1 {
      BaseMonotone(capacity, UINT32_LIMIT, q + 1);
    }
  }

  // A cursor is within reach, and in the last slot within reach exactly when both its indices are last.
  lemma IndexInReach(capacity: nat, q: nat, i: nat, k: nat)
    requires q < UINT32_LIMIT && i < capacity && k == Base(capacity, q) + i
    ensures k < Reach(capacity)
    ensures k + 1 == Reach(capacity) <==> i + 1 == capacity && q + 1 == UINT32_LIMIT
  {
    BaseIsProduct(capacity, UINT32_LIMIT);
    BaseMonotone(capacity, q + 1, UINT32_LIMIT);
    if q + 1 < UINT32_LIMIT {
      BaseMonotone(capacity, q + 2, UINT32_LIMIT);
    }
  }

  lemma CountedInReach(capacity: nat, count: nat)
    requires capacity > 0 && count <= UINT32_MAX
    ensures count < Reach(capacity)
  {
    assert UINT32_LIMIT <= UINT32_LIMIT * capacity;
  }

  lemma Position(capacity: nat, k: nat)
    requires capacity > 0
    ensures k == Base(capacity, k / capacity) + k % capacity
  {
    BaseIsProduct(capacity, k / capacity);
  }

  // One more block in the last buffer.
  lemma ChainGrows(capacity: nat, chain: seq<seq<Message>>, m: Message)
    requires chain != [] && Packed(capacity, chain) && |Last(chain)| < capacity
    ensures Flat(Grown(chain, m)) == Flat(chain) + [m]
    ensures Packed(capacity, Grown(chain, m))
  {
    assert Front(Grown(chain, m)) == Front(chain);
    assert Flat(Front(chain)) + (Last(chain) + [m]) == Flat(Front(chain)) + Last(chain) + [m];
  }

  // A new buffer after a full one.
  lemma ChainExtends(capacity: nat, chain: seq<seq<Message>>, m: Message)
    requires capacity > 0 && Packed(capacity, chain) && (chain != [] ==> |Last(chain)| == capacity)
    ensures Flat(chain + [[m]]) == Flat(chain) + [m]
    ensures Packed(capacity, chain + [[m]])
  {
    assert Front(chain + [[m]]) == chain;
  }

  ghost function Grown(chain: seq<seq<Message>>, m: Message): seq<seq<Message>>
    requires chain != []
  {
    chain[|chain| - 1 := Last(chain) + [m]]
  }

  // A slot below the capacity of a buffer in the chain has been written exactly when
  // its number is below the number of blocks.
  lemma SlotIsCommitted(capacity: nat, chain: seq<seq<Message>>, q: nat, i: nat)
    requires Packed(capacity, chain) && q < |chain| && i < capacity
    ensures i < |chain[q]| <==> Base(capacity, q) + i < |Flat(chain)|
    ensures i < |chain[q]| ==> Flat(chain)[Base(capacity, q) + i] == chain[q][i]
  {
    PackedLength(capacity, chain);
    if i < |chain[q]| {
      BlockAt(capacity, chain, q, i);
    }
  }

  // Block k of a section is slot k mod capacity of buffer k div capacity.
  lemma ChainedLayout(capacity: nat, chain: seq<seq<Message>>, k: nat)
    requires capacity > 0 && Packed(capacity, chain) && k < |Flat(chain)|
    ensures k / capacity < |chain| && k % capacity < |chain[k / capacity]|
    ensures Flat(chain)[k] == chain[k / capacity][k % capacity]
  {
    var q, i := k / capacity, k % capacity;
    Position(capacity, k);
    PackedLength(capacity, chain);
    if q >= |chain| {
      BaseMonotone(capacity, |chain|, q);
    }
    BlockAt(capacity, chain, q, i);
  }

  class BufferVector {
    const capacity: nat
    var buffers: seq<RingBufferQueue>
    // what each buffer holds, and every block of the section in the order written
    ghost var chain: seq<seq<Message>>
    ghost var log: seq<Message>
    ghost var Repr: set<object>

    ghost predicate Separate()
      reads this
    {
      forall p, q :: 0 <= p < q < |buffers| ==> buffers[p] != buffers[q] && buffers[p].blocks != buffers[q].blocks
    }

    // What each buffer holds is listed by `held`.
    ghost predicate Holds(held: seq<seq<Message>>)
      reads this, Repr
    {
      && this in Repr && |held| == |buffers|
      && forall q :: 0 <= q < |buffers| ==>
           && buffers[q] in Repr && buffers[q].blocks in Repr && buffers[q].capacity == capacity
           && buffers[q].Valid() && buffers[q].contents == held[q]
    }

    // The log is the whole chain; said of chain[..n], so that callers need not unfold it.
    ghost predicate Logged()
      reads this
    {
      forall n :: n == |chain| ==> Packed(capacity, chain[..n]) && log == Flat(chain[..n])
    }

    ghost predicate Valid()
      reads this, Repr
    {
      capacity > 0 && Separate() && Holds(chain) && Logged()
    }

    constructor (capacity: nat)
      requires capacity > 0
      ensures Valid() && this.capacity == capacity && log == [] && fresh(Repr)
    {
      this.capacity := capacity;
      buffers := [];
      chain := [];
      log := [];
      Repr := {this};
    }

    method WriteToLast(message: Message) returns (ok: bool)
      requires Separate() && Holds(chain) && buffers != []
      modifies Last(buffers), Last(buffers).blocks
      ensures ok <==> |Last(chain)| < capacity
      ensures Holds(if ok then Grown(chain, message) else chain)
    {
      var n := |buffers| - 1;
      ghost var held := chain;
      ok := buffers[n].Write(message);
      if ok {
        held := Grown(chain, message);
      }
      forall q | 0 <= q < |buffers| ensures buffers[q].Valid() && buffers[q].contents == held[q] {
        if q != n {
          assert buffers[q] != buffers[n] && buffers[q].blocks != buffers[n].blocks;
        }
      }
    }

    // Into the last buffer; refused when it is full.
    method WriteBack(message: Message) returns (ok: bool)
      requires Valid() && buffers != []
      modifies this`chain, this`log, Last(buffers), Last(buffers).blocks
      ensures Valid() && buffers == old(buffers) && Repr == old(Repr)
      ensures ok <==> |old(Last(chain))| < capacity
      ensures if ok then log == old(log) + [message] else chain == old(chain) && log == old(log)
    {
      assert chain[..|chain|] == chain;
      ok := WriteToLast(message);
      if ok {
        ChainGrows(capacity, chain, message);
        chain, log := Grown(chain, message), log + [message];
        assert chain[..|chain|] == chain;
      }
    }

    // A new buffer that holds one block.
    method NewBuffer(message: Message) returns (buffer: RingBufferQueue)
      requires capacity > 0
      ensures fresh(buffer) && fresh(buffer.blocks) && buffer.Valid()
      ensures buffer.capacity == capacity && buffer.contents == [message]
    {
      buffer := new RingBufferQueue(capacity);
      var ok := buffer.Write(message);
    }

    method EmplaceAndWrite(message: Message)
      requires Valid() && (buffers != [] ==> |Last(chain)| == capacity)
      modifies this
      ensures Valid() && fresh(Repr - old(Repr))
      ensures log == old(log) + [message]
    {
      var buffer := NewBuffer(message);
      assert chain[..|chain|] == chain;
      ChainExtends(capacity, chain, message);
      Repr := Repr + {buffer, buffer.blocks};
      buffers, chain, log := buffers + [buffer], chain + [[message]], log + [message];
      assert chain[..|chain|] == chain;
    }

    // Writes into the last buffer, or into a new one when there is none or it is full.
    method Append(message: Message)
      requires Valid()
      modifies Repr
      ensures Valid() && fresh(Repr - old(Repr))
      ensures log == old(log) + [message]
    {
      var ok := false;
      if buffers != [] {
        ok := WriteBack(message);
      }
      if !ok {
        EmplaceAndWrite(message);
      }
    }

    // One read of slot `blockIndex` of buffer `bufferIndex`.
    method ReadAt(bufferIndex: nat, blockIndex: nat) returns (ok: bool, message: Message)
      requires Valid() && bufferIndex < |buffers| && blockIndex < capacity
      modifies buffers[bufferIndex].blocks
      ensures Valid() && buffers == old(buffers) && Repr == old(Repr) && log == old(log)
      ensures var k := Base(capacity, bufferIndex) + blockIndex;
              (ok <==> k < |log|) && (ok ==> message == log[k])
    {
      ok, message := buffers[bufferIndex].Read(blockIndex);
      assert forall q :: 0 <= q < |buffers| && q != bufferIndex ==> buffers[q].Valid();
      assert chain[..|chain|] == chain;
      SlotIsCommitted(capacity, chain, bufferIndex, blockIndex);
    }
  }
}
