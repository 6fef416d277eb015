/** The cache entry and its writer. */
module CacheEntryWriting {
  import opened Blocks
  import opened BlockCodec
  import opened EntryProgram
  import opened RingBuffer

  class CacheEntry {
    const capacity: nat
    var headersBlockCount: nat
    var dataBlockCount: nat
    const headersBuffers: BufferVector
    const dataBuffers: BufferVector
    const trailersBuffers: BufferVector

    ghost function Footprint(): set<object>
      reads headersBuffers, dataBuffers, trailersBuffers
    {
      {this as object} + headersBuffers.Repr + dataBuffers.Repr + trailersBuffers.Repr
    }

    ghost predicate Valid()
      reads headersBuffers, dataBuffers, trailersBuffers, Footprint()
    {
      && headersBuffers.Valid() && dataBuffers.Valid() && trailersBuffers.Valid()
      && headersBuffers.capacity == dataBuffers.capacity == trailersBuffers.capacity == capacity
      && headersBuffers.Repr !! dataBuffers.Repr
      && headersBuffers.Repr !! trailersBuffers.Repr
      && dataBuffers.Repr !! trailersBuffers.Repr
      && this !in headersBuffers.Repr && this !in dataBuffers.Repr && this !in trailersBuffers.Repr
    }

    // The buffers and the counts are what these operations make of a new entry.
    ghost predicate Reflects(ops: seq<Op>)
      reads this, headersBuffers, dataBuffers, trailersBuffers
    {
      && headersBuffers.log == PushedTo(HeadersSection, ops)
      && dataBuffers.log == PushedTo(DataSection, ops)
      && trailersBuffers.log == PushedTo(TrailersSection, ops)
      && headersBlockCount == HeadersCount(ops)
      && dataBlockCount == DataCount(ops)
    }

    constructor (ringBufferCapacity: nat)
      requires ringBufferCapacity > 0
      ensures Valid() && capacity == ringBufferCapacity && fresh(Footprint()) && Reflects([])
    {
      capacity := ringBufferCapacity;
      headersBlockCount := UINT32_MAX;
      dataBlockCount := UINT32_MAX;
      headersBuffers := new BufferVector(ringBufferCapacity);
      dataBuffers := new BufferVector(ringBufferCapacity);
      trailersBuffers := new BufferVector(ringBufferCapacity);
    }

    method StoreHeadersCount(count: nat, ghost ops: seq<Op>)
      requires Valid() && Reflects(ops)
      modifies this`headersBlockCount
      ensures Valid() && Reflects(ops + [PublishHeaders(count)])
    {
      PublishEffect(ops, PublishHeaders(count));
      headersBlockCount := count;
    }

    method StoreDataCount(count: nat, ghost ops: seq<Op>)
      requires Valid() && Reflects(ops)
      modifies this`dataBlockCount
      ensures Valid() && Reflects(ops + [PublishData(count)])
    {
      PublishEffect(ops, PublishData(count));
      dataBlockCount := count;
    }
  }

  lemma Unfold(done: seq<Message>, t: Bytes)
    requires |t| >= BLOCK_SIZE
    ensures done + StringBlocks(t) == done + [t[..BLOCK_SIZE]] + StringBlocks(t[BLOCK_SIZE..])
  {
  }

  // `done` holds the blocks of the first `pos` bytes of what is stored of the string.
  ghost predicate Halfway(data: Bytes, pos: nat, done: seq<Message>) {
    && pos % BLOCK_SIZE == 0 && pos <= |Stored(data)|
    && done + StringBlocks(Stored(data)[pos..]) == StringBlocks(Stored(data))
  }

  // A full block cut at offset `pos` is the next block of the stored string.
  lemma ChunkIsNext(data: Bytes, pos: nat, done: seq<Message>)
    requires Halfway(data, pos, done) && pos < UINT32_LIMIT && pos + BLOCK_SIZE <= |data|
    ensures Halfway(data, pos + BLOCK_SIZE, done + [data[pos..pos + BLOCK_SIZE]])
    ensures OffsetAfter(data, pos) == if pos + BLOCK_SIZE == |Stored(data)| then 0 else pos + BLOCK_SIZE
  {
    var s := Stored(data);
    Unfold(done, s[pos..]);
    assert s[pos..][..BLOCK_SIZE] == data[pos..pos + BLOCK_SIZE];
    assert s[pos..][BLOCK_SIZE..] == s[pos + BLOCK_SIZE..];
  }

  // What does not fill a block is the last block; the wrap cannot have cut it off.
  lemma RemainderIsLast(data: Bytes, pos: nat, done: seq<Message>)
    requires Halfway(data, pos, done) && pos <= |data| < pos + BLOCK_SIZE
    requires pos < |Stored(data)| || pos == 0
    ensures done + [data[pos..]] == StringBlocks(Stored(data))
  {
    assert Stored(data) == data;
  }

  // The 32-bit write offset after a full block was cut at `offset`.
  function OffsetAfter(data: Bytes, offset: nat): nat {
    if BLOCK_SIZE < |data| - offset then Wrap(offset + BLOCK_SIZE) else 0
  }

  lemma EmptyRemainder(data: Bytes, done: seq<Message>)
    requires Halfway(data, |Stored(data)|, done)
    ensures done + [[]] == StringBlocks(Stored(data))
  {
    assert Stored(data)[|Stored(data)|..] == [];
  }

  lemma Append3<T>(a: seq<T>, b: seq<T>, c: seq<T>, d: seq<T>)
    requires b + c == d
    ensures a + b + c == a + d
  {
  }

  function Min(a: nat, b: nat): nat {
    if a < b then a else b
  }

  class CacheEntryProducer {
    const entry: CacheEntry
    var buffers: BufferVector
    var currentBlockCount: nat
    var headersWriteComplete: bool
    var dataWriteComplete: bool
    const dataBlock: array<byte>
    var messageSize: nat
    var dataOffset: nat
    // blocks written since the count was last reset; currentBlockCount is its low 32 bits
    ghost var written: nat
    // every operation on the entry so far
    ghost var ops: seq<Op>

    // What writing to the current buffer vector relies on.
    ghost predicate Ready()
      reads this, dataBlock, buffers, buffers.Repr
    {
      && buffers.Valid() && this !in buffers.Repr && dataBlock !in buffers.Repr
      && dataBlock.Length == BLOCK_SIZE && messageSize <= BLOCK_SIZE
      && currentBlockCount == Wrap(written)
    }

    // Between calls.
    ghost predicate Valid()
      reads this, dataBlock, entry, entry.headersBuffers, entry.dataBuffers, entry.trailersBuffers, entry.Footprint()
    {
      && entry.Valid() && entry.Reflects(ops)
      && this !in entry.Footprint() && dataBlock !in entry.Footprint()
      && dataBlock.Length == BLOCK_SIZE && Clean()
      && currentBlockCount == Wrap(written)
    }

    // Between strings: the block is empty and no string is half written.
    ghost predicate Clean()
      reads this
    {
      messageSize == 0 && dataOffset == 0
    }

    // A new producer makes its own entry; its first write is to the headers section.
    constructor (ringBufferCapacity: nat)
      requires ringBufferCapacity > 0
      ensures entry.capacity == ringBufferCapacity
      ensures Valid() && buffers == entry.headersBuffers && written == 0 && ops == []
      ensures !headersWriteComplete && !dataWriteComplete
      ensures fresh(entry.Footprint()) && fresh(dataBlock)
    {
      var e := new CacheEntry(ringBufferCapacity);
      entry := e;
      buffers := e.headersBuffers;
      currentBlockCount, written := 0, 0;
      headersWriteComplete, dataWriteComplete := false, false;
      dataBlock := new byte[BLOCK_SIZE](i => 0);
      messageSize, dataOffset := 0, 0;
      ops := [];
    }

    method WriteBlockToBuffer()
      requires Ready()
      modifies this`currentBlockCount, this`written, this`messageSize, buffers.Repr
      ensures Ready() && fresh(buffers.Repr - old(buffers.Repr))
      ensures messageSize == 0 && written == old(written) + 1
      ensures buffers.log == old(buffers.log) + [old(dataBlock[..messageSize])]
    {
      buffers.Append(dataBlock[..messageSize]);
      WrapAdd(written, 1);
      messageSize, currentBlockCount, written := 0, Wrap(currentBlockCount + 1), written + 1;
    }

    // Copies as much of the string as fits; true when the block is full.
    method WriteToBlock(data: Bytes) returns (full: bool)
      requires dataBlock.Length == BLOCK_SIZE && messageSize <= BLOCK_SIZE && dataOffset <= |data|
      modifies this`messageSize, this`dataOffset, dataBlock
      ensures var space, rest := BLOCK_SIZE - old(messageSize), |data| - old(dataOffset);
              var n := Min(space, rest);
              && messageSize == old(messageSize) + n
              && dataBlock[..messageSize] == old(dataBlock[..messageSize]) + data[old(dataOffset)..old(dataOffset) + n]
              && (full <==> messageSize == BLOCK_SIZE)
              && dataOffset == if full && space < rest then Wrap(old(dataOffset) + n) else 0
    {
      var remainingSpace := BLOCK_SIZE - messageSize;
      var remainingDataSize := |data| - dataOffset;
      var bytesToWrite := Min(remainingSpace, remainingDataSize);
      forall i | 0 <= i < bytesToWrite {
        dataBlock[messageSize + i] := data[dataOffset + i];
      }
      messageSize := messageSize + bytesToWrite;
      if messageSize == BLOCK_SIZE {
        if remainingSpace < remainingDataSize {
          dataOffset := Wrap(dataOffset + bytesToWrite);
        } else if dataOffset != 0 {
          dataOffset := 0;
        }
        return true;
      }
      if dataOffset != 0 {
        dataOffset := 0;
      }
      return false;
    }

    // The chunking loop; what it leaves in the block is the remainder of the string.
    method WriteFullBlocks(data: Bytes) returns (ghost done: seq<Message>)
      requires Ready() && Clean()
      modifies this`currentBlockCount, this`written, this`messageSize, this`dataOffset, dataBlock, buffers.Repr
      ensures Ready() && dataOffset == 0 && fresh(buffers.Repr - old(buffers.Repr))
      ensures buffers.log == old(buffers.log) + done && written == old(written) + |done|
      ensures done + [dataBlock[..messageSize]] == StringBlocks(Stored(data))
    {
      done := [];
      ghost var pos := 0;
      var firstWrite := true;
      assert Stored(data)[0..] == Stored(data);
      while firstWrite || dataOffset != 0
        invariant Ready() && messageSize == 0 && fresh(buffers.Repr - old(buffers.Repr))
        invariant buffers.log == old(buffers.log) + done && written == old(written) + |done|
        invariant Halfway(data, pos, done) && (firstWrite <==> pos == 0)
        invariant dataOffset == if firstWrite || pos == |Stored(data)| then 0 else pos
        decreases |data| - pos
      {
        var full := WriteToBlock(data);
        assert Ready();
        assert dataBlock[..messageSize] == data[pos..pos + messageSize];
        if !full {
          RemainderIsLast(data, pos, done);
          assert data[pos..pos + messageSize] == data[pos..];
          return;
        }
        ChunkIsNext(data, pos, done);
        WriteBlockToBuffer();
        firstWrite := false;
        pos, done := pos + BLOCK_SIZE, done + [data[pos..pos + BLOCK_SIZE]];
      }
      EmptyRemainder(data, done);
      assert dataBlock[..messageSize] == [];
    }

    // The whole string up to the wrap of its offset: full blocks, then one short block.
    method WriteStringToBuffer(data: Bytes)
      requires Ready() && Clean()
      modifies this`currentBlockCount, this`written, this`messageSize, this`dataOffset, dataBlock, buffers.Repr
      ensures Ready() && Clean() && fresh(buffers.Repr - old(buffers.Repr))
      ensures buffers.log == old(buffers.log) + StringBlocks(Stored(data))
      ensures written == old(written) + |StringBlocks(Stored(data))|
    {
      ghost var done := WriteFullBlocks(data);
      Append3(old(buffers.log), done, [dataBlock[..messageSize]], StringBlocks(Stored(data)));
      WriteBlockToBuffer(); // the remainder
    }

    // 64 bytes of 0xFF for the end of the stream, an empty block otherwise.
    method WriteDelimiterBlock(end: bool)
      requires Ready() && Clean()
      modifies this`currentBlockCount, this`written, this`messageSize, dataBlock, buffers.Repr
      ensures Ready() && Clean() && fresh(buffers.Repr - old(buffers.Repr))
      ensures buffers.log == old(buffers.log) + [Delimiter(end)] && written == old(written) + 1
    {
      if end {
        messageSize := BLOCK_SIZE;
        forall i | 0 <= i < messageSize {
          dataBlock[i] := 0xFF;
        }
        assert Ready();
      }
      assert dataBlock[..messageSize] == Delimiter(end);
      WriteBlockToBuffer();
    }

    // All fields of a map, name then value.
    method WriteMap(fields: FieldMap)
      requires Ready() && Clean()
      modifies this`currentBlockCount, this`written, this`messageSize, this`dataOffset, dataBlock, buffers.Repr
      ensures Ready() && Clean() && fresh(buffers.Repr - old(buffers.Repr))
      ensures buffers.log == old(buffers.log) + MapBlocks(fields)
      ensures written == old(written) + |MapBlocks(fields)|
    {
      for i := 0 to |fields|
        invariant Ready() && Clean() && fresh(buffers.Repr - old(buffers.Repr))
        invariant buffers.log == old(buffers.log) + MapBlocks(fields[..i])
        invariant written == old(written) + |MapBlocks(fields[..i])|
      {
        WriteStringToBuffer(fields[i].name);
        WriteStringToBuffer(fields[i].value);
        OneMoreField(old(buffers.log), fields, i);
      }
      assert fields[..|fields|] == fields;
    }

    method WriteBatch(fields: FieldMap, end: bool)
      requires Ready() && Clean()
      modifies this`currentBlockCount, this`written, this`messageSize, this`dataOffset, dataBlock, buffers.Repr
      ensures Ready() && Clean() && fresh(buffers.Repr - old(buffers.Repr))
      ensures buffers.log == old(buffers.log) + BatchBlocks(fields, end)
      ensures written == old(written) + |BatchBlocks(fields, end)|
    {
      WriteMap(fields);
      WriteDelimiterBlock(end);
      Append3(old(buffers.log), MapBlocks(fields), [Delimiter(end)], BatchBlocks(fields, end));
    }

    method WriteChunk(chunk: Bytes, end: bool)
      requires Ready() && Clean()
      modifies this`currentBlockCount, this`written, this`messageSize, this`dataOffset, dataBlock, buffers.Repr
      ensures Ready() && Clean() && fresh(buffers.Repr - old(buffers.Repr))
      ensures buffers.log == old(buffers.log) + ChunkBlocks(chunk, end)
      ensures written == old(written) + |ChunkBlocks(chunk, end)|
    {
      WriteStringToBuffer(chunk);
      WriteDelimiterBlock(end);
      Append3(old(buffers.log), StringBlocks(Stored(chunk)), [Delimiter(end)], ChunkBlocks(chunk, end));
    }

    method WriteHeaders(fields: FieldMap, end: bool)
      requires Valid()
      modifies this`buffers, this`currentBlockCount, this`written, this`messageSize, this`dataOffset, this`ops
      modifies dataBlock, entry.headersBuffers.Repr
      ensures Valid() && fresh(entry.Footprint() - old(entry.Footprint()))
      ensures ops == old(ops) + Pushes(HeadersSection, BatchBlocks(fields, end))
      ensures written == old(written) + |BatchBlocks(fields, end)|
    {
      PushesEffect(ops, HeadersSection, BatchBlocks(fields, end));
      buffers, ops := entry.headersBuffers, ops + Pushes(HeadersSection, BatchBlocks(fields, end));
      WriteBatch(fields, end);
      assert entry.Valid();
    }

    method WriteData(chunk: Bytes, end: bool)
      requires Valid()
      modifies this`buffers, this`currentBlockCount, this`written, this`messageSize, this`dataOffset, this`ops
      modifies dataBlock, entry.dataBuffers.Repr
      ensures Valid() && fresh(entry.Footprint() - old(entry.Footprint()))
      ensures ops == old(ops) + Pushes(DataSection, ChunkBlocks(chunk, end))
      ensures written == old(written) + |ChunkBlocks(chunk, end)|
    {
      PushesEffect(ops, DataSection, ChunkBlocks(chunk, end));
      buffers, ops := entry.dataBuffers, ops + Pushes(DataSection, ChunkBlocks(chunk, end));
      WriteChunk(chunk, end);
      assert entry.Valid();
    }

    method WriteTrailers(fields: FieldMap)
      requires Valid()
      modifies this`buffers, this`currentBlockCount, this`written, this`messageSize, this`dataOffset, this`ops
      modifies dataBlock, entry.trailersBuffers.Repr
      ensures Valid() && fresh(entry.Footprint() - old(entry.Footprint())) && buffers == entry.trailersBuffers
      ensures ops == old(ops) + Pushes(TrailersSection, BatchBlocks(fields, false))
      ensures written == old(written) + |BatchBlocks(fields, false)|
    {
      PushesEffect(ops, TrailersSection, BatchBlocks(fields, false));
      buffers, ops := entry.trailersBuffers, ops + Pushes(TrailersSection, BatchBlocks(fields, false));
      WriteBatch(fields, false);
      assert entry.Valid();
    }

    method PublishHeadersCount()
      requires Valid()
      modifies this`ops, entry`headersBlockCount
      ensures Valid() && ops == old(ops) + [PublishHeaders(currentBlockCount)]
    {
      entry.StoreHeadersCount(currentBlockCount, ops);
      ops := ops + [PublishHeaders(currentBlockCount)];
    }

    method PublishDataCount()
      requires Valid()
      modifies this`ops, entry`dataBlockCount
      ensures Valid() && ops == old(ops) + [PublishData(currentBlockCount)]
    {
      entry.StoreDataCount(currentBlockCount, ops);
      ops := ops + [PublishData(currentBlockCount)];
    }

    method HeadersWriteComplete()
      requires Valid()
      modifies this`currentBlockCount, this`written, this`headersWriteComplete, this`ops, entry`headersBlockCount
      ensures Valid() && headersWriteComplete && written == 0
      ensures ops == old(ops) + [PublishHeaders(old(currentBlockCount))]
    {
      PublishHeadersCount();
      currentBlockCount, written, headersWriteComplete := 0, 0, true;
    }

    // The running count is not reset: blocks of trailers are never counted.
    method DataWriteComplete()
      requires Valid()
      modifies this`dataWriteComplete, this`ops, entry`dataBlockCount
      ensures Valid() && dataWriteComplete
      ensures ops == old(ops) + [PublishData(currentBlockCount)]
    {
      PublishDataCount();
      dataWriteComplete := true;
    }

    method CloseTrailers()
      requires Valid() && buffers == entry.trailersBuffers
      modifies this`currentBlockCount, this`written, this`messageSize, this`ops
      modifies dataBlock, entry.trailersBuffers.Repr
      ensures Valid() && fresh(entry.Footprint() - old(entry.Footprint()))
      ensures ops == old(ops) + Pushes(TrailersSection, [Ones()]) && written == old(written) + 1
    {
      PushesEffect(ops, TrailersSection, [Ones()]);
      ops := ops + Pushes(TrailersSection, [Ones()]);
      WriteDelimiterBlock(true);
      assert entry.Valid();
    }

    // The end of the encoding: publishes the open count, or closes the trailers.
    method WriteComplete()
      requires Valid() && (headersWriteComplete && dataWriteComplete ==> buffers == entry.trailersBuffers)
      modifies this`currentBlockCount, this`written, this`messageSize, this`ops
      modifies dataBlock, entry`headersBlockCount, entry`dataBlockCount, entry.trailersBuffers.Repr
      ensures Valid() && fresh(entry.Footprint() - old(entry.Footprint()))
      ensures ops == old(ops) + (if !headersWriteComplete then [PublishHeaders(old(currentBlockCount))]
                                 else if !dataWriteComplete then [PublishData(old(currentBlockCount))]
                                 else Pushes(TrailersSection, [Ones()]))
      ensures written == old(written) + if headersWriteComplete && dataWriteComplete then 1 else 0
    {
      if !headersWriteComplete {
        PublishHeadersCount();
      } else if !dataWriteComplete {
        PublishDataCount();
      } else {
        CloseTrailers();
      }
    }
  }

  lemma OneMoreField(log: seq<Message>, fields: FieldMap, i: nat)
    requires i < |fields|
    ensures log + MapBlocks(fields[..i]) + StringBlocks(Stored(fields[i].name)) + StringBlocks(Stored(fields[i].value))
         == log + MapBlocks(fields[..i + 1])
    ensures |MapBlocks(fields[..i + 1])| == |MapBlocks(fields[..i])| + |FieldBlocks(fields[i])|
  {
    assert Front(fields[..i + 1]) == fields[..i];
  }
}
