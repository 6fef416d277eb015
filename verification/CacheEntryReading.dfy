/** The reader of a cache entry whose writing is finished: replaying a response, any number of times. */
module CacheEntryReading {
  import opened Blocks
  import opened BlockCodec
  import opened BlockCodecProofs
  import opened EntryProgram
  import opened RingBuffer
  import opened CacheEntryWriting
  import TrailerLoop
  import FinishedEntry
  import Exact = BlockCodecExact

  // The stream of one request: what is sent downstream, in order.
  class DecoderCallbacks {
    var events: seq<Event>

    constructor ()
      ensures events == []
    {
      events := [];
    }

    method Encode(e: Event)
      modifies this
      ensures events == old(events) + [e]
    {
      events := events + [e];
    }
  }

  // The buffer of a block that is not past the end exists.
  lemma BufferExists(buffers: BufferVector, q: nat, i: nat)
    requires buffers.Valid() && Base(buffers.capacity, q) + i < |buffers.log| && i < buffers.capacity
    ensures q < |buffers.buffers|
  {
    assert buffers.chain[..|buffers.chain|] == buffers.chain;
    if buffers.chain != [] {
      PackedLength(buffers.capacity, buffers.chain);
      if q >= |buffers.chain| {
        BaseMonotone(buffers.capacity, |buffers.chain|, q);
      }
    }
  }

  // What was sent can be given back exactly.
  predicate Replayable(capacity: nat, r: Response) {
    WellOrdered(r) && Exact.Storable(r) && FinishedEntry.Fits(capacity, r)
  }

  lemma ProgramOfResponse(r: Response, section: Section)
    requires WellOrdered(r)
    ensures PushedTo(section, Program(r)) == SectionBlocks(r, section)
    ensures HeadersCount(Program(r)) == Wrap(|SectionBlocks(r, HeadersSection)|)
    ensures r.chunks != [] ==> DataCount(Program(r)) == Wrap(|SectionBlocks(r, DataSection)|)
  {
    SectionsOfResponse(r);
    ProgramContents(SectionsOf(r), section);
  }

  // An entry whose writer has performed the whole program of r, section by section.
  lemma FinishedHeaders(entry: CacheEntry, r: Response)
    requires entry.Reflects(Program(r)) && WellOrdered(r)
    ensures entry.headersBuffers.log == SectionBlocks(r, HeadersSection)
    ensures entry.headersBlockCount == Wrap(|SectionBlocks(r, HeadersSection)|)
  {
    ProgramOfResponse(r, HeadersSection);
    ReflectedOps(entry, Program(r));
  }

  lemma FinishedData(entry: CacheEntry, r: Response)
    requires entry.Reflects(Program(r)) && WellOrdered(r)
    ensures entry.dataBuffers.log == SectionBlocks(r, DataSection)
    ensures r.chunks != [] ==> entry.dataBlockCount == Wrap(|SectionBlocks(r, DataSection)|)
  {
    ProgramOfResponse(r, DataSection);
    ReflectedOps(entry, Program(r));
  }

  lemma FinishedTrailers(entry: CacheEntry, r: Response)
    requires entry.Reflects(Program(r)) && WellOrdered(r)
    ensures entry.trailersBuffers.log == SectionBlocks(r, TrailersSection)
  {
    ProgramOfResponse(r, TrailersSection);
    ReflectedOps(entry, Program(r));
  }

  lemma ReflectedOps(entry: CacheEntry, ops: seq<Op>)
    requires entry.Reflects(ops)
    ensures entry.headersBuffers.log == PushedTo(HeadersSection, ops)
    ensures entry.dataBuffers.log == PushedTo(DataSection, ops)
    ensures entry.trailersBuffers.log == PushedTo(TrailersSection, ops)
    ensures entry.headersBlockCount == HeadersCount(ops) && entry.dataBlockCount == DataCount(ops)
  {
  }

  lemma RunNext(section: Section, p: Parser, blocks: seq<Message>, k: nat)
    requires p.Valid() && k < |blocks|
    ensures Run(section, p, blocks[..k + 1]) == Step(section, Run(section, p, blocks[..k]), blocks[k])
  {
    assert Front(blocks[..k + 1]) == blocks[..k];
  }

  class CacheEntryConsumer {
    var callbacks: DecoderCallbacks
    var currentBuffer: nat
    var readBlockCount: nat
    var bufferIndex: nat
    var blockIndex: nat
    var keyLength: nat
    var dataStr: Bytes
    var keyReadDone: bool
    var dataBatchComplete: bool
    var endStream: bool
    var headers: FieldMap
    var trailers: FieldMap
    var data: Bytes
    const dataBlock: array<byte>
    var messageSize: nat

    ghost predicate Valid()
      reads this
    {
      dataBlock.Length == BLOCK_SIZE && messageSize <= BLOCK_SIZE && keyLength <= |dataStr|
    }

    // The consumer as a state of the parser, filling the given map.
    ghost function State(fields: FieldMap): Parser
      reads this, callbacks
    {
      Parser(keyLength, keyReadDone, dataStr, fields, data, dataBatchComplete, endStream, callbacks.events)
    }

    ghost predicate AtRest()
      reads this
    {
      keyLength == 0 && !keyReadDone && dataStr == [] && data == [] && !dataBatchComplete
    }

    constructor ()
      ensures Valid() && AtRest() && fresh(dataBlock)
    {
      callbacks := new DecoderCallbacks();
      currentBuffer, readBlockCount, bufferIndex, blockIndex := 0, 0, 0, 0;
      keyLength, dataStr, keyReadDone, dataBatchComplete, endStream := 0, [], false, false, false;
      headers, trailers, data := [], [], [];
      dataBlock := new byte[BLOCK_SIZE](i => 0);
      messageSize := 0;
    }

    predicate IsDataBlockIndicatingEndStream()
      reads this, dataBlock
    {
      dataBlock[..] == Ones()
    }

    method ParseAndEncodeHeaders()
      requires Valid()
      modifies this`keyLength, this`dataStr, this`keyReadDone, this`endStream, this`headers, callbacks
      ensures Valid()
      ensures State(headers) == ParseField(old(State(headers)), old(dataBlock[..messageSize]), false)
    {
      assert messageSize == BLOCK_SIZE ==> dataBlock[..messageSize] == dataBlock[..];
      if messageSize > 0 {
        if keyLength == 0 && messageSize == BLOCK_SIZE && IsDataBlockIndicatingEndStream() {
          endStream := true;
          callbacks.Encode(EncodeHeaders(headers, endStream));
          headers := [];
          return;
        }
        dataStr := dataStr + dataBlock[..messageSize];
        if !keyReadDone {
          keyLength := Wrap(keyLength + messageSize);
          if messageSize < BLOCK_SIZE {
            keyReadDone := true;
          }
        } else if messageSize < BLOCK_SIZE {
          headers := headers + [Field(dataStr[..keyLength], dataStr[keyLength..])];
          dataStr, keyLength, keyReadDone := [], 0, false;
        }
      } else {
        if keyLength == 0 {
          callbacks.Encode(EncodeHeaders(headers, false));
          headers := [];
        } else if !keyReadDone {
          keyReadDone := true;
        } else {
          headers := headers + [Field(dataStr[..keyLength], dataStr[keyLength..])];
          dataStr, keyLength, keyReadDone := [], 0, false;
        }
      }
    }

    // The callee drains the buffered data.
    method ParseAndEncodeData()
      requires Valid()
      modifies this`endStream, this`data, this`dataBatchComplete, callbacks
      ensures Valid()
      ensures State(headers) == ParseData(old(State(headers)), old(dataBlock[..messageSize]))
    {
      assert messageSize == BLOCK_SIZE ==> dataBlock[..messageSize] == dataBlock[..];
      if messageSize > 0 {
        if dataBatchComplete && messageSize == BLOCK_SIZE && IsDataBlockIndicatingEndStream() {
          endStream := true;
          callbacks.Encode(EncodeData(data, endStream));
          data, dataBatchComplete := [], false;
          return;
        }
        data := data + dataBlock[..messageSize];
        if messageSize < BLOCK_SIZE {
          dataBatchComplete := true;
        }
      } else {
        if !dataBatchComplete {
          dataBatchComplete := true;
        } else {
          callbacks.Encode(EncodeData(data, false));
          data, dataBatchComplete := [], false;
        }
      }
    }

    method ParseAndEncodeTrailers()
      requires Valid()
      modifies this`keyLength, this`dataStr, this`keyReadDone, this`endStream, this`trailers, callbacks
      ensures Valid()
      ensures State(trailers) == ParseField(old(State(trailers)), old(dataBlock[..messageSize]), true)
    {
      assert messageSize == BLOCK_SIZE ==> dataBlock[..messageSize] == dataBlock[..];
      if messageSize > 0 {
        if keyLength == 0 && messageSize == BLOCK_SIZE && IsDataBlockIndicatingEndStream() {
          endStream := true;
          callbacks.Encode(EncodeTrailers(trailers));
          trailers := [];
          return;
        }
        dataStr := dataStr + dataBlock[..messageSize];
        if !keyReadDone {
          keyLength := Wrap(keyLength + messageSize);
          if messageSize < BLOCK_SIZE {
            keyReadDone := true;
          }
        } else if messageSize < BLOCK_SIZE {
          trailers := trailers + [Field(dataStr[..keyLength], dataStr[keyLength..])];
          dataStr, keyLength, keyReadDone := [], 0, false;
        }
      } else {
        if keyLength == 0 {
          callbacks.Encode(EncodeTrailers(trailers));
          trailers := [];
        } else if !keyReadDone {
          keyReadDone := true;
        } else {
          trailers := trailers + [Field(dataStr[..keyLength], dataStr[keyLength..])];
          dataStr, keyLength, keyReadDone := [], 0, false;
        }
      }
    }

    /* ---------- reading blocks of a finished section ---------- */

    ghost predicate Apart(buffers: BufferVector)
      reads this, buffers
    {
      this !in buffers.Repr && dataBlock !in buffers.Repr && callbacks !in buffers.Repr
    }

    // The cursor is at block k of the n that are to be read, in a buffer that exists unless k is n.
    ghost predicate CursorAt(buffers: BufferVector, k: nat, n: nat)
      reads this, buffers
    {
      && blockIndex < buffers.capacity && bufferIndex < UINT32_LIMIT
      && k == Base(buffers.capacity, bufferIndex) + blockIndex <= n <= |buffers.log|
      && (k < n ==> currentBuffer == bufferIndex < |buffers.buffers|)
    }

    // One read of the ring buffer into the data block.
    method ReadBlock(buffers: BufferVector, ghost k: nat, ghost n: nat)
      requires Valid() && buffers.Valid() && Apart(buffers) && CursorAt(buffers, k, n) && k < n
      modifies this`messageSize, dataBlock, buffers.buffers[currentBuffer].blocks
      ensures Valid() && buffers.Valid()
      ensures buffers.buffers == old(buffers.buffers) && buffers.log == old(buffers.log)
      ensures buffers.Repr == old(buffers.Repr)
      ensures dataBlock[..messageSize] == buffers.log[k]
    {
      var ok, message := buffers.ReadAt(currentBuffer, blockIndex);
      messageSize := |message|;
      forall i | 0 <= i < |message| {
        dataBlock[i] := message[i];
      }
      assert buffers.Valid();
    }

    // What the busy-wait on the next buffer comes to when the section is whole: it returns
    // at once, with the buffer unless all blocks have been read.
    method GetNextBuffer(buffers: BufferVector, done: bool, ghost n: nat)
      requires buffers.Valid() && blockIndex < buffers.capacity && bufferIndex < UINT32_LIMIT && n <= |buffers.log|
      requires !done ==> Base(buffers.capacity, bufferIndex) + blockIndex < n
      requires done ==> Base(buffers.capacity, bufferIndex) + blockIndex == n
      modifies this`currentBuffer
      ensures CursorAt(buffers, Base(buffers.capacity, bufferIndex) + blockIndex, n)
    {
      if done {
        return;
      }
      BufferExists(buffers, bufferIndex, blockIndex);
      currentBuffer := bufferIndex;
    }

    // To the next block, or from the last buffer that the 32-bit index can name to the first;
    // `done` when there is none to read.
    method Advance(buffers: BufferVector, done: bool, ghost k: nat, ghost n: nat)
      requires buffers.Valid() && CursorAt(buffers, k, n) && k < n
      requires done ==> k + 1 == n < Reach(buffers.capacity)
      requires !done ==> After(buffers.capacity, k) < n
      modifies this`currentBuffer, this`bufferIndex, this`blockIndex
      ensures CursorAt(buffers, After(buffers.capacity, k), n)
    {
      IndexInReach(buffers.capacity, bufferIndex, blockIndex, k);
      blockIndex := blockIndex + 1;
      if blockIndex == buffers.capacity {
        blockIndex := 0;
        bufferIndex := Wrap(bufferIndex + 1);
        GetNextBuffer(buffers, done, n);
      } else if !done {
        BufferExists(buffers, bufferIndex, blockIndex);
      }
    }

    // In a section whose blocks are counted.
    method CountAndAdvance(buffers: BufferVector, count: nat, ghost k: nat)
      requires buffers.Valid() && CursorAt(buffers, k, count) && k == readBlockCount < count <= UINT32_MAX
      modifies this`readBlockCount, this`currentBuffer, this`bufferIndex, this`blockIndex
      ensures CursorAt(buffers, k + 1, count) && readBlockCount == k + 1
    {
      CountedInReach(buffers.capacity, count);
      readBlockCount := Wrap(readBlockCount + 1);
      Advance(buffers, readBlockCount >= count, k, count);
    }

    // The cursor at the first block of a section.
    method Rewind(buffers: BufferVector, done: bool, ghost n: nat)
      requires buffers.Valid() && n <= |buffers.log| && (done <==> n == 0)
      modifies this`currentBuffer, this`bufferIndex, this`blockIndex
      ensures CursorAt(buffers, 0, n)
    {
      blockIndex, bufferIndex := 0, 0;
      GetNextBuffer(buffers, done, n);
    }

    // k of n blocks have been read, and parsed from state `start` on.
    ghost predicate Serving(
      buffers: BufferVector, section: Section, start: Parser, blocks: seq<Message>, k: nat, n: nat)
      reads this, callbacks, buffers, buffers.Repr
    {
      && Valid() && buffers.Valid() && Apart(buffers) && buffers.log == blocks && CursorAt(buffers, k, n)
      && start.Valid() && State(headers) == Run(section, start, blocks[..k])
    }

    /* ---------- headers ---------- */

    method ReadHeadersBlock(buffers: BufferVector, ghost k: nat, ghost n: nat)
      requires Valid() && buffers.Valid() && Apart(buffers) && CursorAt(buffers, k, n) && k < n
      modifies this`messageSize, this`keyLength, this`dataStr, this`keyReadDone, this`endStream, this`headers
      modifies dataBlock, callbacks, buffers.buffers[currentBuffer].blocks
      ensures Valid() && buffers.Valid()
      ensures buffers.buffers == old(buffers.buffers) && buffers.log == old(buffers.log)
      ensures buffers.Repr == old(buffers.Repr)
      ensures State(headers) == ParseField(old(State(headers)), buffers.log[k], false)
    {
      ReadBlock(buffers, k, n);
      ParseAndEncodeHeaders();
    }

    method ServeHeadersBlock(
      buffers: BufferVector, count: nat, ghost start: Parser, ghost blocks: seq<Message>, ghost k: nat)
      requires Serving(buffers, HeadersSection, start, blocks, k, count) && k == readBlockCount < count <= UINT32_MAX
      modifies this, dataBlock, callbacks, buffers.buffers[currentBuffer].blocks
      ensures Serving(buffers, HeadersSection, start, blocks, k + 1, count)
      ensures callbacks == old(callbacks) && buffers.Repr == old(buffers.Repr) && readBlockCount == k + 1
    {
      RunNext(HeadersSection, start, blocks, k);
      ReadHeadersBlock(buffers, k, count);
      CountAndAdvance(buffers, count, k);
    }

    method StartHeaders(buffers: BufferVector, count: nat, ghost start: Parser)
      requires Valid() && buffers.Valid() && Apart(buffers) && count <= |buffers.log|
      requires start == State([]).(endStream := false)
      modifies this`currentBuffer, this`bufferIndex, this`blockIndex, this`readBlockCount, this`endStream, this`headers
      ensures Serving(buffers, HeadersSection, start, buffers.log, 0, count) && readBlockCount == 0
    {
      readBlockCount, endStream, headers := 0, false, [];
      Rewind(buffers, readBlockCount >= count, count);
      assert buffers.log[..0] == [];
    }

    // As many blocks as the count says, each once and in order, with no failed read.
    method ServeHeaders(entry: CacheEntry)
      requires Valid() && entry.headersBuffers.Valid() && Apart(entry.headersBuffers)
      requires entry !in entry.headersBuffers.Repr
      requires entry.headersBlockCount <= |entry.headersBuffers.log| && entry.headersBlockCount <= UINT32_MAX
      modifies this, dataBlock, callbacks, entry.headersBuffers.Repr
      ensures Valid() && callbacks == old(callbacks) && entry.headersBuffers.Valid()
      ensures entry.headersBuffers.log == old(entry.headersBuffers.log)
      ensures entry.headersBuffers.Repr == old(entry.headersBuffers.Repr)
      ensures State(headers) == Run(HeadersSection, old(State([])).(endStream := false),
                                    entry.headersBuffers.log[..entry.headersBlockCount])
      ensures readBlockCount == entry.headersBlockCount
    {
      var buffers := entry.headersBuffers;
      ghost var start, blocks := State([]).(endStream := false), buffers.log;
      StartHeaders(buffers, entry.headersBlockCount, start);
      while readBlockCount < entry.headersBlockCount
        invariant Serving(buffers, HeadersSection, start, blocks, readBlockCount, entry.headersBlockCount)
        invariant callbacks == old(callbacks) && buffers.Repr == old(buffers.Repr)
        invariant entry.headersBlockCount == old(entry.headersBlockCount)
      {
        ServeHeadersBlock(buffers, entry.headersBlockCount, start, blocks, readBlockCount);
      }
    }

    /* ---------- data ---------- */

    method ReadDataBlock(buffers: BufferVector, ghost k: nat, ghost n: nat)
      requires Valid() && buffers.Valid() && Apart(buffers) && CursorAt(buffers, k, n) && k < n
      modifies this`messageSize, this`endStream, this`data, this`dataBatchComplete
      modifies dataBlock, callbacks, buffers.buffers[currentBuffer].blocks
      ensures Valid() && buffers.Valid()
      ensures buffers.buffers == old(buffers.buffers) && buffers.log == old(buffers.log)
      ensures buffers.Repr == old(buffers.Repr)
      ensures State(headers) == ParseData(old(State(headers)), buffers.log[k])
    {
      ReadBlock(buffers, k, n);
      ParseAndEncodeData();
    }

    method ServeDataBlock(
      buffers: BufferVector, count: nat, ghost start: Parser, ghost blocks: seq<Message>, ghost k: nat)
      requires Serving(buffers, DataSection, start, blocks, k, count) && k == readBlockCount < count <= UINT32_MAX
      modifies this, dataBlock, callbacks, buffers.buffers[currentBuffer].blocks
      ensures Serving(buffers, DataSection, start, blocks, k + 1, count)
      ensures callbacks == old(callbacks) && buffers.Repr == old(buffers.Repr) && readBlockCount == k + 1
    {
      RunNext(DataSection, start, blocks, k);
      ReadDataBlock(buffers, k, count);
      CountAndAdvance(buffers, count, k);
    }

    method StartData(buffers: BufferVector, count: nat, ghost start: Parser)
      requires Valid() && buffers.Valid() && Apart(buffers) && count <= |buffers.log| && start == State(headers)
      modifies this`currentBuffer, this`bufferIndex, this`blockIndex, this`readBlockCount
      ensures Serving(buffers, DataSection, start, buffers.log, 0, count) && readBlockCount == 0
    {
      readBlockCount := 0;
      Rewind(buffers, readBlockCount >= count, count);
      assert buffers.log[..0] == [];
    }

    method ServeData(entry: CacheEntry)
      requires Valid() && entry.dataBuffers.Valid() && Apart(entry.dataBuffers)
      requires entry !in entry.dataBuffers.Repr
      requires entry.dataBlockCount <= |entry.dataBuffers.log| && entry.dataBlockCount <= UINT32_MAX
      modifies this, dataBlock, callbacks, entry.dataBuffers.Repr
      ensures Valid() && callbacks == old(callbacks) && entry.dataBuffers.Valid()
      ensures entry.dataBuffers.log == old(entry.dataBuffers.log)
      ensures entry.dataBuffers.Repr == old(entry.dataBuffers.Repr)
      ensures State(headers)
           == Run(DataSection, old(State(headers)), entry.dataBuffers.log[..entry.dataBlockCount])
      ensures readBlockCount == entry.dataBlockCount
    {
      var buffers := entry.dataBuffers;
      ghost var start, blocks := State(headers), buffers.log;
      StartData(buffers, entry.dataBlockCount, start);
      while readBlockCount < entry.dataBlockCount
        invariant Serving(buffers, DataSection, start, blocks, readBlockCount, entry.dataBlockCount)
        invariant callbacks == old(callbacks) && buffers.Repr == old(buffers.Repr)
        invariant entry.dataBlockCount == old(entry.dataBlockCount)
      {
        ServeDataBlock(buffers, entry.dataBlockCount, start, blocks, readBlockCount);
      }
    }

    /* ---------- trailers ---------- */

    method ReadTrailersBlock(buffers: BufferVector, ghost k: nat, ghost n: nat)
      requires Valid() && buffers.Valid() && Apart(buffers) && CursorAt(buffers, k, n) && k < n
      modifies this`messageSize, this`keyLength, this`dataStr, this`keyReadDone, this`endStream, this`trailers
      modifies dataBlock, callbacks, buffers.buffers[currentBuffer].blocks
      ensures Valid() && buffers.Valid()
      ensures buffers.buffers == old(buffers.buffers) && buffers.log == old(buffers.log)
      ensures buffers.Repr == old(buffers.Repr)
      ensures State(trailers) == ParseField(old(State(trailers)), buffers.log[k], true)
    {
      ReadBlock(buffers, k, n);
      ParseAndEncodeTrailers();
    }

    // In pass h over the reach of the cursor, a blocks of the pass have been read.
    ghost predicate Looping(buffers: BufferVector, start: Parser, blocks: seq<Message>, h: nat, a: nat)
      reads this, callbacks, buffers, buffers.Repr
    {
      && Valid() && buffers.Valid() && Apart(buffers) && buffers.log == blocks && CursorAt(buffers, a, |blocks|)
      && start.Valid() && (h == 0 || Reach(buffers.capacity) <= |blocks|)
      && State(trailers) == TrailerLoop.At(Reach(buffers.capacity), blocks, start, h, a)
    }

    // To the next block, or round to the first one of another pass.
    method GoRound(
      buffers: BufferVector, ghost start: Parser, ghost blocks: seq<Message>, ghost h: nat, ghost a: nat)
      returns (ghost h': nat, ghost a': nat)
      requires Valid() && buffers.Valid() && Apart(buffers) && buffers.log == blocks && CursorAt(buffers, a, |blocks|)
      requires start.Valid() && (h == 0 || Reach(buffers.capacity) <= |blocks|)
      requires a < |blocks| && After(buffers.capacity, a) < |blocks|
      requires State(trailers) == TrailerLoop.At(Reach(buffers.capacity), blocks, start, h, a + 1)
      modifies this`currentBuffer, this`bufferIndex, this`blockIndex
      ensures Looping(buffers, start, blocks, h', a') && a' == After(buffers.capacity, a)
      ensures h' == if a + 1 == Reach(buffers.capacity) then h + 1 else h
    {
      Advance(buffers, false, a, |blocks|);
      h', a' := h, a + 1;
      if a + 1 == Reach(buffers.capacity) {
        h', a' := h + 1, 0;
        assert blocks[..0] == [];
      }
    }

    // One block of the trailers; the cursor stays where the end of the stream was met.
    method ServeTrailersBlock(
      buffers: BufferVector, ghost start: Parser, ghost blocks: seq<Message>, ghost h: nat, ghost b: nat,
      ghost k: nat, ghost a: nat)
      requires Looping(buffers, start, blocks, h, b) && b < Reach(buffers.capacity)
      requires TrailerLoop.EndsAt(Reach(buffers.capacity), blocks, start, k, a) && (h < k || (h == k && b <= a))
      modifies this, dataBlock, callbacks, buffers.buffers[currentBuffer].blocks
      ensures callbacks == old(callbacks) && buffers.Repr == old(buffers.Repr) && Valid() && buffers.Valid()
      ensures buffers.log == blocks && Apart(buffers) && CursorAt(buffers, b, |blocks|) && b < |blocks|
      ensures State(trailers) == TrailerLoop.At(Reach(buffers.capacity), blocks, start, h, b + 1)
      ensures endStream <==> h == k && b == a
      ensures !endStream ==> After(buffers.capacity, b) < |blocks|
    {
      StopsThere(Reach(buffers.capacity), blocks, start, k, a, h, b);
      TrailerLoop.AtNext(Reach(buffers.capacity), blocks, start, h, b);
      ReadTrailersBlock(buffers, b, |blocks|);
    }

    // The loop has still to come to block a of pass k, where it ends.
    ghost predicate Pending(
      buffers: BufferVector, start: Parser, blocks: seq<Message>, h: nat, b: nat, k: nat, a: nat)
      reads this, callbacks, buffers, buffers.Repr
    {
      && Looping(buffers, start, blocks, h, b) && b < Reach(buffers.capacity)
      && TrailerLoop.EndsAt(Reach(buffers.capacity), blocks, start, k, a) && (h < k || (h == k && b <= a))
    }

    // One turn of the loop.
    method ServeTrailersTurn(
      buffers: BufferVector, ghost start: Parser, ghost blocks: seq<Message>, ghost h: nat, ghost b: nat,
      ghost k: nat, ghost a: nat)
      returns (ghost h': nat, ghost b': nat)
      requires Pending(buffers, start, blocks, h, b, k, a)
      modifies this, dataBlock, callbacks, buffers.buffers[currentBuffer].blocks
      ensures callbacks == old(callbacks) && buffers.Repr == old(buffers.Repr) && Valid() && buffers.Valid()
      ensures buffers.log == blocks
      ensures endStream ==> State(trailers) == TrailerLoop.At(Reach(buffers.capacity), blocks, start, k, a + 1)
      ensures !endStream ==> Pending(buffers, start, blocks, h', b', k, a) && (h < h' || (h == h' && b < b'))
    {
      h', b' := h, b;
      ServeTrailersBlock(buffers, start, blocks, h, b, k, a);
      if !endStream {
        h', b' := GoRound(buffers, start, blocks, h, b);
      }
    }

    method StartTrailers(buffers: BufferVector, ghost start: Parser, ghost k: nat, ghost a: nat)
      requires Valid() && buffers.Valid() && Apart(buffers) && start == State([])
      requires TrailerLoop.EndsAt(Reach(buffers.capacity), buffers.log, start, k, a)
      modifies this`currentBuffer, this`bufferIndex, this`blockIndex, this`trailers
      ensures Pending(buffers, start, buffers.log, 0, 0, k, a)
    {
      trailers := [];
      Rewind(buffers, false, |buffers.log|);
      assert buffers.log[..0] == [];
    }

    // Only an end-of-stream block ends the trailers; the loop stops where it meets one.
    method ServeTrailers(entry: CacheEntry, ghost k: nat, ghost a: nat)
      requires Valid() && entry.trailersBuffers.Valid() && Apart(entry.trailersBuffers)
      requires TrailerLoop.EndsAt(Reach(entry.trailersBuffers.capacity), entry.trailersBuffers.log,
                                  State([]), k, a)
      modifies this, dataBlock, callbacks, entry.trailersBuffers.Repr
      ensures Valid() && callbacks == old(callbacks) && entry.trailersBuffers.Valid()
      ensures entry.trailersBuffers.log == old(entry.trailersBuffers.log)
      ensures entry.trailersBuffers.Repr == old(entry.trailersBuffers.Repr)
      ensures State(trailers) == TrailerLoop.At(Reach(entry.trailersBuffers.capacity),
                                                entry.trailersBuffers.log, old(State([])), k, a + 1)
    {
      var buffers := entry.trailersBuffers;
      ghost var start, blocks := State([]), buffers.log;
      ghost var h: nat, b: nat := 0, 0;
      StartTrailers(buffers, start, k, a);
      while true
        invariant Pending(buffers, start, blocks, h, b, k, a)
        invariant callbacks == old(callbacks) && buffers.Repr == old(buffers.Repr)
        decreases k - h, Reach(buffers.capacity) - b
      {
        h, b := ServeTrailersTurn(buffers, start, blocks, h, b, k, a);
        if endStream {
          return;
        }
      }
    }

    /* ---------- the whole response ---------- */

    ghost predicate Ready(entry: CacheEntry, r: Response)
      reads this, entry, entry.headersBuffers, entry.dataBuffers, entry.trailersBuffers, entry.Footprint()
    {
      && Valid() && entry.Valid() && entry.Reflects(Program(r)) && WellOrdered(r)
      && this !in entry.Footprint() && dataBlock !in entry.Footprint() && callbacks !in entry.Footprint()
    }

    method ServeHeadersPart(entry: CacheEntry, ghost r: Response, ghost p: Parser)
      requires Ready(entry, r) && p == State([])
      modifies this, dataBlock, callbacks, entry.headersBuffers.Repr
      ensures Ready(entry, r) && callbacks == old(callbacks) && entry.Footprint() == old(entry.Footprint())
      ensures State(headers) == FinishedEntry.HeadersRead(p, r)
    {
      FinishedHeaders(entry, r);
      ServeHeaders(entry);
      assert p.(fields := [], endStream := false) == p.(endStream := false);
      assert entry.Valid();
    }

    method ServeDataPart(entry: CacheEntry, ghost r: Response, ghost h: Parser)
      requires Ready(entry, r) && r.chunks != [] && State(headers) == h
      modifies this, dataBlock, callbacks, entry.dataBuffers.Repr
      ensures Ready(entry, r) && callbacks == old(callbacks) && entry.Footprint() == old(entry.Footprint())
      ensures h.Valid() && State(headers) == FinishedEntry.DataRead(h, r)
    {
      FinishedData(entry, r);
      ServeData(entry);
      assert entry.Valid();
    }

    method ServeTrailersPart(entry: CacheEntry, ghost r: Response, ghost d: Parser, ghost k: nat, ghost a: nat)
      requires Ready(entry, r) && State([]) == d
      requires TrailerLoop.EndsAt(Reach(entry.capacity), SectionBlocks(r, TrailersSection), d, k, a)
      modifies this, dataBlock, callbacks, entry.trailersBuffers.Repr
      ensures Ready(entry, r) && callbacks == old(callbacks) && entry.Footprint() == old(entry.Footprint())
      ensures State(trailers)
           == TrailerLoop.At(Reach(entry.capacity), SectionBlocks(r, TrailersSection), d, k, a + 1)
    {
      FinishedTrailers(entry, r);
      ServeTrailers(entry, k, a);
      assert entry.Valid();
    }

    // The consumer as it will be when it serves the stream of these callbacks.
    ghost function StateFor(decoderCallbacks: DecoderCallbacks): Parser
      reads this, decoderCallbacks
    {
      Parser(keyLength, keyReadDone, dataStr, [], data, dataBatchComplete, endStream, decoderCallbacks.events)
    }

    // Whatever state the consumer is in and whatever the response: if serving the entry ends in
    // state q, then so does this, with no failed read and the entry still readable.
    method ServeCachedResponse(
      entry: CacheEntry, decoderCallbacks: DecoderCallbacks, ghost r: Response, ghost q: Parser)
      requires Valid() && entry.Valid() && entry.Reflects(Program(r)) && WellOrdered(r)
      requires this !in entry.Footprint() && dataBlock !in entry.Footprint() && decoderCallbacks !in entry.Footprint()
      requires FinishedEntry.Serves(entry.capacity, r, StateFor(decoderCallbacks), q)
      modifies this, dataBlock, decoderCallbacks, entry.Footprint()
      ensures Ready(entry, r) && entry.Footprint() == old(entry.Footprint())
      ensures callbacks == decoderCallbacks && State(q.fields) == q
    {
      callbacks := decoderCallbacks;
      ghost var p := State([]);
      ServeHeadersPart(entry, r, p);
      if !endStream {
        ghost var h := State(headers);
        ServeDataPart(entry, r, h);
        if !endStream {
          ghost var k, a := FinishedEntry.EndOf(entry.capacity, State(headers), SectionBlocks(r, TrailersSection), q);
          ServeTrailersPart(entry, r, State([]), k, a);
        }
      }
    }
  }

  // The position that follows k within the reach of the cursor.
  function After(capacity: nat, k: nat): nat {
    if k + 1 == Reach(capacity) then 0 else k + 1
  }

  // Before the place where the loop ends the stream goes on, and at that place it ends.
  lemma StopsThere(reach: nat, blocks: seq<Message>, start: Parser, k: nat, a: nat, h: nat, b: nat)
    requires TrailerLoop.EndsAt(reach, blocks, start, k, a) && b < reach && (h < k || (h == k && b <= a))
    ensures b < |blocks|
    ensures TrailerLoop.At(reach, blocks, start, h, b + 1).endStream <==> h == k && b == a
    ensures !(h == k && b == a) ==> (if b + 1 == reach then 0 else b + 1) < |blocks|
  {
    if !(h == k && b == a) {
      TrailerLoop.NotYet(reach, blocks, start, k, a, h, b + 1);
    }
  }

  predicate Distinct(waiting: seq<DecoderCallbacks>) {
    forall i, j :: 0 <= i < j < |waiting| ==> waiting[i] != waiting[j]
  }

  // One consumer serves every waiting request of a group the same response.
  method ServeWaiting(
    consumer: CacheEntryConsumer, entry: CacheEntry, waiting: seq<DecoderCallbacks>, ghost r: Response)
    requires consumer.Valid() && consumer.AtRest() && entry.Valid() && entry.Reflects(Program(r))
    requires Replayable(entry.capacity, r)
    requires consumer !in entry.Footprint() && consumer.dataBlock !in entry.Footprint()
    requires Distinct(waiting) && forall c :: c in waiting ==> c !in entry.Footprint()
    modifies consumer, consumer.dataBlock, waiting, entry.Footprint()
    ensures entry.Valid() && entry.Reflects(Program(r)) && consumer.Valid() && consumer.AtRest()
    ensures forall c :: c in waiting ==> c.events == old(c.events) + ResponseEvents(r)
  {
    for n := 0 to |waiting|
      invariant consumer.Valid() && consumer.AtRest() && entry.Valid() && entry.Reflects(Program(r))
      invariant entry.Footprint() == old(entry.Footprint())
      invariant forall i :: 0 <= i < n ==> waiting[i].events == old(waiting[i].events) + ResponseEvents(r)
      invariant forall i :: n <= i < |waiting| ==> waiting[i].events == old(waiting[i].events)
    {
      label before:
      ServeOne(consumer, entry, waiting[n], r);
      forall i | 0 <= i < |waiting| && i != n ensures waiting[i].events == old@before(waiting[i].events) {
        assert waiting[i] != waiting[n];
      }
    }
  }

  // A stream gets exactly the encoder calls, and the parser fields are back at their start values.
  method ServeOne(consumer: CacheEntryConsumer, entry: CacheEntry, stream: DecoderCallbacks, ghost r: Response)
    requires consumer.Valid() && consumer.AtRest() && entry.Valid() && entry.Reflects(Program(r))
    requires Replayable(entry.capacity, r)
    requires consumer !in entry.Footprint() && consumer.dataBlock !in entry.Footprint() && stream !in entry.Footprint()
    modifies consumer, consumer.dataBlock, stream, entry.Footprint()
    ensures entry.Valid() && entry.Reflects(Program(r)) && consumer.Valid() && consumer.AtRest()
    ensures entry.Footprint() == old(entry.Footprint()) && consumer.endStream
    ensures stream.events == old(stream.events) + ResponseEvents(r)
  {
    ghost var p := consumer.StateFor(stream);
    FinishedEntry.ServesFitting(entry.capacity, r, p);
    consumer.ServeCachedResponse(entry, stream, r, p.(events := p.events + ResponseEvents(r), endStream := true));
  }
}
