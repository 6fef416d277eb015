/** The filter's encoder callbacks on a cache miss: they drive one producer through one response. */
module EncoderCallbacks {
  import opened Blocks
  import opened BlockCodec
  import opened EntryProgram
  import opened CacheEntryWriting

  class EncodingFilter {
    const producer: CacheEntryProducer
    var isFirstData: bool
    var isFirstTrailers: bool
    ghost var calls: seq<Call>

    // The flags, the open count and the operations so far are those of the recorder r.
    ghost predicate Matches(r: Recorder)
      reads this, producer, producer.dataBlock, producer.entry
      reads producer.entry.headersBuffers, producer.entry.dataBuffers, producer.entry.trailersBuffers
      reads producer.entry.Footprint()
    {
      && producer.Valid() && this !in producer.entry.Footprint()
      && producer.headersWriteComplete == !isFirstData
      && producer.dataWriteComplete == !isFirstTrailers
      && r.firstData == isFirstData && r.firstTrailers == isFirstTrailers
      && r.count == producer.currentBlockCount && r.ops == producer.ops
    }

    ghost predicate Valid()
      reads this, producer, producer.dataBlock, producer.entry
      reads producer.entry.headersBuffers, producer.entry.dataBuffers, producer.entry.trailersBuffers
      reads producer.entry.Footprint()
    {
      && Matches(RecordAll(NEW_RECORDER, calls))
      && (!isFirstTrailers ==> producer.buffers == producer.entry.trailersBuffers)
    }

    ghost function Footprint(): set<object>
      reads producer.entry.headersBuffers, producer.entry.dataBuffers, producer.entry.trailersBuffers
    {
      {this as object, producer, producer.dataBlock} + producer.entry.Footprint()
    }

    constructor (ringBufferCapacity: nat)
      requires ringBufferCapacity > 0
      ensures Valid() && calls == [] && isFirstData && isFirstTrailers
      ensures producer.entry.capacity == ringBufferCapacity && fresh(Footprint())
    {
      producer := new CacheEntryProducer(ringBufferCapacity);
      isFirstData, isFirstTrailers := true, true;
      calls := [];
    }

    method EncodeHeaders(fields: FieldMap, end: bool)
      requires Valid() && isFirstTrailers
      modifies Footprint()
      ensures Valid() && fresh(producer.entry.Footprint() - old(producer.entry.Footprint()))
      ensures calls == old(calls) + [CallHeaders(fields, end)]
      ensures isFirstData == old(isFirstData) && isFirstTrailers
    {
      ghost var r := RecordAll(NEW_RECORDER, calls);
      WriteHeaderBlocks(r, fields, end);
      RecordNext(calls, CallHeaders(fields, end));
      calls := calls + [CallHeaders(fields, end)];
    }

    method WriteHeaderBlocks(ghost r: Recorder, fields: FieldMap, end: bool)
      requires Matches(r) && isFirstTrailers
      modifies producer, producer.dataBlock, producer.entry.headersBuffers.Repr
      ensures fresh(producer.entry.Footprint() - old(producer.entry.Footprint()))
      ensures Matches(Record(r, CallHeaders(fields, end))) && isFirstTrailers
    {
      WrapAdd(producer.written, |BatchBlocks(fields, end)|);
      producer.WriteHeaders(fields, end);
    }

    method CloseHeadersOnce(ghost r: Recorder)
      requires Matches(r) && isFirstTrailers
      modifies this`isFirstData, producer, producer.entry`headersBlockCount
      ensures producer.entry.Footprint() == old(producer.entry.Footprint())
      ensures Matches(if r.firstData then r.(firstData := false, count := 0, ops := r.ops + [PublishHeaders(r.count)])
                      else r)
    {
      if isFirstData {
        producer.HeadersWriteComplete();
        isFirstData := false;
      }
    }

    // The first chunk closes the headers section.
    method EncodeData(chunk: Bytes, end: bool)
      requires Valid() && isFirstTrailers
      modifies Footprint()
      ensures Valid() && fresh(producer.entry.Footprint() - old(producer.entry.Footprint()))
      ensures calls == old(calls) + [CallData(chunk, end)]
      ensures !isFirstData && isFirstTrailers
    {
      ghost var r := RecordAll(NEW_RECORDER, calls);
      WriteDataBlocks(r, chunk, end);
      RecordNext(calls, CallData(chunk, end));
      calls := calls + [CallData(chunk, end)];
    }

    method WriteDataBlocks(ghost r: Recorder, chunk: Bytes, end: bool)
      requires Matches(r) && isFirstTrailers
      modifies this`isFirstData, producer, producer.dataBlock
      modifies producer.entry`headersBlockCount, producer.entry.dataBuffers.Repr
      ensures fresh(producer.entry.Footprint() - old(producer.entry.Footprint()))
      ensures Matches(Record(r, CallData(chunk, end))) && isFirstTrailers
    {
      CloseHeadersOnce(r);
      WrapAdd(producer.written, |ChunkBlocks(chunk, end)|);
      producer.WriteData(chunk, end);
    }

    method CloseDataOnce(ghost r: Recorder)
      requires Matches(r)
      modifies this`isFirstTrailers, producer, producer.entry`dataBlockCount
      ensures producer.entry.Footprint() == old(producer.entry.Footprint())
      ensures Matches(if r.firstTrailers then r.(firstTrailers := false, ops := r.ops + [PublishData(r.count)]) else r)
    {
      if isFirstTrailers {
        producer.DataWriteComplete();
        isFirstTrailers := false;
      }
    }

    // The first trailers close the data section, also when there has been no data.
    method EncodeTrailers(fields: FieldMap)
      requires Valid()
      modifies Footprint()
      ensures Valid() && fresh(producer.entry.Footprint() - old(producer.entry.Footprint()))
      ensures calls == old(calls) + [CallTrailers(fields)]
      ensures isFirstData == old(isFirstData) && !isFirstTrailers
    {
      ghost var r := RecordAll(NEW_RECORDER, calls);
      WriteTrailerBlocks(r, fields);
      RecordNext(calls, CallTrailers(fields));
      calls := calls + [CallTrailers(fields)];
    }

    method WriteTrailerBlocks(ghost r: Recorder, fields: FieldMap)
      requires Matches(r)
      modifies this`isFirstTrailers, producer, producer.dataBlock
      modifies producer.entry`dataBlockCount, producer.entry.trailersBuffers.Repr
      ensures fresh(producer.entry.Footprint() - old(producer.entry.Footprint()))
      ensures Matches(Record(r, CallTrailers(fields))) && isFirstData == old(isFirstData) && !isFirstTrailers
      ensures producer.buffers == producer.entry.trailersBuffers
    {
      CloseDataOnce(r);
      WrapAdd(producer.written, |BatchBlocks(fields, false)|);
      producer.WriteTrailers(fields);
    }

    // After the last callback the producer has performed the calls' operations and no others.
    method EncodeComplete()
      requires Valid()
      modifies Footprint()
      ensures producer.Valid() && fresh(producer.entry.Footprint() - old(producer.entry.Footprint()))
      ensures producer.ops == RecordAll(NEW_RECORDER, old(calls) + [CallComplete]).ops
    {
      RecordNext(calls, CallComplete);
      producer.WriteComplete();
    }
  }

  lemma RecordNext(calls: seq<Call>, c: Call)
    ensures RecordAll(NEW_RECORDER, calls + [c]) == Record(RecordAll(NEW_RECORDER, calls), c)
  {
    assert Front(calls + [c]) == calls;
  }
}
