/** The end of a recording: from the encoder callbacks of a response to the callbacks of every waiting request. */
module RecordAndReplay {
  import opened BlockCodec
  import opened EntryProgram
  import opened CacheEntryWriting
  import opened CacheEntryReading
  import opened EncoderCallbacks

  // When the encoder calls so far were those of a response, completing the encoding makes
  // the entry replay exactly them to every request that waits in the group.
  method CompleteAndServe(
    filter: EncodingFilter, consumer: CacheEntryConsumer, waiting: seq<DecoderCallbacks>, ghost r: Response)
    requires filter.Valid() && filter.calls + [CallComplete] == ResponseCalls(r)
    requires Replayable(filter.producer.entry.capacity, r)
    requires consumer.Valid() && consumer.AtRest() && Distinct(waiting)
    requires consumer !in filter.Footprint() && consumer.dataBlock !in filter.Footprint()
    requires forall c :: c in waiting ==> c !in filter.Footprint()
    modifies filter.Footprint(), consumer, consumer.dataBlock, waiting
    ensures filter.producer.entry.Valid() && filter.producer.entry.Reflects(Program(r))
    ensures forall c :: c in waiting ==> c.events == old(c.events) + ResponseEvents(r)
  {
    Complete(filter, r);
    ServeWaiting(consumer, filter.producer.entry, waiting, r);
  }

  method Complete(filter: EncodingFilter, ghost r: Response)
    requires filter.Valid() && filter.calls + [CallComplete] == ResponseCalls(r) && WellOrdered(r)
    modifies filter.Footprint()
    ensures filter.producer.entry.Valid() && filter.producer.entry.Reflects(Program(r))
    ensures fresh(filter.producer.entry.Footprint() - old(filter.producer.entry.Footprint()))
  {
    RecordResponse(r);
    filter.EncodeComplete();
  }
}
