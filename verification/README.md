# A model of the HTTP cache filter with request coalescing

The filter keeps responses in RAM and lets requests that arrive while a response is on its
way share it. These parts carry the logic, and this project models them and how they fit:

* **The block codec** (`BlockCodec`, `BlockCodecProofs`, `BlockCodecExact`). Header names, header
  values, chunks and trailers are cut into 64-byte blocks: floor(n/64) full blocks and one short,
  possibly empty, block per string. A batch is closed by an empty block, or by a block of 64 bytes
  of 0xFF at the end of the stream, and a hand-written parser tells the two from payload.
  32-bit wrap-around is explicit: of the write offset (`Stored`), of the key length and of the counts.
* **The entry in memory** (`RingBuffer`, `EntryProgram`, `CacheEntryWriting`, `EncoderCallbacks`,
  `CacheEntryReading`, `RecordAndReplay`). Classes with the fields of the original: a buffer of versioned
  blocks, a growing vector of buffers, the entry with its two published counts, the producer, the filter's
  encoder callbacks and the consumer.
* **What comes back of it** (`TrailerLoop`, `FinishedEntry`, `RoundTrip`). What a consumer does with a finished entry,
  with the counts as the loops use them and the 32-bit buffer index that goes round, and for exactly which responses
  that is what was sent.
* **Streaming** (`Streaming`, `StreamingInvariant`, `StreamingReaders`, `StreamingRuns`, `StreamingExact`,
  `StreamingSafety`, `StreamingVersions`, `StreamingProgress`, `StreamingKeepsUp`). One producer and any number of consumers of one entry,
  interleaved at every single access to the entry's memory, under any schedule. The consumers may have served other
  entries before. `OnesPattern` is the one piece of shared memory outside the entry, the static end-of-stream block.
* **The LRU cache** (`LruSpec`, `LruCache`, `LruInclusion`, `LruResidency`): a list of nodes and a map of
  iterators, refining a sequence of slots.
* **Request coalescing** (`Coalescing`, `CoalescingInvariant`, `CoalescingFrame`, `CoalescingSteps`,
  `CoalescingTheorems`, `CoalescingQueues`, `CoalescingHistory`, `CoalescingLookups`, `CoalescingArrivals`,
  `CoalescingAnswers`, `CoalescingProgress`, `CoalescingTimeouts`): any number of threads,
  keys and requests, one step per lock-protected section of a handler. Its cache is the LRU sequence of `LruSpec`, and its
  entries carry the status unmade, being written, complete.
* **End to end** (`EndToEnd`, `EndToEndRuns`): runs of the coalescing protocol joined with one streaming run per entry,
  down to the callbacks that each request receives.

`dafny verify dfyconfig.toml` checks everything.

## How the code appears in the model

* `Streaming.WriteBlockStep` is `writeBlockToBuffer` and `RingBufferQueue::write`
  (cache_entry.cc:115-125, ring_buffer.cc:16-41): the check of the block counter, the emplacement of a new
  buffer, the counter increment, both loads of the version, the stores of version and size, every byte of the copy and the
  final version store are separate steps. The sequence of block writes and count stores that the
  producer performs is a list of operations, `EntryProgram.Program`; `EntryProgram.RecordResponse` and the contracts of the
  classes tie it to the code.
* `Streaming.ReaderStep` is `serveCachedResponse` with its three loops, the busy-waits and
  `RingBufferQueue::read` (cache_entry.cc:139-417, ring_buffer.cc:43-60). A reader's version update is a load and a later
  plain store, so updates of other readers in between are lost. The parser step is thread-local and is one step.
* `Coalescing.Next` is the handlers of the filter (http_cache_rc_filter.cc:17-128 and 164-306). `Arrive` is the first critical section
  of `getThreadStatus`; `Advance` is the next step of the handler a thread is in; `FirstHeaders`
  and `ResponseEnd` are the origin's answer reaching `encodeHeaders` and `encodeComplete`; `Timeout` is the end of the
  five seconds. `begin()` of the table of led groups is a free choice. A group, and the entry made for it, is
  named after the request that created it. The loops over waiting and deferred requests take each element off its
  list as they reach it; the original leaves the elements in lists that nobody reads again.
* Serving from an entry is one step of Coalescing, possible once the entry is complete: until then the reader polls. What
  happens while it polls is the business of the streaming modules, and `EndToEnd` puts the two together.
* A header map is the sequence of fields that `addCopy` builds. The map moved away at the end of the stream is an
  empty map; only a response that cannot be stored would ever add to it. The downstream `encodeData` drains the buffer it is
  given.
* Each filter has one consumer. It serves the filter's own request, or the requests of the list that its leader keeps and
  then the deferred requests, from entries of several groups; `EndToEnd.ServerOf` says which. It is the same parser all along, so the
  streaming theorems are about consumers in any state with nothing half read, and give back one in such a state.
* The encoder calls come as headers, data, trailers, and the end-of-stream flag is set on the last header or data call exactly when there
  are no trailers. `WellOrdered` asks for data before any trailers; `RoundTrip` is about responses without it as well. At the end of the
  trailers the consumer emits one more, empty, trailer map, as the code does.

These results show where the code does less than one might expect.

* A response comes back as it was sent if and only if (`RoundTripIff` for a finished entry, `StreamingIff` for every interleaving)
  there is data before any trailers; it is `Storable`; its headers and its data have at most 2^32 - 1 blocks each; and its
  trailers have at most 2^32 * capacity blocks. Each clause is the guard of a branch that fails:
  * A response with trailers and no data: the end of the encoding publishes the number of header *and* trailer blocks as the
    headers count (cache_entry.cc:51-62), so that a consumer waits for header blocks that never come
    (`RecordDataless`; `DatalessWaits` for the smallest such response).
  * `Storable`: names are non-empty, shorter than 2^32 bytes and do not
    begin with 64 bytes of 0xFF, and values and chunks have at most 2^32 bytes. A longer chunk is cut, because
    the 32-bit write offset returns to zero; a name of 2^32 bytes is taken for a delimiter, because the key length does (`OverlongName`).
  * A longer counted section wraps its count: of 2^32 empty header batches the count is 0 and nothing is read (`WrappedCount`). At
    2^32 - 1 blocks the published count equals the sentinel value and a reader still stops in the right place.
  * Longer trailers make the 32-bit buffer index return to the first buffer: the loop reads the first 2^32 * capacity blocks over and over, and
    never ends with the right callbacks (`TooLong`, `BeyondReach`).
* A consumer can be built between the moment another constructor sets the flag of the static end-of-stream block and the moment it has
  filled the block (`BuiltTooEarly`); it then compares with zeros. The block is right if and only if some constructor has filled it to
  the end (`FilledIff`), which the other modules take for granted.
* Comments in the code call the closing blocks "full of 0" (cache_entry.cc:111) and "a block with size 0 full of binary 1"
  (cache_entry.cc:371); the code writes an empty block and a block of size 64, and the model follows the code.

## Model

| member | source | states |
|---|---|---|
| BlockCodecProofs.StringBlocksShape | cache_entry.cc:64-102 | a string of n bytes becomes n div 64 full blocks and one block of n mod 64 bytes, and their concatenation is the string |
| BlockCodecProofs.ReadField | cache_entry.cc:213-265 | from between fields the parser turns the blocks of a field into that field, for any value: empty, a multiple of 64 long, or all 0xFF |
| BlockCodecProofs.ReadHeaders | cache_entry.cc:213-265 | for every list of header batches with good names the parser emits exactly those batches, in order, the end-of-stream flag on the last one only |
| BlockCodecProofs.ReadTrailerBatches | cache_entry.cc:419-470 | the trailers parser emits exactly the trailer batches, in order |
| BlockCodecProofs.ReadData | cache_entry.cc:326-358 | for every list of chunks, empty and all-0xFF ones included, the data parser emits exactly the stored chunks and never takes payload for a delimiter |
| BlockCodecProofs.HeadersHaveSize | cache_entry.cc:14-27 | a header section has, per batch, one block plus len div 64 + 1 for every name and value |
| BlockCodecProofs.DataHasSize | cache_entry.cc:29-41 | a data section has len div 64 + 2 blocks per chunk |
| BlockCodecExact.ReadTrailers | cache_entry.cc:419-470 | the end of the trailers yields one further, empty trailer map and ends the stream |
| BlockCodecExact.TrailersEndLast | cache_entry.cc:378-392 | no strict prefix of the trailers section ends the stream, so the loop ends at its last block |
| BlockCodecExact.StorableComesBack | cache_entry.cc:213-470 | parsing all blocks of a storable response emits exactly its encoder calls and brings every parser field back to its start value |
| BlockCodecExact.OverlongName | cache_entry.cc:233-238 | a name of exactly 2^32 bytes brings the 32-bit key length back to zero and is cut off by the delimiter test |
| EntryProgram.RecordDataless | http_cache_rc_filter.cc:104-121 | without data, the first trailers publish the header blocks as the data count, and the end publishes header and trailer blocks together as the headers count, with no end-of-stream block |
| TrailerLoop.TooLong | cache_entry.cc:370-392 | a trailers section longer than 2^32 buffers, wherever the loop over it ends, has not given the callbacks that were written |
| FinishedEntry.ServesOnce | cache_entry.cc:139-150 | there is at most one state in which serving a finished entry ends |
| FinishedEntry.HeadersExact | cache_entry.cc:164-184 | the header callbacks are the right ones exactly if the headers are storable and all blocks of the section are read |
| FinishedEntry.DataExact | cache_entry.cc:267-298 | the same for the data section |
| FinishedEntry.TrailersIff | cache_entry.cc:360-394 | the trailers loop ends with the right callbacks exactly if the trailers are storable and within reach of the 32-bit buffer index |
| FinishedEntry.ServesIff | cache_entry.cc:139-150 | a consumer at rest ends with exactly the callbacks of a well-ordered response if and only if it is storable and fits the counts and the cursor |
| FinishedEntry.WrappedCount | cache_entry.cc:22-27 | 2^32 empty header batches are storable, publish the count 0, and leave a consumer waiting with no callback made |
| FinishedEntry.BeyondReach | cache_entry.cc:380-384 | trailers one block beyond the reach of the buffer index do not come back |
| RoundTrip.RoundTripIff | cache_entry.cc:139-150 | what the encoder calls of a response leave in the entry comes back as it was sent if and only if there is data before any trailers, the response is storable, and its sections fit the counts and the cursor |
| RoundTrip.DatalessWaits | cache_entry.cc:51-62 | of one header batch and one trailer batch without data nothing is ever served to the end |
| BlockCodecExact.EncodingIsInjective | cache_entry.cc:14-113 | different storable responses never have the same blocks |
| EntryProgram.RecordResponse | http_cache_rc_filter.cc:85-121 | the encoder calls of a response, with the filter's first-data and first-trailers flags, perform: all header blocks, their count, all data blocks, their count, all trailer blocks |
| EntryProgram.PrefixBlocks | cache_entry.cc:14-49 | after any number of operations each section holds a prefix of its blocks, and sections fill up in order |
| EntryProgram.PrefixCounts | cache_entry.cc:22-62 | a count leaves the sentinel exactly when its section is whole |
| EntryProgram.ProgramContents | cache_entry.cc:22-62 | a finished entry holds each section's blocks and their numbers as counts |
| RingBuffer.RingBufferQueue.constructor | ring_buffer.cc:3-10 | an empty buffer, all versions zero |
| RingBuffer.RingBufferQueue.Write | ring_buffer.cc:16-41 | refuses exactly when full, otherwise appends the message with version one and leaves the other blocks alone; committed blocks have odd versions, the others version zero |
| RingBuffer.RingBufferQueue.Read | ring_buffer.cc:43-60 | succeeds exactly on a committed block, returns its message, adds two to its version modulo 2^32 and changes nothing else; it can be repeated |
| RingBuffer.ChainedLayout | cache_entry.cc:115-125 | block k is in slot k mod c of buffer k div c, and all buffers but the last are full |
| RingBuffer.BufferVector.Append | cache_entry.cc:115-125 | appends one block, to the last buffer or a new one, and keeps the layout |
| RingBuffer.BufferVector.ReadAt | ring_buffer.cc:43-60 | slot i of buffer q reads as block q*c + i of the section, and fails exactly past its end |
| CacheEntryWriting.CacheEntry.constructor | cache_entry.h:20-33 | three empty buffer vectors and both counts at UINT32_MAX |
| CacheEntryWriting.CacheEntryProducer.constructor | cache_entry.cc:5-8 | a producer with its own empty entry |
| CacheEntryWriting.CacheEntryProducer.WriteBlockToBuffer | cache_entry.cc:115-125 | appends the filled part of the data block, empties it, and counts one block modulo 2^32 |
| CacheEntryWriting.CacheEntryProducer.WriteToBlock | cache_entry.cc:75-102 | copies what fits, reports whether the block is full, and leaves the 32-bit offset at the next byte or at zero |
| CacheEntryWriting.CacheEntryProducer.WriteFullBlocks | cache_entry.cc:64-71 | the loop ends, having written the full blocks of the string, with its remainder in the data block and the offset at zero |
| CacheEntryWriting.CacheEntryProducer.WriteStringToBuffer | cache_entry.cc:64-73 | appends exactly the blocks of the stored string and leaves message size and offset at zero |
| CacheEntryWriting.CacheEntryProducer.WriteDelimiterBlock | cache_entry.cc:104-113 | appends an empty block, or 64 bytes of 0xFF at the end of the stream |
| CacheEntryWriting.CacheEntryProducer.WriteMap | cache_entry.h:58-62 | appends name and value of every field in order |
| CacheEntryWriting.CacheEntryProducer.WriteHeaders | cache_entry.cc:14-20 | adds one batch to the headers section and to no other |
| CacheEntryWriting.CacheEntryProducer.HeadersWriteComplete | cache_entry.cc:22-27 | publishes the running count as the headers count and restarts it |
| CacheEntryWriting.CacheEntryProducer.WriteData | cache_entry.cc:29-35 | adds one chunk to the data section and to no other |
| CacheEntryWriting.CacheEntryProducer.DataWriteComplete | cache_entry.cc:37-41 | publishes the running count as the data count, without restarting it |
| CacheEntryWriting.CacheEntryProducer.WriteTrailers | cache_entry.cc:43-49 | adds one batch, never marked as the end, to the trailers section and to no other |
| CacheEntryWriting.CacheEntryProducer.WriteComplete | cache_entry.cc:51-62 | publishes the open count, or closes the trailers with an end-of-stream block |
| EncoderCallbacks.EncodingFilter.EncodeHeaders | http_cache_rc_filter.cc:64-88 | the producer has performed the operations of the calls so far; the flags are unchanged |
| EncoderCallbacks.EncodingFilter.EncodeData | http_cache_rc_filter.cc:90-102 | the first chunk closes the headers section, later ones do not |
| EncoderCallbacks.EncodingFilter.EncodeTrailers | http_cache_rc_filter.cc:104-115 | the first trailers close the data section, later ones do not, also when there has been no data |
| EncoderCallbacks.EncodingFilter.EncodeComplete | http_cache_rc_filter.cc:117-121 | at the end the producer has performed exactly the operations of all calls |
| CacheEntryReading.CacheEntryConsumer.ParseAndEncodeHeaders | cache_entry.cc:213-265 | one step of the header parser on the fields of the consumer |
| CacheEntryReading.CacheEntryConsumer.ParseAndEncodeData | cache_entry.cc:326-358 | one step of the data parser on the fields of the consumer |
| CacheEntryReading.CacheEntryConsumer.ParseAndEncodeTrailers | cache_entry.cc:419-470 | one step of the trailers parser on the fields of the consumer |
| CacheEntryReading.CacheEntryConsumer.Advance | cache_entry.cc:173-177 | the cursor moves to the next block, its 32-bit buffer index wrapping, in a buffer that exists unless there is none left to read |
| CacheEntryReading.CacheEntryConsumer.ServeHeaders | cache_entry.cc:152-185 | for any published count up to the number of blocks, the loop ends with no failed read, having parsed that many blocks, each once and in order |
| CacheEntryReading.CacheEntryConsumer.ServeData | cache_entry.cc:267-298 | the same for the data section |
| CacheEntryReading.CacheEntryConsumer.ServeTrailers | cache_entry.cc:360-394 | if the trailers, read round and round by the 32-bit cursor, end the stream anywhere, the loop ends there and has parsed exactly those blocks |
| CacheEntryReading.CacheEntryConsumer.ServeCachedResponse | cache_entry.cc:139-150 | for any consumer state and any finished entry on which serving ends, it ends in exactly that state, with no failed read and the entry still readable |
| CacheEntryReading.ServeOne | cache_entry.cc:139-150 | from a finished entry of a storable response that fits, a stream gets exactly the encoder calls, and the parser fields are back at their start values |
| CacheEntryReading.ServeWaiting | http_cache_rc_filter.cc:252-262 | one consumer gives every waiting request the same callbacks |
| RecordAndReplay.CompleteAndServe | http_cache_rc_filter.cc:117-128 | when the encoder calls were those of a response, completing the encoding and serving the list gives every waiting request exactly those calls |
| StreamingInvariant.WriterStepOk | ring_buffer.cc:16-41 | every single access of the producer keeps: committed blocks carry their messages, the claimed slot is untouched by others, all buffers but the last are full, counts show only whole sections |
| StreamingReaders.AcknowledgeStep | ring_buffer.cc:55-57 | a reader's plain version store, however late, disturbs neither the memory nor a block being written, whatever the reader has parsed |
| StreamingReaders.ParseStep | cache_entry.cc:166-183 | parsing a block and moving the cursor keeps: exactly the blocks before the cursor have been parsed |
| StreamingReaders.ReaderStepSane | ring_buffer.cc:43-60 | every single access of any consumer keeps the invariant of the memory, the producer and what it knows of the memory |
| StreamingReaders.ReaderStepFollows | cache_entry.cc:152-211 | every single access of a consumer that started at rest keeps: exactly the blocks before its cursor have been parsed, section by section |
| StreamingRuns.EveryState | cache_entry.cc:115-185 | for any blocks and any consumers, the memory invariant holds after every schedule: consumers read committed blocks only |
| StreamingRuns.StreamingRefinesResponse | cache_entry.cc:139-150 | after every schedule each consumer, used before or not, has added a prefix of the response's callbacks to those it had made before, and a finished one all of them and can serve again |
| StreamingExact.StreamingIff | cache_entry.cc:139-150 | in every interleaving a finished consumer has made exactly the callbacks of a well-ordered response if and only if it is storable and fits the counts and the cursor |
| StreamingSafety.Versions | ring_buffer.cc:16-60 | after every schedule, for any blocks and consumers, a slot's version is zero before its commit and odd afterwards, and then it carries the message written there |
| StreamingSafety.ReadableForEver | ring_buffer.cc:54-57 | a readable block stays readable and keeps its one message, despite lost updates and wrap-around |
| StreamingVersions.VersionsCountReads | ring_buffer.cc:43-60 | after every schedule the version of a committed block is one plus twice a number of reads modulo 2^32: at most those completed, and at least one if any was, whatever updates were lost |
| StreamingSafety.CursorInRange | cache_entry.cc:166-177 | whenever any consumer accesses a block its cursor is in a buffer that exists |
| StreamingSafety.NothingSkipped | cache_entry.cc:166-177 | read count = buffer index * capacity + block index at every moment, and exactly the blocks before the cursor have been parsed |
| StreamingSafety.NoTornRead | ring_buffer.cc:43-60 | a successful read holds exactly the size and bytes of the one write to that block |
| StreamingSafety.PublishedCountsAreExact | cache_entry.cc:22-27 | a count that shows is the number of blocks of its section modulo 2^32, all of them committed |
| StreamingSafety.PublishedCountsAreFinal | cache_entry.cc:37-41 | a published count never changes and no block is added to its section afterwards |
| StreamingSafety.PublishedSizes | cache_entry.cc:51-62 | in terms of the response: the sum over its strings of len div 64 + 1, plus one per delimiter |
| StreamingProgress.WriterAdvances | ring_buffer.cc:16-41 | the producer never waits: each of its accesses brings its end nearer |
| StreamingProgress.ReaderAdvances | cache_entry.cc:152-211 | each access of a consumer that has not yet read the blocks that are committed, or left a section whose count is published, brings it nearer to that, whether or not the producer has finished |
| StreamingProgress.EveryoneFinishes | cache_entry.cc:139-150 | under every schedule, a bounded number of producer steps completes the entry, and a bounded number of steps of a consumer, used before or not, after that gives it all callbacks; for what it does before that see StreamingKeepsUp |
| StreamingProgress.CatchesUp | cache_entry.cc:152-211 | whatever blocks are committed and counts published at some moment, a consumer has read and passed them after a bounded number of its turns, under every schedule |
| StreamingKeepsUp.CursorKeepsUp | cache_entry.cc:166-183 | if n blocks of a section are committed, a consumer's cursor is past them after a number of its turns that depends on those blocks only, also if the producer never moves again |
| StreamingKeepsUp.WhatIsThereIsHandedOn | cache_entry.cc:139-150 | once the first j header batches, chunks or trailer batches are committed, a bounded number of turns of a consumer later it has handed them downstream, while the rest is still on its way |
| OnesPattern.FilledIff | cache_entry.cc:129-137 | after any accesses of any number of constructors the static block is the end-of-stream block if and only if some constructor has filled it to the end |
| OnesPattern.FilledForGood | cache_entry.cc:132-137 | once the static block is the end-of-stream block, no further constructor changes that |
| OnesPattern.BuiltTooEarly | cache_entry.cc:132-137 | a consumer can be built while the static block is still zero |
| LruCache.HttpLruRamCache.constructor | http_lru_ram_cache.h:29-33 | an empty cache of capacity zero |
| LruCache.HttpLruRamCache.InitCacheCapacity | http_lru_ram_cache.cc:5-11 | only the first non-zero capacity is kept |
| LruCache.HttpLruRamCache.At | http_lru_ram_cache.cc:13-31 | returns the value found in the recency sequence and moves its slot to the front; map and list stay linked |
| LruCache.HttpLruRamCache.Insert | http_lru_ram_cache.cc:33-63 | replaces or adds the slot at the front and drops the last one beyond the capacity; map and list stay linked |
| LruSpec.RunIsWellFormed | http_lru_ram_cache.cc:13-63 | after every trace the keys are distinct and at most capacity many |
| LruInclusion.Inclusion | http_lru_ram_cache.cc:13-63 | for every trace and capacities C1 <= C2 the C1 list is a subsequence of the C2 list, and is shorter only when full |
| LruInclusion.HitsAreKept | http_lru_ram_cache.cc:13-31 | every hit of the smaller cache is the same hit of the larger one |
| LruResidency.RunIsFrontOfRecency | http_lru_ram_cache.cc:13-63 | the cache is the front of the unbounded recency list of what was inserted or hit |
| LruResidency.Residency | http_lru_ram_cache.cc:13-63 | a key is found exactly when it was inserted and fewer than C distinct other keys were inserted or hit since its own last insert or hit, and with the value inserted last |
| CoalescingSteps.HitIsFinished | http_cache_rc_filter.cc:42-48 | what the leader of a new group finds in the cache is a finished entry for its key |
| CoalescingSteps.SpliceKeeps | http_cache_rc_filter.cc:272-280 | handing deferred requests over to another led group keeps the whole invariant, so none is lost or duplicated |
| CoalescingSteps.StepKeeps | http_cache_rc_filter.cc:164-306 | every step of every handler keeps the protocol invariant, and changes only groups led by, and requests on, its own thread |
| CoalescingTheorems.EveryRunKeeps | http_cache_rc_filter.cc:164-306 | the invariant holds in every reachable state |
| CoalescingTheorems.DeadlockFreedom | http_cache_rc_filter.cc:209-231 | if a thread waits on the condition variable or polls an unfinished entry, the leader it waits for is another thread, is not blocked, and has a step to make |
| CoalescingTheorems.HitsAreFinished | http_cache_rc_filter.cc:42-48 | a thread that serves a cache hit is never polling a writer; that hits are served is CoalescingLookups.HitIsUsed and CoalescingAnswers.FirstIsServed |
| CoalescingTheorems.ExactlyOnePlace | http_cache_rc_filter.cc:184-207 | every admitted request is in exactly one place: carried by one handler, in its group's list, in one list of deferred requests, at the origin, served, or timed out |
| CoalescingTheorems.NoDuplicates | http_cache_rc_filter.cc:252-292 | no list holds a request twice and no request is served twice |
| CoalescingTheorems.ServedFromOwnGroup | http_cache_rc_filter.cc:209-216 | every service is from the one response of the request's own group, a finished entry for the key the request asked for; which group that is is CoalescingArrivals.JoinsAttached |
| CoalescingTheorems.CacheAgrees | http_cache_rc_filter.cc:77-82 | a cached entry that is not finished belongs to the group attached under its key |
| CoalescingTheorems.SingleFlight | http_cache_rc_filter.cc:164-180 | at most one origin request per key is in flight |
| CoalescingTheorems.LeaderTable | http_cache_rc_filter.cc:264-306 | between handlers a thread is in the leader table exactly when it leads an attached group, and is listed for exactly those groups |
| CoalescingTheorems.BeginHasAnElement | http_cache_rc_filter.cc:199-204 | wherever the first led group is used there is one, and it is attached |
| CoalescingTheorems.HitPathListsAreEmpty | http_cache_rc_filter.cc:43-54 | a group without an entry of its own has both lists empty, so the unset producer entry is never served |
| CoalescingTheorems.ListIsServedFinished | http_cache_rc_filter.cc:252-262 | when a leader serves its group's list, its producer's entry is complete and is the group's response |
| CoalescingTheorems.ResponseIsFinal | http_cache_rc_filter.cc:233-241 | a group's shared response is set at most once |
| CoalescingTheorems.OnlyTheLeaderActs | http_cache_rc_filter.cc:184-188 | no thread but the leader changes a group, its lists included, or takes it off the map |
| CoalescingTheorems.DetachedForGood | http_cache_rc_filter.cc:164-171 | a group that is off the map never comes back |
| CoalescingTheorems.DetachedByItsLeader | http_cache_rc_filter.cc:243-250 | a group leaves the map only by its leader's detach step, after its response was announced |
| CoalescingTheorems.EverythingSettles | http_cache_rc_filter.cc:117-128 | a state without further progress has every request served or timed out; which of the two is CoalescingTimeouts.TimedOutIff |
| CoalescingTheorems.CacheFollowsLru | http_cache_rc_filter.cc:42-78 | in every run the cache is the LRU cache after the lookups and insertions made so far |
| CoalescingQueues.ListsAreQueues | http_cache_rc_filter.cc:187-203 | requests join both lists at the end and leave at the front; a hand-over appends the whole list in order |
| CoalescingHistory.RequestsAsArrived | http_cache_rc_filter.cc:17-31 | in every run a request keeps the thread it came in on and the key it asked for |
| CoalescingHistory.CachedWereCacheable | http_cache_rc_filter.cc:77-80 | only entries whose origin answered with a cacheable status are ever in the cache |
| CoalescingHistory.CacheableAreInserted | http_cache_rc_filter.cc:77-82 | a cacheable response has been inserted under its group's key by the time it is announced |
| CoalescingLookups.OriginAfterMiss | http_cache_rc_filter.cc:41-62 | in every run a request is at the origin, or an entry made for it, only if the LRU cache held nothing for its key when it was looked up |
| CoalescingLookups.MissGoesToOrigin | http_cache_rc_filter.cc:58-62 | a lookup that misses makes the entry, and that is the only response the group can have |
| CoalescingLookups.HitIsUsed | http_cache_rc_filter.cc:41-54 | a lookup that hits starts no origin request and makes no entry: what was found is the only response the group can have, announced or about to be |
| CoalescingLookups.ResponseIsOwnOrFound | http_cache_rc_filter.cc:41-54 | every response of a group is its own entry, after a lookup that missed, or the entry that its lookup found |
| CoalescingArrivals.ArrivalsAreTaken | http_cache_rc_filter.cc:164-193 | an idle thread can take in any new request under any key |
| CoalescingArrivals.JoinsAttached | http_cache_rc_filter.cc:164-193 | an arriving request is put in the group attached under its key, or, if there is none, in a new group that is attached with its thread as leader |
| CoalescingArrivals.GroupAsJoined | http_cache_rc_filter.cc:164-193 | in every run a request stays in the group that was attached under its key when it arrived |
| CoalescingArrivals.NeverAStaleGroup | http_cache_rc_filter.cc:243-250 | a group that was off the map when a request arrived is never the group of that request |
| CoalescingArrivals.ServedFromAttached | http_cache_rc_filter.cc:164-216 | in every run a served request was given the response of the group attached under its key when it arrived: that group's own, or the entry the LRU cache held when its first request was looked up |
| CoalescingAnswers.AnswersAreTaken | http_cache_rc_filter.cc:64-88 | an idle leader in flight can take a first answer, cacheable or not, exactly if it has announced none, and the end of the response exactly if it has |
| CoalescingAnswers.FirstAnswerIsAnnounced | http_cache_rc_filter.cc:68-83 | whatever its status, the first answer has been announced by the time its handler returns, and has been inserted in the cache exactly if it is cacheable |
| CoalescingAnswers.WaiterGoesOn | http_cache_rc_filter.cc:223-231 | a waiting thread can go on exactly if its request has been answered, and its time can run out at any moment |
| CoalescingAnswers.AnnouncedIsServed | http_cache_rc_filter.cc:209-231 | from the announcement on, the thread of a waiting request does nothing but serve it from the announced entry, finished or not, and is not blocked until it reads it |
| CoalescingAnswers.FirstIsServed | http_cache_rc_filter.cc:41-62 | a run that can go no further has served the first request of every group: from the entry its lookup found, or with the origin's answer if it found none |
| CoalescingProgress.StepDecreases | http_cache_rc_filter.cc:64-128 | every step but the arrival of a request lowers a bound on the steps left |
| CoalescingProgress.RunsAreFinite | http_cache_rc_filter.cc:17-128 | without arrivals a run is no longer than the bound at its start |
| CoalescingTimeouts.TimedOutIff | http_cache_rc_filter.cc:209-231 | in every run a request has timed out if and only if its time was up while its group had no response, and there was none either when it looked for it afterwards |
| CoalescingTimeouts.SettledForGood | http_cache_rc_filter.cc:209-221 | a request that has been served or has timed out never changes again |
| CoalescingTimeouts.EveryoneIsServed | http_cache_rc_filter.cc:209-294 | a run, with timeouts or without, that can go no further has served every request whose group's response was announced before its time was up, once, from that response |
| EndToEnd.ServedByConsumer | http_cache_rc_filter.cc:42-54 | a request is served by some filter's consumer exactly if it did not create the entry it is served from |
| EndToEnd.ConsumerIsRight | http_cache_rc_filter.cc:252-292 | the consumer is one of the serving thread's own: the leader's for its list, the attending filter's for deferred requests, otherwise that of the request's own filter |
| EndToEnd.OriginReceives | http_cache_rc_filter.cc:85-115 | the stream of the request that went to the origin gets every encoder call, in order, with its flag |
| EndToEnd.SameResponse | http_cache_rc_filter.cc:85-115 | that is what everybody else gets from the entry, but for the one empty trailer map that consumers add after trailers |
| EndToEnd.ServedReceive | http_cache_rc_filter.cc:252-292 | in every run of the protocol, with fair streaming runs of its entries, each request served has received exactly the response of its own group, whatever its consumer had served before; the request that went to the origin the encoder calls themselves |
| EndToEnd.EveryoneReceives | http_cache_rc_filter.cc:209-294 | a run that can go no further has given every request whose group's response was announced before its time was up the whole response of its own group |
| EndToEndRuns.WorldExists | http_cache_rc_filter.cc:252-292 | every run of the protocol with any answers of the origin has such streaming runs, fair to all |

## Left out

- EncoderCallbacks.EncodingFilter.EncodeHeaders: the recording half of the callback; its status check, cache insertion and announcement are steps of Coalescing (FirstHeaders, InsertEntry, Notify).
- CacheEntryReading.CacheEntryConsumer.ServeHeaders: finished sections only; polling one that is still being written is in Streaming.ReaderStep, and what comes of it in StreamingExact.StreamingIff and StreamingRuns.StreamingRefinesResponse.
- CacheEntryReading.CacheEntryConsumer.ServeData: finished sections only, as for ServeHeaders.
- CacheEntryReading.CacheEntryConsumer.ServeTrailers: finished sections on which the loop ends, because a method that polls for ever has no contract; FinishedEntry.TrailersIff and TrailerLoop.TooLong say when it does not end rightly.
- CacheEntryReading.CacheEntryConsumer.ServeCachedResponse: finished entries on which serving ends, as for ServeTrailers; RoundTrip.RoundTripIff says for which responses that is.
- CacheEntryReading.CacheEntryConsumer.Advance: the busy-wait for the next buffer is modelled where it does not wait; the waiting itself is in Streaming.ReaderStep.
- EncoderCallbacks.EncodingFilter.EncodeData: headers and data after trailers, which the order of the encoder calls rules out.
- StreamingExact.StreamingIff: responses with data before any trailers; one with trailers and no data is recorded in another order and is covered, for the finished entry, by RoundTrip.RoundTripIff.
- StreamingProgress.EveryoneFinishes: storable responses that fit; on others a consumer may poll for ever.
- The static end-of-stream block in the streaming modules: taken as filled before anybody compares with it; OnesPattern says when it is.
- Weak memory: sequential consistency is assumed; the acquire and release orders of the C++ atomics are not modelled.
- The gaps between the shared and the unique lock inside `at` and `insert`: each is one atomic step.
- Time: the five-second timeout is an explicit action that may happen at any moment of a wait, not a clock.
- Malformed status codes and stream resets: excluded, so an origin request always ends with encodeHeaders and encodeComplete.
- The contents of the cache key, and lower-casing and merging of header fields: keys are opaque, names are taken as lower case.
- The buffer a reader holds is an index into the vector instead of a shared pointer; buffers are never removed from it.
- The mutexes that guard the buffer vectors: taking an element and reading the size are single steps.
- Filter registration, configuration, logging and the integration programs: no state of interest.
