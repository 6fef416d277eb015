/**
 The block format of a cache entry, on values: how strings, header maps and
 chunks become blocks, and the parser state machine that reads them back.
 The classes of CacheEntryWriting.dfy and CacheEntryReading.dfy and the step machine of Streaming.dfy are all
 stated in terms of this module.
 */
module BlockCodec {
  import opened Blocks

  /* ---------- writing ---------- */

  datatype Field = Field(name: Bytes, value: Bytes)

  type FieldMap = seq<Field>

  // A response as the encoder callbacks deliver it: header batches, chunks, trailer batches.
  datatype Response = Response(headers: seq<FieldMap>, chunks: seq<Bytes>, trailers: seq<FieldMap>)

  datatype Section = HeadersSection | DataSection | TrailersSection

  // A string in blocks: full ones, then one short (possibly empty) remainder.
  function StringBlocks(s: Bytes): seq<Message> {
    if |s| < BLOCK_SIZE then [s] else [s[..BLOCK_SIZE]] + StringBlocks(s[BLOCK_SIZE..])
  }

  // The part of a string that reaches the buffers: the 32-bit write offset wraps
  // to zero at 2^32 bytes, and the writer takes that for the end of the string.
  function Stored(s: Bytes): Bytes {
    if |s| <= UINT32_LIMIT then s else s[..UINT32_LIMIT]
  }

  function FieldBlocks(f: Field): seq<Message> {
    StringBlocks(Stored(f.name)) + StringBlocks(Stored(f.value))
  }

  function MapBlocks(fields: FieldMap): seq<Message> {
    if fields == [] then [] else MapBlocks(Front(fields)) + FieldBlocks(Last(fields))
  }

  function Delimiter(end: bool): Message {
    if end then Ones() else []
  }

  function BatchBlocks(fields: FieldMap, end: bool): seq<Message> {
    MapBlocks(fields) + [Delimiter(end)]
  }

  // Header or trailer batches; `end` marks the delimiter of the last one.
  function BatchesBlocks(batches: seq<FieldMap>, end: bool): seq<Message> {
    if batches == [] then []
    else BatchesBlocks(Front(batches), false) + BatchBlocks(Last(batches), end)
  }

  function ChunkBlocks(chunk: Bytes, end: bool): seq<Message> {
    StringBlocks(Stored(chunk)) + [Delimiter(end)]
  }

  function ChunksBlocks(chunks: seq<Bytes>, end: bool): seq<Message> {
    if chunks == [] then []
    else ChunksBlocks(Front(chunks), false) + ChunkBlocks(Last(chunks), end)
  }

  // What the three buffer vectors of a fully written entry hold. Trailers are
  // closed by one more end-of-stream block, written when the encoding completes.
  function SectionBlocks(r: Response, section: Section): seq<Message> {
    match section
    case HeadersSection => BatchesBlocks(r.headers, r.chunks == [] && r.trailers == [])
    case DataSection => ChunksBlocks(r.chunks, r.trailers == [])
    case TrailersSection => if r.trailers == [] then [] else BatchesBlocks(r.trailers, false) + [Ones()]
  }

  /* ---------- parsing ---------- */

  datatype Event =
    | EncodeHeaders(fields: FieldMap, end: bool)
    | EncodeData(data: Bytes, end: bool)
    | EncodeTrailers(fields: FieldMap)

  // The fields of the consumer that its three parsers share, with the callbacks
  // made so far. `fields` is the header (or trailer) map being filled.
  datatype Parser = Parser(
    keyLength: nat, keyReadDone: bool, str: Bytes, fields: FieldMap,
    data: Bytes, batchComplete: bool, endStream: bool, events: seq<Event>)
  {
    ghost predicate Valid() {
      keyLength <= |str|
    }

    // Between batches: nothing half read.
    predicate AtRest() {
      keyLength == 0 && !keyReadDone && str == [] && fields == [] && data == [] && !batchComplete
    }

    function Emit(e: Event): Parser {
      this.(events := events + [e])
    }

    function AddField(): (p: Parser)
      requires Valid()
      ensures p.Valid()
    {
      this.(fields := fields + [Field(str[..keyLength], str[keyLength..])],
            str := [], keyLength := 0, keyReadDone := false)
    }
  }

  const START := Parser(0, false, [], [], [], false, false, [])

  // One block seen by the header parser, or by its copy for trailers.
  function ParseField(p: Parser, m: Message, trailers: bool): (q: Parser)
    requires p.Valid()
    ensures q.Valid()
  {
    if |m| > 0 then
      if p.keyLength == 0 && |m| == BLOCK_SIZE && m == Ones() then
        p.(fields := [], endStream := true)
         .Emit(if trailers then EncodeTrailers(p.fields) else EncodeHeaders(p.fields, true))
      else
        var q := p.(str := p.str + m);
        if !p.keyReadDone then q.(keyLength := Wrap(p.keyLength + |m|), keyReadDone := |m| < BLOCK_SIZE)
        else if |m| < BLOCK_SIZE then q.AddField()
        else q
    else if p.keyLength == 0 then
      p.(fields := []).Emit(if trailers then EncodeTrailers(p.fields) else EncodeHeaders(p.fields, false))
    else if !p.keyReadDone then p.(keyReadDone := true)
    else p.AddField()
  }

  // One block seen by the data parser; the callback takes the accumulated bytes away.
  function ParseData(p: Parser, m: Message): (q: Parser)
    requires p.Valid()
    ensures q.Valid()
  {
    if |m| > 0 then
      if p.batchComplete && |m| == BLOCK_SIZE && m == Ones() then
        p.(data := [], endStream := true, batchComplete := false).Emit(EncodeData(p.data, true))
      else
        p.(data := p.data + m, batchComplete := p.batchComplete || |m| < BLOCK_SIZE)
    else if !p.batchComplete then p.(batchComplete := true)
    else p.(data := [], batchComplete := false).Emit(EncodeData(p.data, false))
  }

  function Step(section: Section, p: Parser, m: Message): (q: Parser)
    requires p.Valid()
    ensures q.Valid()
  {
    match section
    case HeadersSection => ParseField(p, m, false)
    case DataSection => ParseData(p, m)
    case TrailersSection => ParseField(p, m, true)
  }

  // The parser after a sequence of blocks.
  function Run(section: Section, p: Parser, ms: seq<Message>): (q: Parser)
    requires p.Valid()
    ensures q.Valid()
  {
    if ms == [] then p else Step(section, Run(section, p, Front(ms)), Last(ms))
  }

  // What a consumer in state p does with a whole entry: headers, then data and
  // trailers unless the stream has ended. Header and trailer maps start fresh.
  function RunResponse(p: Parser, r: Response): (q: Parser)
    requires p.Valid()
    ensures q.Valid()
  {
    var h := Run(HeadersSection, p.(fields := [], endStream := false), SectionBlocks(r, HeadersSection));
    if h.endStream then h else
    var d := Run(DataSection, h, SectionBlocks(r, DataSection));
    if d.endStream then d else Run(TrailersSection, d.(fields := []), SectionBlocks(r, TrailersSection))
  }

  /* ---------- what a consumer has to emit ---------- */

  function HeaderEvents(batches: seq<FieldMap>, end: bool): seq<Event> {
    seq(|batches|, i requires 0 <= i < |batches| => EncodeHeaders(batches[i], end && i == |batches| - 1))
  }

  function DataEvents(chunks: seq<Bytes>, end: bool): seq<Event> {
    seq(|chunks|, i requires 0 <= i < |chunks| => EncodeData(chunks[i], end && i == |chunks| - 1))
  }

  function TrailerEvents(batches: seq<FieldMap>): seq<Event> {
    seq(|batches|, i requires 0 <= i < |batches| => EncodeTrailers(batches[i]))
  }

  // The encoder calls of a response, plus the one empty trailer map that the
  // trailers parser adds when it meets the end of the stream.
  function ResponseEvents(r: Response): seq<Event> {
    HeaderEvents(r.headers, r.chunks == [] && r.trailers == [])
    + DataEvents(r.chunks, r.trailers == [])
    + (if r.trailers == [] then [] else TrailerEvents(r.trailers) + [EncodeTrailers([])])
  }

  function EventFields(e: Event): FieldMap {
    match e
    case EncodeHeaders(f, _) => f
    case EncodeData(_, _) => []
    case EncodeTrailers(f) => f
  }

  // A name the parser can tell from a delimiter and whose length it can count.
  predicate GoodName(name: Bytes) {
    && 0 < |name| < UINT32_LIMIT
    && !(|name| >= BLOCK_SIZE && name[..BLOCK_SIZE] == Ones())
  }

  predicate GoodField(f: Field) {
    GoodName(f.name) && |f.value| <= UINT32_LIMIT
  }

  predicate GoodBatches(batches: seq<FieldMap>) {
    forall b, f :: b in batches && f in b ==> GoodField(f)
  }

  predicate GoodChunks(chunks: seq<Bytes>) {
    forall c :: c in chunks ==> |c| <= UINT32_LIMIT
  }

  // Order of the encoder calls: headers first, data before any trailers.
  predicate WellOrdered(r: Response) {
    r.headers != [] && (r.trailers != [] ==> r.chunks != [])
  }
}
