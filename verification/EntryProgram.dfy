/** The memory operations that recording one response performs, in order. */
module EntryProgram {
  import opened Blocks
  import opened BlockCodec
  import opened BlockCodecProofs

  datatype Op =
    | Push(section: Section, message: Message)
    | PublishHeaders(count: nat)
    | PublishData(count: nat)

  // Encoder calls as the filter passes them to the producer.
  datatype Call =
    | CallHeaders(fields: FieldMap, end: bool)
    | CallData(chunk: Bytes, end: bool)
    | CallTrailers(fields: FieldMap)
    | CallComplete

  function Pushes(section: Section, ms: seq<Message>): seq<Op> {
    seq(|ms|, i requires 0 <= i < |ms| => Push(section, ms[i]))
  }

  // Flags of the filter and the running block count of the producer.
  datatype Recorder = Recorder(firstData: bool, firstTrailers: bool, count: nat, ops: seq<Op>)

  const NEW_RECORDER := Recorder(true, true, 0, [])

  function Write(r: Recorder, section: Section, ms: seq<Message>): Recorder {
    r.(count := Wrap(r.count + |ms|), ops := r.ops + Pushes(section, ms))
  }

  function Record(r: Recorder, c: Call): Recorder {
    match c
    case CallHeaders(fields, end) => Write(r, HeadersSection, BatchBlocks(fields, end))
    case CallData(chunk, end) =>
      var r' := if r.firstData
                then r.(firstData := false, count := 0, ops := r.ops + [PublishHeaders(r.count)]) else r;
      Write(r', DataSection, ChunkBlocks(chunk, end))
    case CallTrailers(fields) =>
      var r' := if r.firstTrailers
                then r.(firstTrailers := false, ops := r.ops + [PublishData(r.count)]) else r;
      Write(r', TrailersSection, BatchBlocks(fields, false))
    case CallComplete =>
      if r.firstData then r.(ops := r.ops + [PublishHeaders(r.count)])
      else if r.firstTrailers then r.(ops := r.ops + [PublishData(r.count)])
      else Write(r, TrailersSection, [Ones()])
  }

  function RecordAll(r: Recorder, cs: seq<Call>): Recorder {
    if cs == [] then r else Record(RecordAll(r, Front(cs)), Last(cs))
  }

  function HeaderCalls(batches: seq<FieldMap>, end: bool): seq<Call> {
    seq(|batches|, i requires 0 <= i < |batches| => CallHeaders(batches[i], end && i == |batches| - 1))
  }

  function DataCalls(chunks: seq<Bytes>, end: bool): seq<Call> {
    seq(|chunks|, i requires 0 <= i < |chunks| => CallData(chunks[i], end && i == |chunks| - 1))
  }

  function TrailerCalls(batches: seq<FieldMap>): seq<Call> {
    seq(|batches|, i requires 0 <= i < |batches| => CallTrailers(batches[i]))
  }

  function ResponseCalls(r: Response): seq<Call> {
    HeaderCalls(r.headers, r.chunks == [] && r.trailers == [])
    + DataCalls(r.chunks, r.trailers == []) + TrailerCalls(r.trailers) + [CallComplete]
  }

  // The three sections of an entry, as blocks.
  datatype Sections = Sections(headers: seq<Message>, hasData: bool, data: seq<Message>, trailers: seq<Message>)
  {
    ghost predicate Valid() {
      !hasData ==> data == [] && trailers == []
    }

    function Of(section: Section): seq<Message> {
      match section
      case HeadersSection => headers
      case DataSection => data
      case TrailersSection => trailers
    }
  }

  function SectionsOf(r: Response): Sections {
    Sections(SectionBlocks(r, HeadersSection), r.chunks != [],
             SectionBlocks(r, DataSection), SectionBlocks(r, TrailersSection))
  }

  // All headers, their count, all data, its count, all trailers: no section is
  // counted before it is whole or written to once it has been counted.
  function ProgramOf(s: Sections): seq<Op> {
    Pushes(HeadersSection, s.headers) + [PublishHeaders(Wrap(|s.headers|))]
    + if !s.hasData then [] else
        Pushes(DataSection, s.data) + [PublishData(Wrap(|s.data|))] + Pushes(TrailersSection, s.trailers)
  }

  function Program(r: Response): seq<Op> {
    ProgramOf(SectionsOf(r))
  }

  // The counted sections fit the 32-bit counters.
  predicate Countable(r: Response) {
    |SectionBlocks(r, HeadersSection)| <= UINT32_MAX && |SectionBlocks(r, DataSection)| <= UINT32_MAX
  }

  // The blocks that a stretch of operations adds to one section.
  function PushedTo(section: Section, ops: seq<Op>): seq<Message> {
    if ops == [] then []
    else PushedTo(section, Front(ops))
         + if Last(ops).Push? && Last(ops).section == section then [Last(ops).message] else []
  }

  // The count a section shows after a stretch of operations.
  function HeadersCount(ops: seq<Op>): nat {
    if ops == [] then UINT32_MAX
    else if Last(ops).PublishHeaders? then Last(ops).count else HeadersCount(Front(ops))
  }

  function DataCount(ops: seq<Op>): nat {
    if ops == [] then UINT32_MAX
    else if Last(ops).PublishData? then Last(ops).count else DataCount(Front(ops))
  }

  lemma PushEffect(ops: seq<Op>, section: Section, m: Message, other: Section)
    ensures HeadersCount(ops + [Push(section, m)]) == HeadersCount(ops)
    ensures DataCount(ops + [Push(section, m)]) == DataCount(ops)
    ensures PushedTo(other, ops + [Push(section, m)]) == PushedTo(other, ops) + if other == section then [m] else []
  {
    assert Front(ops + [Push(section, m)]) == ops;
  }

  lemma PushesSnoc(ops: seq<Op>, section: Section, ms: seq<Message>)
    requires ms != []
    ensures ops + Pushes(section, ms) == ops + Pushes(section, Front(ms)) + [Push(section, Last(ms))]
  {
  }

  lemma {:induction false} PushesEffectOn(ops: seq<Op>, section: Section, ms: seq<Message>, other: Section)
    ensures HeadersCount(ops + Pushes(section, ms)) == HeadersCount(ops)
    ensures DataCount(ops + Pushes(section, ms)) == DataCount(ops)
    ensures PushedTo(other, ops + Pushes(section, ms)) == PushedTo(other, ops) + if other == section then ms else []
  {
    if ms == [] {
      assert ops + Pushes(section, ms) == ops;
      assert PushedTo(other, ops) + [] == PushedTo(other, ops);
    } else {
      PushesEffectOn(ops, section, Front(ms), other);
      PushesSnoc(ops, section, ms);
      PushEffect(ops + Pushes(section, Front(ms)), section, Last(ms), other);
      Snoc(PushedTo(other, ops), ms);
    }
  }

  lemma PushesEffect(ops: seq<Op>, section: Section, ms: seq<Message>)
    ensures var ops' := ops + Pushes(section, ms);
            && HeadersCount(ops') == HeadersCount(ops) && DataCount(ops') == DataCount(ops)
            && PushedTo(section, ops') == PushedTo(section, ops) + ms
            && (forall other | other != section :: PushedTo(other, ops') == PushedTo(other, ops))
  {
    PushesEffectOn(ops, section, ms, section);
    forall other | other != section ensures PushedTo(other, ops + Pushes(section, ms)) == PushedTo(other, ops) {
      PushesEffectOn(ops, section, ms, other);
    }
  }

  lemma PublishEffect(ops: seq<Op>, op: Op)
    requires !op.Push?
    ensures PushedTo(HeadersSection, ops + [op]) == PushedTo(HeadersSection, ops)
    ensures PushedTo(DataSection, ops + [op]) == PushedTo(DataSection, ops)
    ensures PushedTo(TrailersSection, ops + [op]) == PushedTo(TrailersSection, ops)
    ensures HeadersCount(ops + [op]) == (if op.PublishHeaders? then op.count else HeadersCount(ops))
    ensures DataCount(ops + [op]) == (if op.PublishData? then op.count else DataCount(ops))
  {
    assert Front(ops + [op]) == ops;
  }

  /* ---------- recording a response yields its program ---------- */

  lemma PushesConcat(section: Section, a: seq<Message>, b: seq<Message>)
    ensures Pushes(section, a + b) == Pushes(section, a) + Pushes(section, b)
  {
  }

  lemma WriteTwice(r: Recorder, section: Section, a: seq<Message>, b: seq<Message>)
    ensures Write(Write(r, section, a), section, b) == Write(r, section, a + b)
  {
    PushesConcat(section, a, b);
    assert r.ops + Pushes(section, a) + Pushes(section, b) == r.ops + (Pushes(section, a) + Pushes(section, b));
  }

  lemma {:induction false} RecordConcat(r: Recorder, a: seq<Call>, b: seq<Call>)
    ensures RecordAll(r, a + b) == RecordAll(RecordAll(r, a), b)
  {
    if b == [] {
      assert a + b == a;
    } else {
      assert Front(a + b) == a + Front(b);
      RecordConcat(r, a, Front(b));
    }
  }

  lemma WriteNothing(r: Recorder, section: Section)
    requires r.count < UINT32_LIMIT
    ensures Write(r, section, []) == r
  {
    assert r.ops + Pushes(section, []) == r.ops;
  }

  lemma {:induction false} RecordHeaders(r: Recorder, batches: seq<FieldMap>, end: bool)
    requires r.count < UINT32_LIMIT
    ensures RecordAll(r, HeaderCalls(batches, end)) == Write(r, HeadersSection, BatchesBlocks(batches, end))
  {
    if batches == [] {
      WriteNothing(r, HeadersSection);
    } else {
      var front, b := Front(batches), Last(batches);
      assert Front(HeaderCalls(batches, end)) == HeaderCalls(front, false);
      RecordHeaders(r, front, false);
      WriteTwice(r, HeadersSection, BatchesBlocks(front, false), BatchBlocks(b, end));
    }
  }

  function HeadersClosed(r: Recorder): Recorder {
    r.(firstData := false, count := 0, ops := r.ops + [PublishHeaders(r.count)])
  }

  lemma {:induction false} RecordData(r: Recorder, chunks: seq<Bytes>, end: bool)
    requires r.firstData && chunks != []
    ensures RecordAll(r, DataCalls(chunks, end)) == Write(HeadersClosed(r), DataSection, ChunksBlocks(chunks, end))
  {
    var front, c := Front(chunks), Last(chunks);
    assert Front(DataCalls(chunks, end)) == DataCalls(front, false);
    if front == [] {
      assert DataCalls(front, false) == [];
      assert ChunksBlocks(front, false) + ChunkBlocks(c, end) == ChunkBlocks(c, end);
    } else {
      RecordData(r, front, false);
      WriteTwice(HeadersClosed(r), DataSection, ChunksBlocks(front, false), ChunkBlocks(c, end));
    }
  }

  function DataClosed(r: Recorder): Recorder {
    r.(firstTrailers := false, ops := r.ops + [PublishData(r.count)])
  }

  lemma {:induction false} RecordTrailers(r: Recorder, batches: seq<FieldMap>)
    requires r.firstTrailers && batches != []
    ensures RecordAll(r, TrailerCalls(batches)) == Write(DataClosed(r), TrailersSection, BatchesBlocks(batches, false))
  {
    var front, b := Front(batches), Last(batches);
    assert Front(TrailerCalls(batches)) == TrailerCalls(front);
    if front == [] {
      assert TrailerCalls(front) == [];
      assert BatchesBlocks(front, false) + BatchBlocks(b, false) == BatchBlocks(b, false);
    } else {
      RecordTrailers(r, front);
      WriteTwice(DataClosed(r), TrailersSection, BatchesBlocks(front, false), BatchBlocks(b, false));
    }
  }

  lemma RecordOne(r: Recorder, c: Call)
    ensures RecordAll(r, [c]) == Record(r, c)
  {
    assert Front([c]) == [];
  }

  // The recorder once all header calls have been made.
  function HeadersRecorded(r: Response): Recorder {
    Write(NEW_RECORDER, HeadersSection, SectionBlocks(r, HeadersSection))
  }

  function DataRecorded(r: Response): Recorder {
    Write(HeadersClosed(HeadersRecorded(r)), DataSection, SectionBlocks(r, DataSection))
  }

  lemma RecordedOps(r: Response)
    ensures HeadersRecorded(r).ops == Pushes(HeadersSection, SectionBlocks(r, HeadersSection))
    ensures DataRecorded(r).ops
         == Pushes(HeadersSection, SectionBlocks(r, HeadersSection))
            + [PublishHeaders(Wrap(|SectionBlocks(r, HeadersSection)|))]
            + Pushes(DataSection, SectionBlocks(r, DataSection))
  {
  }

  lemma RecordTail(r: Response)
    requires WellOrdered(r) && r.chunks != []
    ensures RecordAll(DataRecorded(r), TrailerCalls(r.trailers) + [CallComplete]).ops
         == DataRecorded(r).ops + [PublishData(Wrap(|SectionBlocks(r, DataSection)|))]
            + Pushes(TrailersSection, SectionBlocks(r, TrailersSection))
  {
    var r2 := DataRecorded(r);
    RecordConcat(r2, TrailerCalls(r.trailers), [CallComplete]);
    if r.trailers == [] {
      RecordOne(r2, CallComplete);
      assert TrailerCalls(r.trailers) == [];
      assert r2.ops + [PublishData(r2.count)] + Pushes(TrailersSection, []) == r2.ops + [PublishData(r2.count)];
    } else {
      var blocks := BatchesBlocks(r.trailers, false);
      RecordTrailers(r2, r.trailers);
      RecordOne(Write(DataClosed(r2), TrailersSection, blocks), CallComplete);
      WriteTwice(DataClosed(r2), TrailersSection, blocks, [Ones()]);
    }
  }

  lemma ProgramShape(a: seq<Op>, x: Op, b: seq<Op>, y: Op, c: seq<Op>)
    ensures a + [x] + b + [y] + c == a + [x] + (b + [y] + c)
  {
  }

  // The calls after those of the headers.
  function LaterCalls(r: Response): seq<Call> {
    DataCalls(r.chunks, r.trailers == []) + (TrailerCalls(r.trailers) + [CallComplete])
  }

  lemma RecordLater(r: Response)
    ensures RecordAll(NEW_RECORDER, ResponseCalls(r)) == RecordAll(HeadersRecorded(r), LaterCalls(r))
  {
    var hs := HeaderCalls(r.headers, r.chunks == [] && r.trailers == []);
    assert ResponseCalls(r) == hs + LaterCalls(r);
    RecordConcat(NEW_RECORDER, hs, LaterCalls(r));
    RecordHeaders(NEW_RECORDER, r.headers, r.chunks == [] && r.trailers == []);
  }

  lemma RecordNoMore(r: Response)
    requires r.chunks == [] && r.trailers == []
    ensures RecordAll(HeadersRecorded(r), LaterCalls(r)).ops == Program(r)
  {
    assert LaterCalls(r) == [CallComplete];
    RecordOne(HeadersRecorded(r), CallComplete);
    RecordedOps(r);
    var ops := HeadersRecorded(r).ops + [PublishHeaders(Wrap(|SectionBlocks(r, HeadersSection)|))];
    assert ops + [] == ops;
  }

  lemma RecordMore(r: Response)
    requires WellOrdered(r) && r.chunks != []
    ensures RecordAll(HeadersRecorded(r), LaterCalls(r)).ops == Program(r)
  {
    RecordConcat(HeadersRecorded(r), DataCalls(r.chunks, r.trailers == []), TrailerCalls(r.trailers) + [CallComplete]);
    RecordData(HeadersRecorded(r), r.chunks, r.trailers == []);
    RecordTail(r);
    RecordedOps(r);
    var h, d, t := SectionBlocks(r, HeadersSection), SectionBlocks(r, DataSection), SectionBlocks(r, TrailersSection);
    ProgramShape(Pushes(HeadersSection, h), PublishHeaders(Wrap(|h|)), Pushes(DataSection, d),
                 PublishData(Wrap(|d|)), Pushes(TrailersSection, t));
  }

  // The order of the encoder calls makes the producer perform exactly this program.
  lemma RecordResponse(r: Response)
    requires WellOrdered(r)
    ensures RecordAll(NEW_RECORDER, ResponseCalls(r)).ops == Program(r)
  {
    RecordLater(r);
    if r.chunks == [] {
      RecordNoMore(r);
    } else {
      RecordMore(r);
    }
  }

  /* ---------- trailers without data ---------- */

  // The operations of a response with trailers but no data: the first trailers publish the number
  // of header blocks as the data count, and the end of the encoding publishes the number of
  // header and trailer blocks as the headers count, in the place of an end-of-stream block.
  function DatalessProgram(r: Response): seq<Op> {
    var hs, ts := SectionBlocks(r, HeadersSection), BatchesBlocks(r.trailers, false);
    Pushes(HeadersSection, hs) + [PublishData(Wrap(|hs|))] + Pushes(TrailersSection, ts)
    + [PublishHeaders(Wrap(|hs| + |ts|))]
  }

  lemma DatalessTail(r1: Recorder, trailers: seq<FieldMap>)
    requires r1.firstData && r1.firstTrailers && trailers != []
    ensures RecordAll(r1, TrailerCalls(trailers) + [CallComplete]).ops
         == r1.ops + [PublishData(r1.count)] + Pushes(TrailersSection, BatchesBlocks(trailers, false))
            + [PublishHeaders(Wrap(r1.count + |BatchesBlocks(trailers, false)|))]
  {
    RecordConcat(r1, TrailerCalls(trailers), [CallComplete]);
    RecordTrailers(r1, trailers);
    RecordOne(Write(DataClosed(r1), TrailersSection, BatchesBlocks(trailers, false)), CallComplete);
  }

  lemma HeadersRecordedIs(r: Response)
    ensures var r1, hs := HeadersRecorded(r), SectionBlocks(r, HeadersSection);
            r1.firstData && r1.firstTrailers && r1.count == Wrap(|hs|) && r1.ops == Pushes(HeadersSection, hs)
  {
    RecordedOps(r);
  }

  lemma DatalessLater(r: Response)
    requires r.chunks == []
    ensures LaterCalls(r) == TrailerCalls(r.trailers) + [CallComplete]
  {
    assert DataCalls(r.chunks, r.trailers == []) == [];
  }

  lemma DatalessFrom(r: Response, r1: Recorder)
    requires r.trailers != [] && r1.firstData && r1.firstTrailers
    requires r1.count == Wrap(|SectionBlocks(r, HeadersSection)|)
    requires r1.ops == Pushes(HeadersSection, SectionBlocks(r, HeadersSection))
    ensures RecordAll(r1, TrailerCalls(r.trailers) + [CallComplete]).ops == DatalessProgram(r)
  {
    DatalessTail(r1, r.trailers);
    WrapAdd(|SectionBlocks(r, HeadersSection)|, |BatchesBlocks(r.trailers, false)|);
  }

  lemma RecordDataless(r: Response)
    requires r.chunks == [] && r.trailers != []
    ensures RecordAll(NEW_RECORDER, ResponseCalls(r)).ops == DatalessProgram(r)
  {
    RecordLater(r);
    DatalessLater(r);
    HeadersRecordedIs(r);
    DatalessFrom(r, HeadersRecorded(r));
  }

  lemma DatalessEffect(hs: seq<Message>, ts: seq<Message>, n: nat, m: nat)
    ensures var ops := Pushes(HeadersSection, hs) + [PublishData(n)]
                       + Pushes(TrailersSection, ts) + [PublishHeaders(m)];
            && PushedTo(HeadersSection, ops) == hs && PushedTo(DataSection, ops) == []
            && PushedTo(TrailersSection, ops) == ts && HeadersCount(ops) == m && DataCount(ops) == n
  {
    var none: seq<Op> := [];
    var ops1 := Pushes(HeadersSection, hs);
    var ops2 := ops1 + [PublishData(n)];
    assert none + ops1 == ops1;
    PushesEffect(none, HeadersSection, hs);
    PublishEffect(ops1, PublishData(n));
    PushesEffect(ops2, TrailersSection, ts);
    PublishEffect(ops2 + Pushes(TrailersSection, ts), PublishHeaders(m));
  }

  lemma DatalessContents(r: Response)
    ensures var ops := DatalessProgram(r);
            var hs, ts := SectionBlocks(r, HeadersSection), BatchesBlocks(r.trailers, false);
            && PushedTo(HeadersSection, ops) == hs && PushedTo(DataSection, ops) == []
            && PushedTo(TrailersSection, ops) == ts
            && HeadersCount(ops) == Wrap(|hs| + |ts|) && DataCount(ops) == Wrap(|hs|)
  {
    var hs, ts := SectionBlocks(r, HeadersSection), BatchesBlocks(r.trailers, false);
    DatalessEffect(hs, ts, Wrap(|hs|), Wrap(|hs| + |ts|));
  }

  /* ---------- what a prefix of the program has done ---------- */

  function Clamp(i: int, n: nat): nat {
    if i < 0 then 0 else if i < n then i else n
  }

  // Blocks of a section written by the first i operations of the program.
  function Written(s: Sections, section: Section, i: nat): nat {
    match section
    case HeadersSection => Clamp(i, |s.headers|)
    case DataSection => Clamp(i - |s.headers| - 1, |s.data|)
    case TrailersSection => Clamp(i - |s.headers| - |s.data| - 2, |s.trailers|)
  }

  lemma ProgramAt(s: Sections, i: nat)
    requires s.Valid()
    ensures var h, d := |s.headers|, |s.data|;
            && |ProgramOf(s)| == (if s.hasData then h + d + |s.trailers| + 2 else h + 1)
            && (i < |ProgramOf(s)| ==>
                  ProgramOf(s)[i] ==
                    if i < h then Push(HeadersSection, s.headers[i])
                    else if i == h then PublishHeaders(Wrap(h))
                    else if i < h + 1 + d then Push(DataSection, s.data[i - h - 1])
                    else if i == h + 1 + d then PublishData(Wrap(d))
                    else Push(TrailersSection, s.trailers[i - h - d - 2]))
  {
  }

  // Performing operation i adds one block to the section it pushes to.
  lemma WrittenNext(s: Sections, i: nat)
    requires s.Valid() && i < |ProgramOf(s)|
    ensures var op := ProgramOf(s)[i];
            && (forall section :: Written(s, section, i + 1)
                  == Written(s, section, i) + if op.Push? && op.section == section then 1 else 0)
            && (op.Push? ==> Written(s, op.section, i) < |s.Of(op.section)|
                             && op.message == s.Of(op.section)[Written(s, op.section, i)])
            && (op.PublishHeaders? <==> i == |s.headers|)
            && (op.PublishData? <==> s.hasData && i == |s.headers| + |s.data| + 1)
  {
    ProgramAt(s, i);
  }

  lemma OneMoreOp(section: Section, ops: seq<Op>, i: nat)
    requires i < |ops|
    ensures PushedTo(section, ops[..i + 1])
         == PushedTo(section, ops[..i])
            + if ops[i].Push? && ops[i].section == section then [ops[i].message] else []
    ensures HeadersCount(ops[..i + 1]) == (if ops[i].PublishHeaders? then ops[i].count else HeadersCount(ops[..i]))
    ensures DataCount(ops[..i + 1]) == (if ops[i].PublishData? then ops[i].count else DataCount(ops[..i]))
  {
    assert Front(ops[..i + 1]) == ops[..i];
  }

  lemma OneMoreBlock(section: Section, ops: seq<Op>, i: nat, blocks: seq<Message>, n: nat)
    requires i < |ops| && n <= |blocks| && PushedTo(section, ops[..i]) == blocks[..n]
    requires ops[i].Push? && ops[i].section == section ==> n < |blocks| && ops[i].message == blocks[n]
    ensures n + (if ops[i].Push? && ops[i].section == section then 1 else 0) <= |blocks|
    ensures PushedTo(section, ops[..i + 1])
         == blocks[..n + if ops[i].Push? && ops[i].section == section then 1 else 0]
  {
    OneMoreOp(section, ops, i);
    assert n < |blocks| ==> blocks[..n] + [blocks[n]] == blocks[..n + 1];
  }

  // Sections fill up in order.
  lemma {:induction false} PrefixBlocks(s: Sections, section: Section, i: nat)
    requires s.Valid() && i <= |ProgramOf(s)|
    ensures PushedTo(section, ProgramOf(s)[..i]) == s.Of(section)[..Written(s, section, i)]
  {
    if i > 0 {
      PrefixBlocks(s, section, i - 1);
      WrittenNext(s, i - 1);
      OneMoreBlock(section, ProgramOf(s), i - 1, s.Of(section), Written(s, section, i - 1));
    }
  }

  // A count appears exactly when its section is whole.
  lemma {:induction false} PrefixCounts(s: Sections, i: nat)
    requires s.Valid() && i <= |ProgramOf(s)|
    ensures HeadersCount(ProgramOf(s)[..i]) == if i <= |s.headers| then UINT32_MAX else Wrap(|s.headers|)
    ensures DataCount(ProgramOf(s)[..i])
         == if i <= |s.headers| + |s.data| + 1 then UINT32_MAX else Wrap(|s.data|)
  {
    if i > 0 {
      PrefixCounts(s, i - 1);
      OneMoreOp(HeadersSection, ProgramOf(s), i - 1);
      WrittenNext(s, i - 1);
      ProgramAt(s, i - 1);
    }
  }

  // The whole program leaves each section's blocks, and their number as its count.
  lemma ProgramContents(s: Sections, section: Section)
    requires s.Valid()
    ensures PushedTo(section, ProgramOf(s)) == s.Of(section)
    ensures HeadersCount(ProgramOf(s)) == Wrap(|s.headers|)
    ensures DataCount(ProgramOf(s)) == if s.hasData then Wrap(|s.data|) else UINT32_MAX
  {
    var ops := ProgramOf(s);
    ProgramAt(s, |ops|);
    PrefixBlocks(s, section, |ops|);
    PrefixCounts(s, |ops|);
    assert ops[..|ops|] == ops;
    assert s.Of(section)[..|s.Of(section)|] == s.Of(section);
  }

  lemma SectionsOfResponse(r: Response)
    requires WellOrdered(r)
    ensures SectionsOf(r).Valid()
    ensures forall section :: SectionsOf(r).Of(section) == SectionBlocks(r, section)
  {
  }
}
