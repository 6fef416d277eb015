/** Round trips of the block format, and exactly when they hold. */
module BlockCodecProofs {
  import opened Blocks
  import opened BlockCodec

  /* ---------- chunking ---------- */

  ghost function Flatten(ms: seq<Message>): Bytes {
    if ms == [] then [] else ms[0] + Flatten(ms[1..])
  }

  // Cutting loses nothing, fills every block but the last, and the last one is short.
  lemma {:induction false} StringBlocksShape(s: Bytes)
    ensures |StringBlocks(s)| == |s| / BLOCK_SIZE + 1
    ensures Flatten(StringBlocks(s)) == s
    ensures forall i :: 0 <= i < |s| / BLOCK_SIZE ==> |StringBlocks(s)[i]| == BLOCK_SIZE
    ensures |Last(StringBlocks(s))| == |s| % BLOCK_SIZE
  {
    if |s| < BLOCK_SIZE {
      assert Flatten([s]) == s + Flatten([s][1..]);
    } else {
      var rest := s[BLOCK_SIZE..];
      StringBlocksShape(rest);
      assert StringBlocks(s)[1..] == StringBlocks(rest);
    }
  }

  lemma Assoc<T>(a: seq<T>, b: seq<T>, c: seq<T>)
    ensures a + b + c == a + (b + c)
  {
  }

  lemma Snoc<T>(a: seq<T>, b: seq<T>)
    requires b != []
    ensures a + Front(b) + [Last(b)] == a + b
  {
  }

  lemma Split<T>(a: seq<T>, b: seq<T>, n: nat)
    requires n <= |b|
    ensures a + b[..n] + b[n..] == a + b
  {
  }

  /* ---------- running the parser over pieces ---------- */

  lemma {:induction false} RunConcat(section: Section, p: Parser, a: seq<Message>, b: seq<Message>)
    requires p.Valid()
    ensures Run(section, p, a + b) == Run(section, Run(section, p, a), b)
  {
    if b == [] {
      assert a + b == a;
    } else {
      assert Front(a + b) == a + Front(b);
      RunConcat(section, p, a, Front(b));
    }
  }

  lemma RunOne(section: Section, p: Parser, m: Message)
    requires p.Valid()
    ensures Run(section, p, [m]) == Step(section, p, m)
  {
    assert Front([m]) == [];
  }

  lemma RunHead(section: Section, p: Parser, m: Message, ms: seq<Message>)
    requires p.Valid()
    ensures Run(section, p, [m] + ms) == Run(section, Step(section, p, m), ms)
  {
    RunConcat(section, p, [m], ms);
    RunOne(section, p, m);
  }

  lemma StepMonotone(section: Section, p: Parser, m: Message)
    requires p.Valid()
    ensures p.events <= Step(section, p, m).events
    ensures p.endStream ==> Step(section, p, m).endStream
  {
  }

  // Callbacks already made are never taken back, and the end of the stream is final.
  lemma {:induction false} RunMonotone(section: Section, p: Parser, ms: seq<Message>)
    requires p.Valid()
    ensures p.events <= Run(section, p, ms).events
    ensures p.endStream ==> Run(section, p, ms).endStream
  {
    if ms != [] {
      RunMonotone(section, p, Front(ms));
      StepMonotone(section, Run(section, p, Front(ms)), Last(ms));
    }
  }

  /* ---------- header and trailer sections ---------- */

  predicate IsFieldSection(section: Section) {
    section != DataSection
  }

  // One block in the middle of a name.
  lemma NameBlock(section: Section, p: Parser, m: Message)
    requires IsFieldSection(section) && p.Valid() && !p.keyReadDone && m != []
    requires p.keyLength != 0 || m != Ones()
    requires p.keyLength + |m| < UINT32_LIMIT
    ensures Step(section, p, m)
         == p.(str := p.str + m, keyLength := p.keyLength + |m|, keyReadDone := |m| < BLOCK_SIZE)
  {
  }

  lemma RunNameBlock(section: Section, p: Parser, m: Message, ms: seq<Message>)
    requires IsFieldSection(section) && p.Valid() && !p.keyReadDone && |m| == BLOCK_SIZE
    requires p.keyLength != 0 || m != Ones()
    requires p.keyLength + BLOCK_SIZE < UINT32_LIMIT
    ensures Run(section, p, [m] + ms)
         == Run(section, p.(str := p.str + m, keyLength := p.keyLength + BLOCK_SIZE), ms)
  {
    RunHead(section, p, m, ms);
    NameBlock(section, p, m);
  }

  // The rest of a name, after the bytes u of it.
  lemma {:induction false} ReadRestOfName(section: Section, p: Parser, u: Bytes, rest: Bytes)
    requires IsFieldSection(section) && 0 < |u| && |u| + |rest| < UINT32_LIMIT
    requires p.str == u && p.keyLength == |u| && !p.keyReadDone
    ensures Run(section, p, StringBlocks(rest))
         == p.(str := u + rest, keyLength := |u| + |rest|, keyReadDone := true)
    decreases |rest|
  {
    if |rest| < BLOCK_SIZE {
      RunOne(section, p, rest);
      if rest == [] {
        assert u + rest == u;
      } else {
        NameBlock(section, p, rest);
      }
    } else {
      var m, tail := rest[..BLOCK_SIZE], rest[BLOCK_SIZE..];
      RunNameBlock(section, p, m, StringBlocks(tail));
      ReadRestOfName(section, p.(str := u + m, keyLength := |u| + |m|), u + m, tail);
      Split(u, rest, BLOCK_SIZE);
    }
  }

  lemma ReadLongName(section: Section, p: Parser, name: Bytes)
    requires IsFieldSection(section) && GoodName(name) && |name| >= BLOCK_SIZE
    requires p.str == [] && p.keyLength == 0 && !p.keyReadDone
    ensures Run(section, p, StringBlocks(name)) == p.(str := name, keyLength := |name|, keyReadDone := true)
  {
    var m, tail := name[..BLOCK_SIZE], name[BLOCK_SIZE..];
    assert p.str + m == m;
    RunNameBlock(section, p, m, StringBlocks(tail));
    ReadRestOfName(section, p.(str := m, keyLength := |m|), m, tail);
    assert m + tail == name;
  }

  lemma ReadName(section: Section, p: Parser, name: Bytes)
    requires IsFieldSection(section) && GoodName(name)
    requires p.str == [] && p.keyLength == 0 && !p.keyReadDone
    ensures Run(section, p, StringBlocks(name)) == p.(str := name, keyLength := |name|, keyReadDone := true)
  {
    if |name| < BLOCK_SIZE {
      assert p.str + name == name;
      RunOne(section, p, name);
      NameBlock(section, p, name);
    } else {
      ReadLongName(section, p, name);
    }
  }

  // A value, after the bytes u of it; any bytes will do, 0xFF included.
  lemma {:induction false} ReadRestOfValue(section: Section, p: Parser, name: Bytes, u: Bytes, rest: Bytes)
    requires IsFieldSection(section) && name != []
    requires p.str == name + u && p.keyLength == |name| && p.keyReadDone
    ensures Run(section, p, StringBlocks(rest))
         == p.(str := [], keyLength := 0, keyReadDone := false, fields := p.fields + [Field(name, u + rest)])
    decreases |rest|
  {
    if |rest| < BLOCK_SIZE {
      RunOne(section, p, rest);
      Assoc(name, u, rest);
      assert rest == [] ==> u + rest == u;
    } else {
      var m := rest[..BLOCK_SIZE];
      RunHead(section, p, m, StringBlocks(rest[BLOCK_SIZE..]));
      Assoc(name, u, m);
      ReadRestOfValue(section, Step(section, p, m), name, u + m, rest[BLOCK_SIZE..]);
      Split(u, rest, BLOCK_SIZE);
    }
  }

  predicate BetweenFields(p: Parser) {
    p.str == [] && p.keyLength == 0 && !p.keyReadDone
  }

  lemma ReadField(section: Section, p: Parser, f: Field)
    requires IsFieldSection(section) && GoodName(f.name) && BetweenFields(p)
    ensures Run(section, p, FieldBlocks(f)) == p.(fields := p.fields + [Field(f.name, Stored(f.value))])
  {
    RunConcat(section, p, StringBlocks(Stored(f.name)), StringBlocks(Stored(f.value)));
    ReadName(section, p, f.name);
    var q := p.(str := f.name, keyLength := |f.name|, keyReadDone := true);
    assert f.name + [] == f.name;
    ReadRestOfValue(section, q, f.name, [], Stored(f.value));
    assert [] + Stored(f.value) == Stored(f.value);
  }

  predicate GoodMap(fields: FieldMap) {
    forall f :: f in fields ==> GoodField(f)
  }

  lemma {:induction false} ReadMap(section: Section, p: Parser, fields: FieldMap)
    requires IsFieldSection(section) && GoodMap(fields) && BetweenFields(p)
    ensures Run(section, p, MapBlocks(fields)) == p.(fields := p.fields + fields)
  {
    if fields == [] {
      assert p.fields + fields == p.fields;
    } else {
      var front, f := Front(fields), Last(fields);
      assert f in fields && GoodField(f);
      RunConcat(section, p, MapBlocks(front), FieldBlocks(f));
      ReadMap(section, p, front);
      ReadField(section, p.(fields := p.fields + front), f);
      Snoc(p.fields, fields);
    }
  }

  function FieldEvent(section: Section, fields: FieldMap, end: bool): Event {
    if section == TrailersSection then EncodeTrailers(fields) else EncodeHeaders(fields, end)
  }

  lemma ReadBatch(section: Section, p: Parser, fields: FieldMap, end: bool)
    requires IsFieldSection(section) && GoodMap(fields) && BetweenFields(p) && p.fields == []
    ensures Run(section, p, BatchBlocks(fields, end))
         == p.(events := p.events + [FieldEvent(section, fields, end)], endStream := p.endStream || end)
  {
    RunConcat(section, p, MapBlocks(fields), [Delimiter(end)]);
    ReadMap(section, p, fields);
    RunOne(section, p.(fields := p.fields + fields), Delimiter(end));
    assert p.fields + fields == fields;
  }

  lemma HeaderEventsSnoc(events: seq<Event>, batches: seq<FieldMap>, end: bool)
    requires batches != []
    ensures events + HeaderEvents(Front(batches), false) + [EncodeHeaders(Last(batches), end)]
         == events + HeaderEvents(batches, end)
  {
  }

  lemma {:induction false} ReadHeaders(p: Parser, batches: seq<FieldMap>, end: bool)
    requires GoodBatches(batches) && BetweenFields(p) && p.fields == []
    ensures Run(HeadersSection, p, BatchesBlocks(batches, end))
         == p.(events := p.events + HeaderEvents(batches, end), endStream := p.endStream || (end && batches != []))
  {
    if batches == [] {
      assert p.events + HeaderEvents(batches, end) == p.events;
    } else {
      var front, b := Front(batches), Last(batches);
      assert b in batches;
      RunConcat(HeadersSection, p, BatchesBlocks(front, false), BatchBlocks(b, end));
      ReadHeaders(p, front, false);
      var events := p.events + HeaderEvents(front, false);
      ReadBatch(HeadersSection, p.(events := events), b, end);
      HeaderEventsSnoc(p.events, batches, end);
    }
  }

  lemma TrailerEventsSnoc(events: seq<Event>, batches: seq<FieldMap>)
    requires batches != []
    ensures events + TrailerEvents(Front(batches)) + [EncodeTrailers(Last(batches))]
         == events + TrailerEvents(batches)
  {
  }

  lemma {:induction false} ReadTrailerBatches(p: Parser, batches: seq<FieldMap>)
    requires GoodBatches(batches) && BetweenFields(p) && p.fields == []
    ensures Run(TrailersSection, p, BatchesBlocks(batches, false)) == p.(events := p.events + TrailerEvents(batches))
  {
    if batches == [] {
      assert p.events + TrailerEvents(batches) == p.events;
    } else {
      var front, b := Front(batches), Last(batches);
      assert b in batches;
      RunConcat(TrailersSection, p, BatchesBlocks(front, false), BatchBlocks(b, false));
      ReadTrailerBatches(p, front);
      ReadBatch(TrailersSection, p.(events := p.events + TrailerEvents(front)), b, false);
      TrailerEventsSnoc(p.events, batches);
    }
  }

  /* ---------- data section ---------- */

  lemma {:induction false} ReadRestOfChunk(p: Parser, rest: Bytes)
    requires p.Valid() && !p.batchComplete
    ensures Run(DataSection, p, StringBlocks(rest)) == p.(data := p.data + rest, batchComplete := true)
    decreases |rest|
  {
    if |rest| < BLOCK_SIZE {
      RunOne(DataSection, p, rest);
      assert rest == [] ==> p.data + rest == p.data;
    } else {
      var m := rest[..BLOCK_SIZE];
      RunHead(DataSection, p, m, StringBlocks(rest[BLOCK_SIZE..]));
      ReadRestOfChunk(Step(DataSection, p, m), rest[BLOCK_SIZE..]);
      Split(p.data, rest, BLOCK_SIZE);
    }
  }

  lemma ReadChunk(p: Parser, chunk: Bytes, end: bool)
    requires p.Valid() && !p.batchComplete && p.data == []
    ensures Run(DataSection, p, ChunkBlocks(chunk, end))
         == p.(events := p.events + [EncodeData(Stored(chunk), end)], endStream := p.endStream || end)
  {
    RunConcat(DataSection, p, StringBlocks(Stored(chunk)), [Delimiter(end)]);
    ReadRestOfChunk(p, Stored(chunk));
    assert p.data + Stored(chunk) == Stored(chunk);
    RunOne(DataSection, p.(data := Stored(chunk), batchComplete := true), Delimiter(end));
  }

  function StoredChunks(chunks: seq<Bytes>): seq<Bytes> {
    seq(|chunks|, i requires 0 <= i < |chunks| => Stored(chunks[i]))
  }

  lemma DataEventsSnoc(events: seq<Event>, chunks: seq<Bytes>, end: bool)
    requires chunks != []
    ensures events + DataEvents(StoredChunks(Front(chunks)), false) + [EncodeData(Stored(Last(chunks)), end)]
         == events + DataEvents(StoredChunks(chunks), end)
  {
  }

  // For any list of chunks at all, empty ones and all-0xFF ones included.
  lemma {:induction false} ReadData(p: Parser, chunks: seq<Bytes>, end: bool)
    requires p.Valid() && !p.batchComplete && p.data == []
    ensures Run(DataSection, p, ChunksBlocks(chunks, end))
         == p.(events := p.events + DataEvents(StoredChunks(chunks), end),
               endStream := p.endStream || (end && chunks != []))
  {
    if chunks == [] {
      assert p.events + DataEvents(StoredChunks(chunks), end) == p.events;
    } else {
      var front, c := Front(chunks), Last(chunks);
      RunConcat(DataSection, p, ChunksBlocks(front, false), ChunkBlocks(c, end));
      ReadData(p, front, false);
      ReadChunk(p.(events := p.events + DataEvents(StoredChunks(front), false)), c, end);
      DataEventsSnoc(p.events, chunks, end);
    }
  }

  /* ---------- how many blocks a section has ---------- */

  function StringSize(s: Bytes): nat {
    |Stored(s)| / BLOCK_SIZE + 1
  }

  // Name and value of every field, and the delimiter.
  function BatchSize(fields: FieldMap): nat {
    if fields == [] then 1
    else BatchSize(Front(fields)) + StringSize(Last(fields).name) + StringSize(Last(fields).value)
  }

  function HeadersSize(batches: seq<FieldMap>): nat {
    if batches == [] then 0 else HeadersSize(Front(batches)) + BatchSize(Last(batches))
  }

  function DataSize(chunks: seq<Bytes>): nat {
    if chunks == [] then 0 else DataSize(Front(chunks)) + StringSize(Last(chunks)) + 1
  }

  lemma {:induction false} MapHasSize(fields: FieldMap)
    ensures |MapBlocks(fields)| + 1 == BatchSize(fields)
  {
    if fields != [] {
      MapHasSize(Front(fields));
      StringBlocksShape(Stored(Last(fields).name));
      StringBlocksShape(Stored(Last(fields).value));
    }
  }

  lemma {:induction false} HeadersHaveSize(batches: seq<FieldMap>, end: bool)
    ensures |BatchesBlocks(batches, end)| == HeadersSize(batches)
  {
    if batches != [] {
      HeadersHaveSize(Front(batches), false);
      MapHasSize(Last(batches));
    }
  }

  lemma {:induction false} DataHasSize(chunks: seq<Bytes>, end: bool)
    ensures |ChunksBlocks(chunks, end)| == DataSize(chunks)
  {
    if chunks != [] {
      DataHasSize(Front(chunks), false);
      StringBlocksShape(Stored(Last(chunks)));
    }
  }
}
