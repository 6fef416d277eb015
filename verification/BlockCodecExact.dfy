/** What the parsers make of the blocks of a response: all of it if it is Storable, something else if it is not. */
module BlockCodecExact {
  import opened Blocks
  import opened BlockCodec
  import opened BlockCodecProofs

  predicate Storable(r: Response) {
    GoodBatches(r.headers) && GoodChunks(r.chunks) && GoodBatches(r.trailers)
  }

  /* ---------- it comes back when it is storable ---------- */

  lemma ReadTrailers(p: Parser, trailers: seq<FieldMap>)
    requires GoodBatches(trailers) && BetweenFields(p) && p.fields == []
    ensures Run(TrailersSection, p, BatchesBlocks(trailers, false) + [Ones()])
         == p.(events := p.events + (TrailerEvents(trailers) + [EncodeTrailers([])]), endStream := true)
  {
    var q := p.(events := p.events + TrailerEvents(trailers));
    RunConcat(TrailersSection, p, BatchesBlocks(trailers, false), [Ones()]);
    ReadTrailerBatches(p, trailers);
    RunOne(TrailersSection, q, Ones());
    Assoc(p.events, TrailerEvents(trailers), [EncodeTrailers([])]);
  }

  lemma GoodChunksAreStored(chunks: seq<Bytes>)
    requires GoodChunks(chunks)
    ensures StoredChunks(chunks) == chunks
  {
    forall i | 0 <= i < |chunks| ensures Stored(chunks[i]) == chunks[i] {
      assert chunks[i] in chunks;
    }
  }

  // The parser states at the section boundaries, for a consumer that starts in state p.
  ghost function AfterHeaders(p: Parser, r: Response): Parser {
    var end := r.chunks == [] && r.trailers == [];
    p.(events := p.events + HeaderEvents(r.headers, end), endStream := end)
  }

  ghost function AfterData(p: Parser, r: Response): Parser {
    var end := r.trailers == [];
    p.(events := AfterHeaders(p, r).events + DataEvents(r.chunks, end), endStream := end)
  }

  lemma HeadersRoundTrip(p: Parser, r: Response)
    requires WellOrdered(r) && GoodBatches(r.headers) && p.AtRest()
    ensures Run(HeadersSection, p.(endStream := false), SectionBlocks(r, HeadersSection)) == AfterHeaders(p, r)
  {
    ReadHeaders(p.(endStream := false), r.headers, r.chunks == [] && r.trailers == []);
  }

  lemma DataRoundTrip(p: Parser, r: Response)
    requires WellOrdered(r) && r.chunks != [] && GoodChunks(r.chunks) && p.AtRest()
    ensures Run(DataSection, AfterHeaders(p, r), SectionBlocks(r, DataSection)) == AfterData(p, r)
  {
    ReadData(AfterHeaders(p, r), r.chunks, r.trailers == []);
    GoodChunksAreStored(r.chunks);
  }

  lemma JoinEvents(e: seq<Event>, r: Response)
    ensures var all := e + ResponseEvents(r);
            var h := e + HeaderEvents(r.headers, r.chunks == [] && r.trailers == []);
            var d := h + DataEvents(r.chunks, r.trailers == []);
            && (r.chunks == [] && r.trailers == [] ==> h == all)
            && (r.trailers == [] ==> d == all)
            && (r.trailers != [] ==> d + (TrailerEvents(r.trailers) + [EncodeTrailers([])]) == all)
  {
  }

  // The callbacks are exactly the encoder calls, and the parser is back in its rest
  // state, so the same consumer can serve the entry again.
  lemma StorableComesBack(p: Parser, r: Response)
    requires WellOrdered(r) && Storable(r) && p.AtRest()
    ensures RunResponse(p, r) == p.(events := p.events + ResponseEvents(r), endStream := true)
  {
    assert p.(fields := [], endStream := false) == p.(endStream := false);
    HeadersRoundTrip(p, r);
    JoinEvents(p.events, r);
    if r.chunks != [] {
      DataRoundTrip(p, r);
      assert AfterData(p, r).(fields := []) == AfterData(p, r);
      if r.trailers != [] {
        ReadTrailers(AfterData(p, r), r.trailers);
      }
    }
  }

  // No strict prefix of the trailers section ends the stream.
  lemma TrailersEndLast(p: Parser, r: Response, j: nat)
    requires Storable(r) && p.AtRest() && j < |SectionBlocks(r, TrailersSection)|
    ensures !Run(TrailersSection, AfterData(p, r), SectionBlocks(r, TrailersSection)[..j]).endStream
  {
    var q, blocks := AfterData(p, r), BatchesBlocks(r.trailers, false);
    ReadTrailerBatches(q, r.trailers);
    assert SectionBlocks(r, TrailersSection)[..j] == blocks[..j];
    assert blocks == blocks[..j] + blocks[j..];
    RunConcat(TrailersSection, q, blocks[..j], blocks[j..]);
    RunMonotone(TrailersSection, Run(TrailersSection, q, blocks[..j]), blocks[j..]);
  }

  /* ---------- and only then ---------- */

  function FieldSectionEvents(section: Section, batches: seq<FieldMap>, end: bool): seq<Event> {
    if section == TrailersSection then TrailerEvents(batches) else HeaderEvents(batches, end)
  }

  // The first callback made while reading ms reports the map g.
  ghost predicate FirstReports(section: Section, p: Parser, ms: seq<Message>, g: FieldMap)
    requires p.Valid()
  {
    var n := |p.events|;
    var events := Run(section, p, ms).events;
    |events| > n && EventFields(events[n]) == g
  }

  lemma FirstReportsSoFar(section: Section, p: Parser, a: seq<Message>, b: seq<Message>, g: FieldMap)
    requires p.Valid() && FirstReports(section, p, a, g)
    ensures FirstReports(section, p, a + b, g)
  {
    RunConcat(section, p, a, b);
    RunMonotone(section, Run(section, p, a), b);
  }

  lemma FirstReportsAfter(section: Section, p: Parser, a: seq<Message>, b: seq<Message>, g: FieldMap)
    requires p.Valid() && Run(section, p, a).events == p.events
    requires FirstReports(section, Run(section, p, a), b, g)
    ensures FirstReports(section, p, a + b, g)
  {
    RunConcat(section, p, a, b);
  }

  lemma FirstReportsHead(section: Section, p: Parser, m: Message, ms: seq<Message>, g: FieldMap)
    requires p.Valid() && |Step(section, p, m).events| > |p.events|
    requires EventFields(Step(section, p, m).events[|p.events|]) == g
    ensures FirstReports(section, p, [m] + ms, g)
  {
    RunOne(section, p, m);
    FirstReportsSoFar(section, p, [m], ms, g);
  }

  // A name of exactly 2^32 bytes brings the 32-bit key length back to zero, and
  // the empty block that ends the name is then taken for a delimiter.
  lemma {:induction false} OverlongName(section: Section, p: Parser, u: Bytes, rest: Bytes)
    requires IsFieldSection(section) && p.Valid()
    requires 0 < |u| && |u| + |rest| == UINT32_LIMIT && |rest| % BLOCK_SIZE == 0
    requires p.str == u && p.keyLength == Wrap(|u|) && !p.keyReadDone
    ensures FirstReports(section, p, StringBlocks(rest), p.fields)
    decreases |rest|
  {
    if |rest| < BLOCK_SIZE {
      RunOne(section, p, rest);
    } else {
      var m, tail := rest[..BLOCK_SIZE], rest[BLOCK_SIZE..];
      assert p.keyLength == |u|;
      var q := Step(section, p, m);
      assert q == p.(str := u + m, keyLength := Wrap(|u| + |m|));
      OverlongName(section, q, u + m, tail);
      RunOne(section, p, m);
      FirstReportsAfter(section, p, [m], StringBlocks(tail), p.fields);
    }
  }

  // A name the format cannot carry makes the parser report the map too early.
  lemma BadName(section: Section, p: Parser, f: Field)
    requires IsFieldSection(section) && BetweenFields(p) && !GoodName(f.name)
    ensures FirstReports(section, p, FieldBlocks(f), p.fields)
  {
    var s := Stored(f.name);
    if |s| < BLOCK_SIZE {
      RunOne(section, p, s);
    } else {
      var m, tail := s[..BLOCK_SIZE], s[BLOCK_SIZE..];
      if m == Ones() {
        FirstReportsHead(section, p, m, StringBlocks(tail), p.fields);
      } else {
        assert f.name[..BLOCK_SIZE] == m;
        assert |s| == UINT32_LIMIT;
        var q := Step(section, p, m);
        assert p.str + m == m;
        assert q == p.(str := m, keyLength := BLOCK_SIZE);
        OverlongName(section, q, m, tail);
        RunOne(section, p, m);
        FirstReportsAfter(section, p, [m], StringBlocks(tail), p.fields);
      }
    }
    FirstReportsSoFar(section, p, StringBlocks(s), StringBlocks(Stored(f.value)), p.fields);
  }

  ghost function StoredFields(fields: FieldMap): FieldMap {
    seq(|fields|, i requires 0 <= i < |fields| => Field(fields[i].name, Stored(fields[i].value)))
  }

  predicate GoodNames(fields: FieldMap) {
    forall f :: f in fields ==> GoodName(f.name)
  }

  lemma StoredFieldsSnoc(fields: FieldMap)
    requires fields != []
    ensures StoredFields(fields)
         == StoredFields(Front(fields)) + [Field(Last(fields).name, Stored(Last(fields).value))]
  {
  }

  lemma GoodNamesSnoc(fields: FieldMap)
    requires fields != []
    ensures GoodNames(fields) <==> GoodNames(Front(fields)) && GoodName(Last(fields).name)
  {
    assert fields == Front(fields) + [Last(fields)];
    if GoodNames(Front(fields)) && GoodName(Last(fields).name) {
      forall f | f in fields ensures GoodName(f.name) {
        assert f in Front(fields) || f == Last(fields);
      }
    }
  }

  lemma {:induction false} MapWithGoodNames(section: Section, p: Parser, fields: FieldMap)
    requires IsFieldSection(section) && BetweenFields(p) && p.fields == [] && GoodNames(fields)
    ensures Run(section, p, MapBlocks(fields)) == p.(fields := StoredFields(fields))
  {
    if fields == [] {
      assert StoredFields(fields) == [];
    } else {
      var front, f := Front(fields), Last(fields);
      GoodNamesSnoc(fields);
      MapWithGoodNames(section, p, front);
      ReadField(section, p.(fields := StoredFields(front)), f);
      RunConcat(section, p, MapBlocks(front), FieldBlocks(f));
      StoredFieldsSnoc(fields);
    }
  }

  lemma {:induction false} MapWithBadName(section: Section, p: Parser, fields: FieldMap)
    returns (g: FieldMap)
    requires IsFieldSection(section) && BetweenFields(p) && p.fields == [] && !GoodNames(fields)
    ensures |g| < |fields| && FirstReports(section, p, MapBlocks(fields), g)
  {
    var front, f := Front(fields), Last(fields);
    GoodNamesSnoc(fields);
    if GoodNames(front) {
      MapWithGoodNames(section, p, front);
      g := StoredFields(front);
      BadName(section, p.(fields := g), f);
      FirstReportsAfter(section, p, MapBlocks(front), FieldBlocks(f), g);
    } else {
      g := MapWithBadName(section, p, front);
      FirstReportsSoFar(section, p, MapBlocks(front), FieldBlocks(f), g);
    }
  }

  // A batch with a bad field is reported as some other map.
  lemma BadBatch(section: Section, p: Parser, fields: FieldMap, end: bool) returns (g: FieldMap)
    requires IsFieldSection(section) && BetweenFields(p) && p.fields == [] && !GoodMap(fields)
    ensures g != fields && FirstReports(section, p, BatchBlocks(fields, end), g)
  {
    if GoodNames(fields) {
      MapWithGoodNames(section, p, fields);
      g := StoredFields(fields);
      RunOne(section, p.(fields := g), Delimiter(end));
      FirstReportsAfter(section, p, MapBlocks(fields), [Delimiter(end)], g);
      var f :| f in fields && !GoodField(f);
      var i :| 0 <= i < |fields| && fields[i] == f;
      assert |g[i].value| < |f.value|;
    } else {
      g := MapWithBadName(section, p, fields);
      FirstReportsSoFar(section, p, MapBlocks(fields), [Delimiter(end)], g);
    }
  }

  // Some callback is made that differs from the one expected at its place.
  ghost predicate Differs(events: seq<Event>, expected: seq<Event>) {
    exists i :: 0 <= i < |events| && i < |expected| && events[i] != expected[i]
  }

  lemma DiffersExtends(events: seq<Event>, expected: seq<Event>, events': seq<Event>, expected': seq<Event>)
    requires Differs(events, expected) && events <= events' && expected <= expected'
    ensures Differs(events', expected') && !(expected' <= events')
  {
    var i :| 0 <= i < |events| && i < |expected| && events[i] != expected[i];
    assert events'[i] == events[i] && expected'[i] == expected[i];
  }

  lemma GoodBatchesSnoc(batches: seq<FieldMap>)
    requires batches != []
    ensures GoodBatches(batches) <==> GoodBatches(Front(batches)) && GoodMap(Last(batches))
  {
    assert batches == Front(batches) + [Last(batches)];
    if GoodBatches(Front(batches)) && GoodMap(Last(batches)) {
      forall b, f | b in batches && f in b ensures GoodField(f) {
        assert b in Front(batches) || b == Last(batches);
      }
    }
    if GoodBatches(batches) {
      forall f | f in Last(batches) ensures GoodField(f) {
        assert Last(batches) in batches;
      }
    }
  }

  lemma ReadFieldSection(section: Section, p: Parser, batches: seq<FieldMap>)
    requires IsFieldSection(section) && GoodBatches(batches) && BetweenFields(p) && p.fields == []
    ensures Run(section, p, BatchesBlocks(batches, false))
         == p.(events := p.events + FieldSectionEvents(section, batches, false))
  {
    if section == HeadersSection {
      ReadHeaders(p, batches, false);
    } else {
      ReadTrailerBatches(p, batches);
    }
  }

  lemma FieldSectionEventsSnoc(section: Section, events: seq<Event>, batches: seq<FieldMap>, end: bool)
    requires batches != []
    ensures var expected := events + FieldSectionEvents(section, batches, end);
            var n := |events| + |batches| - 1;
            && events + FieldSectionEvents(section, Front(batches), false) == expected[..n]
            && n < |expected| && EventFields(expected[n]) == Last(batches)
  {
  }

  lemma ReportDiffers(section: Section, q: Parser, ms: seq<Message>, g: FieldMap, expected: seq<Event>)
    requires q.Valid() && FirstReports(section, q, ms, g)
    requires |q.events| < |expected| && EventFields(expected[|q.events|]) != g
    ensures Differs(Run(section, q, ms).events, expected)
  {
  }

  lemma RunLastBatch(section: Section, p: Parser, batches: seq<FieldMap>, end: bool)
    requires p.Valid() && batches != []
    ensures Run(section, p, BatchesBlocks(batches, end))
         == Run(section, Run(section, p, BatchesBlocks(Front(batches), false)), BatchBlocks(Last(batches), end))
  {
    RunConcat(section, p, BatchesBlocks(Front(batches), false), BatchBlocks(Last(batches), end));
  }

  lemma BadLastBatch(section: Section, p: Parser, batches: seq<FieldMap>, end: bool)
    requires IsFieldSection(section) && BetweenFields(p) && p.fields == []
    requires batches != [] && GoodBatches(Front(batches)) && !GoodMap(Last(batches))
    ensures Differs(Run(section, p, BatchesBlocks(batches, end)).events,
                    p.events + FieldSectionEvents(section, batches, end))
  {
    var q := Run(section, p, BatchesBlocks(Front(batches), false));
    RunLastBatch(section, p, batches, end);
    FieldSectionEventsSnoc(section, p.events, batches, end);
    ReadFieldSection(section, p, Front(batches));
    var g := BadBatch(section, q, Last(batches), end);
    ReportDiffers(section, q, BatchBlocks(Last(batches), end), g,
                  p.events + FieldSectionEvents(section, batches, end));
  }

  lemma {:induction false} BadBatches(section: Section, p: Parser, batches: seq<FieldMap>, end: bool)
    requires IsFieldSection(section) && BetweenFields(p) && p.fields == [] && !GoodBatches(batches)
    ensures Differs(Run(section, p, BatchesBlocks(batches, end)).events,
                    p.events + FieldSectionEvents(section, batches, end))
  {
    var front := Front(batches);
    GoodBatchesSnoc(batches);
    if GoodBatches(front) {
      BadLastBatch(section, p, batches, end);
    } else {
      var q, blocks := Run(section, p, BatchesBlocks(front, false)), BatchBlocks(Last(batches), end);
      BadBatches(section, p, front, false);
      RunLastBatch(section, p, batches, end);
      FieldSectionEventsSnoc(section, p.events, batches, end);
      RunMonotone(section, q, blocks);
      DiffersExtends(q.events, p.events + FieldSectionEvents(section, front, false),
                     Run(section, q, blocks).events, p.events + FieldSectionEvents(section, batches, end));
    }
  }

  /* ---------- injectivity ---------- */

  predicate HeadersAt(events: seq<Event>, i: nat) {
    i < |events| && events[i].EncodeHeaders?
  }

  predicate DataAt(events: seq<Event>, i: nat) {
    i < |events| && events[i].EncodeData?
  }

  lemma EventKinds(r: Response)
    ensures var e := ResponseEvents(r); var n := |r.headers|; var m := n + |r.chunks|;
            && (forall i: nat :: HeadersAt(e, i) <==> i < n)
            && (forall i: nat :: DataAt(e, i) <==> n <= i < m)
            && |e| == (if r.trailers == [] then m else m + |r.trailers| + 1)
  {
  }

  lemma EventContents(r: Response)
    ensures var e := ResponseEvents(r); var n := |r.headers|; var m := n + |r.chunks|;
            && |e| >= m + |r.trailers|
            && (forall i :: 0 <= i < n ==> EventFields(e[i]) == r.headers[i])
            && (forall i :: n <= i < m ==> e[i].EncodeData? && e[i].data == r.chunks[i - n])
            && (forall i :: m <= i < m + |r.trailers| ==> EventFields(e[i]) == r.trailers[i - m])
  {
  }

  lemma SameCounts(r: Response, s: Response)
    requires ResponseEvents(r) == ResponseEvents(s)
    ensures |r.headers| == |s.headers| && |r.chunks| == |s.chunks| && |r.trailers| == |s.trailers|
  {
    EventKinds(r);
    EventKinds(s);
    var e := ResponseEvents(r);
    assert HeadersAt(e, |r.headers|) <==> |r.headers| < |s.headers|;
    assert HeadersAt(e, |s.headers|) <==> |s.headers| < |r.headers|;
    var m, k := |r.headers| + |r.chunks|, |s.headers| + |s.chunks|;
    assert DataAt(e, m) <==> m < k;
    assert DataAt(e, k) <==> k < m;
  }

  lemma SameFields(a: seq<FieldMap>, b: seq<FieldMap>, events: seq<Event>, from: nat)
    requires |a| == |b| && from + |a| <= |events|
    requires forall i :: from <= i < from + |a| ==> EventFields(events[i]) == a[i - from] == b[i - from]
    ensures a == b
  {
    forall i | 0 <= i < |a| ensures a[i] == b[i] {
      assert EventFields(events[from + i]) == a[from + i - from] == b[from + i - from];
    }
  }

  lemma SameChunks(a: seq<Bytes>, b: seq<Bytes>, events: seq<Event>, from: nat)
    requires |a| == |b| && from + |a| <= |events|
    requires forall i :: from <= i < from + |a| ==>
               events[i].EncodeData? && events[i].data == a[i - from] == b[i - from]
    ensures a == b
  {
    forall i | 0 <= i < |a| ensures a[i] == b[i] {
      assert events[from + i].data == a[from + i - from] == b[from + i - from];
    }
  }

  lemma ResponseEventsInjective(r: Response, s: Response)
    requires ResponseEvents(r) == ResponseEvents(s)
    ensures r == s
  {
    var e, n := ResponseEvents(r), |r.headers|;
    SameCounts(r, s);
    EventContents(r);
    EventContents(s);
    assert |s.headers| == n && |s.headers| + |s.chunks| == n + |r.chunks|;
    SameFields(r.headers, s.headers, e, 0);
    forall i | n <= i < n + |r.chunks|
      ensures e[i].EncodeData? && e[i].data == r.chunks[i - n] == s.chunks[i - n]
    {
      assert s.chunks[i - |s.headers|] == s.chunks[i - n];
    }
    SameChunks(r.chunks, s.chunks, e, n);
    SameFields(r.trailers, s.trailers, e, n + |r.chunks|);
  }

  // Different storable responses never share their blocks.
  lemma EncodingIsInjective(r: Response, s: Response)
    requires WellOrdered(r) && WellOrdered(s) && Storable(r) && Storable(s)
    requires forall section :: SectionBlocks(r, section) == SectionBlocks(s, section)
    ensures r == s
  {
    StorableComesBack(START, r);
    StorableComesBack(START, s);
    assert [] + ResponseEvents(r) == ResponseEvents(r) && [] + ResponseEvents(s) == ResponseEvents(s);
    ResponseEventsInjective(r, s);
  }
}
