/**
 What a consumer does with a finished entry, published counts and 32-bit cursor included, and
 for exactly which responses it gives back what was sent.
 */
module FinishedEntry {
  import opened Blocks
  import opened BlockCodec
  import opened BlockCodecProofs
  import opened BlockCodecExact
  import opened EntryProgram
  import opened RingBuffer
  import opened TrailerLoop

  // The blocks that the counted loops read: as many as the published 32-bit count says.
  function CountedBlocks(blocks: seq<Message>): seq<Message> {
    blocks[..Wrap(|blocks|)]
  }

  ghost function HeadersRead(p: Parser, r: Response): (h: Parser)
    requires p.Valid()
    ensures h.Valid()
  {
    Run(HeadersSection, p.(fields := [], endStream := false), CountedBlocks(SectionBlocks(r, HeadersSection)))
  }

  // Without chunks the data count is never published: a consumer that gets there waits for ever.
  ghost function DataRead(h: Parser, r: Response): (d: Parser)
    requires h.Valid()
    ensures d.Valid()
  {
    Run(DataSection, h, CountedBlocks(SectionBlocks(r, DataSection)))
  }

  // The trailers loop, entered in state d, ends in state q.
  ghost predicate TrailersRead(capacity: nat, d: Parser, blocks: seq<Message>, q: Parser)
    requires d.Valid()
  {
    exists k: nat, a: nat ::
      EndsAt(Reach(capacity), blocks, d.(fields := []), k, a)
      && q == At(Reach(capacity), blocks, d.(fields := []), k, a + 1)
  }

  // Where it ends.
  lemma EndOf(capacity: nat, d: Parser, blocks: seq<Message>, q: Parser) returns (k: nat, a: nat)
    requires d.Valid() && TrailersRead(capacity, d, blocks, q)
    ensures EndsAt(Reach(capacity), blocks, d.(fields := []), k, a)
    ensures q == At(Reach(capacity), blocks, d.(fields := []), k, a + 1)
  {
    k, a :| EndsAt(Reach(capacity), blocks, d.(fields := []), k, a)
            && q == At(Reach(capacity), blocks, d.(fields := []), k, a + 1);
  }

  // A consumer that starts in state p finishes serving the entry of r in state q.
  ghost predicate Serves(capacity: nat, r: Response, p: Parser, q: Parser)
    requires p.Valid()
  {
    var h := HeadersRead(p, r);
    if h.endStream then q == h else
    r.chunks != [] &&
    var d := DataRead(h, r);
    if d.endStream then q == d else TrailersRead(capacity, d, SectionBlocks(r, TrailersSection), q)
  }

  // A consumer that starts in state p reads the first j header blocks, the first i data blocks and
  // then trailers until the stream ends, and is then in state q.
  ghost predicate ReadsTo(capacity: nat, r: Response, j: nat, i: nat, p: Parser, q: Parser)
    requires p.Valid()
  {
    var hs, ds := SectionBlocks(r, HeadersSection), SectionBlocks(r, DataSection);
    j <= |hs| && i <= |ds| &&
    var h := Run(HeadersSection, p.(fields := [], endStream := false), hs[..j]);
    if h.endStream then q == h else
    var d := Run(DataSection, h, ds[..i]);
    if d.endStream then q == d else TrailersRead(capacity, d, SectionBlocks(r, TrailersSection), q)
  }

  lemma ServesReads(capacity: nat, r: Response, p: Parser, q: Parser)
    requires p.Valid() && Serves(capacity, r, p, q)
    ensures ReadsTo(capacity, r, Wrap(|SectionBlocks(r, HeadersSection)|), Wrap(|SectionBlocks(r, DataSection)|), p, q)
  {
  }

  // The loop over the trailers ends in one place only.
  lemma EndsOnce(reach: nat, blocks: seq<Message>, p: Parser, k: nat, a: nat, k': nat, a': nat)
    requires EndsAt(reach, blocks, p, k, a) && EndsAt(reach, blocks, p, k', a')
    ensures k == k' && a == a'
  {
    if k' < k || (k' == k && a' < a) {
      NotYet(reach, blocks, p, k, a, k', a' + 1);
    } else if k < k' || a < a' {
      NotYet(reach, blocks, p, k', a', k, a + 1);
    }
  }

  lemma ServesOnce(capacity: nat, r: Response, p: Parser, q: Parser, q': Parser)
    requires p.Valid() && Serves(capacity, r, p, q) && Serves(capacity, r, p, q')
    ensures q == q'
  {
    var h := HeadersRead(p, r);
    var d := DataRead(h, r);
    if !h.endStream && !d.endStream {
      var blocks := SectionBlocks(r, TrailersSection);
      var k, a := EndOf(capacity, d, blocks, q);
      var k', a' := EndOf(capacity, d, blocks, q');
      EndsOnce(Reach(capacity), blocks, d.(fields := []), k, a, k', a');
    }
  }

  /* ---------- prefixes of a section ---------- */

  lemma RunPrefix(section: Section, p: Parser, ms: seq<Message>, n: nat)
    requires p.Valid() && n <= |ms|
    ensures Run(section, p, ms[..n]).events <= Run(section, p, ms).events
    ensures Run(section, p, ms[..n]).endStream ==> Run(section, p, ms).endStream
  {
    assert ms == ms[..n] + ms[n..];
    RunConcat(section, p, ms[..n], ms[n..]);
    RunMonotone(section, Run(section, p, ms[..n]), ms[n..]);
  }

  // What differs from the expected callbacks at some place never becomes equal to them.
  lemma NeverEqual(full: seq<Event>, expected: seq<Event>, part: seq<Event>)
    requires Differs(full, expected) && (part <= full || full <= part)
    ensures part != expected
  {
    var i :| 0 <= i < |full| && i < |expected| && full[i] != expected[i];
  }

  lemma CountedWhole(blocks: seq<Message>)
    requires |blocks| <= UINT32_MAX
    ensures CountedBlocks(blocks) == blocks
  {
  }

  /* ---------- headers ---------- */

  lemma FrontOfConcat<T>(a: seq<T>, b: seq<T>, x: T)
    ensures Front(a + (b + [x])) == a + b
  {
  }

  // The last batch is reported at the last block of its section, and no earlier.
  lemma LastBatchIsLast(p: Parser, batches: seq<FieldMap>, end: bool)
    requires batches != [] && GoodBatches(batches) && BetweenFields(p) && p.fields == []
    ensures |Run(HeadersSection, p, Front(BatchesBlocks(batches, end))).events| == |p.events| + |batches| - 1
  {
    var front, b := Front(batches), Last(batches);
    GoodBatchesSnoc(batches);
    FrontOfConcat(BatchesBlocks(front, false), MapBlocks(b), Delimiter(end));
    RunConcat(HeadersSection, p, BatchesBlocks(front, false), MapBlocks(b));
    ReadHeaders(p, front, false);
    ReadMap(HeadersSection, Run(HeadersSection, p, BatchesBlocks(front, false)), b);
  }

  // The headers come back exactly if they are storable and all their blocks are read.
  lemma HeadersExact(p: Parser, r: Response, j: nat)
    requires r.headers != [] && p.AtRest() && j <= |SectionBlocks(r, HeadersSection)|
    ensures var h := Run(HeadersSection, p.(fields := [], endStream := false), SectionBlocks(r, HeadersSection)[..j]);
            && (h.events == p.events + HeaderEvents(r.headers, r.chunks == [] && r.trailers == [])
                <==> GoodBatches(r.headers) && j == |SectionBlocks(r, HeadersSection)|)
            && (GoodBatches(r.headers) && j == |SectionBlocks(r, HeadersSection)| ==> h == AfterHeaders(p, r))
  {
    var end, s, blocks := r.chunks == [] && r.trailers == [], p.(endStream := false), SectionBlocks(r, HeadersSection);
    assert p.(fields := [], endStream := false) == s;
    if !GoodBatches(r.headers) {
      BadBatches(HeadersSection, s, r.headers, end);
      RunPrefix(HeadersSection, s, blocks, j);
      NeverEqual(Run(HeadersSection, s, blocks).events, p.events + HeaderEvents(r.headers, end),
                 Run(HeadersSection, s, blocks[..j]).events);
    } else if j == |blocks| {
      assert blocks[..j] == blocks;
      ReadHeaders(s, r.headers, end);
    } else {
      LastBatchIsLast(s, r.headers, end);
      RunPrefix(HeadersSection, s, Front(blocks), j);
      assert Front(blocks)[..j] == blocks[..j];
    }
  }

  /* ---------- data ---------- */

  lemma LastChunkIsLast(p: Parser, chunks: seq<Bytes>, end: bool)
    requires chunks != [] && p.Valid() && !p.batchComplete && p.data == []
    ensures |Run(DataSection, p, Front(ChunksBlocks(chunks, end))).events| == |p.events| + |chunks| - 1
  {
    var front, c := Front(chunks), Last(chunks);
    FrontOfConcat(ChunksBlocks(front, false), StringBlocks(Stored(c)), Delimiter(end));
    RunConcat(DataSection, p, ChunksBlocks(front, false), StringBlocks(Stored(c)));
    ReadData(p, front, false);
    ReadRestOfChunk(Run(DataSection, p, ChunksBlocks(front, false)), Stored(c));
  }

  lemma CutChunkDiffers(events: seq<Event>, chunks: seq<Bytes>, end: bool)
    requires !GoodChunks(chunks)
    ensures Differs(events + DataEvents(StoredChunks(chunks), end), events + DataEvents(chunks, end))
  {
    var c :| c in chunks && |c| > UINT32_LIMIT;
    var j :| 0 <= j < |chunks| && chunks[j] == c;
    var n := |events| + j;
    assert (events + DataEvents(StoredChunks(chunks), end))[n].data == Stored(c);
    assert (events + DataEvents(chunks, end))[n].data == c;
  }

  lemma BadChunks(p: Parser, chunks: seq<Bytes>, end: bool)
    requires p.Valid() && !p.batchComplete && p.data == [] && !GoodChunks(chunks)
    ensures Differs(Run(DataSection, p, ChunksBlocks(chunks, end)).events, p.events + DataEvents(chunks, end))
  {
    ReadData(p, chunks, end);
    CutChunkDiffers(p.events, chunks, end);
  }

  lemma DataExact(p: Parser, r: Response, i: nat)
    requires WellOrdered(r) && r.chunks != [] && p.AtRest() && i <= |SectionBlocks(r, DataSection)|
    ensures var h := AfterHeaders(p, r); var d := Run(DataSection, h, SectionBlocks(r, DataSection)[..i]);
            && (d.events == h.events + DataEvents(r.chunks, r.trailers == [])
                <==> GoodChunks(r.chunks) && i == |SectionBlocks(r, DataSection)|)
            && (GoodChunks(r.chunks) && i == |SectionBlocks(r, DataSection)| ==> d == AfterData(p, r))
  {
    var h, blocks := AfterHeaders(p, r), SectionBlocks(r, DataSection);
    if !GoodChunks(r.chunks) {
      BadChunks(h, r.chunks, r.trailers == []);
      RunPrefix(DataSection, h, blocks, i);
      NeverEqual(Run(DataSection, h, blocks).events, h.events + DataEvents(r.chunks, r.trailers == []),
                 Run(DataSection, h, blocks[..i]).events);
    } else if i == |blocks| {
      assert blocks[..i] == blocks;
      DataRoundTrip(p, r);
    } else {
      LastChunkIsLast(h, r.chunks, r.trailers == []);
      RunPrefix(DataSection, h, Front(blocks), i);
      assert Front(blocks)[..i] == blocks[..i];
    }
  }

  /* ---------- trailers ---------- */

  ghost function TrailersBack(p: Parser, trailers: seq<FieldMap>): seq<Event> {
    p.events + (TrailerEvents(trailers) + [EncodeTrailers([])])
  }

  // If the section can be read and is within reach, the loop ends at its last block.
  lemma TrailersEnd(reach: nat, p: Parser, trailers: seq<FieldMap>)
    requires trailers != [] && GoodBatches(trailers) && BetweenFields(p) && p.fields == [] && !p.endStream
    requires |BatchesBlocks(trailers, false) + [Ones()]| <= reach
    ensures var blocks := BatchesBlocks(trailers, false) + [Ones()];
            && EndsAt(reach, blocks, p, 0, |blocks| - 1)
            && At(reach, blocks, p, 0, |blocks|)
               == p.(events := TrailersBack(p, trailers), endStream := true)
  {
    var all := BatchesBlocks(trailers, false);
    var blocks := all + [Ones()];
    ReadTrailers(p, trailers);
    ReadTrailerBatches(p, trailers);
    assert blocks[..|blocks|] == blocks && blocks[..|all|] == all;
  }

  // Trailers that cannot be stored come back different, wherever the loop ends.
  lemma BadTrailersDiffer(reach: nat, p: Parser, trailers: seq<FieldMap>, k: nat, a: nat)
    requires !GoodBatches(trailers) && BetweenFields(p) && p.fields == [] && !p.endStream
    requires EndsAt(reach, BatchesBlocks(trailers, false) + [Ones()], p, k, a)
    requires k == 0 || reach == |BatchesBlocks(trailers, false) + [Ones()]|
    ensures At(reach, BatchesBlocks(trailers, false) + [Ones()], p, k, a + 1).events != TrailersBack(p, trailers)
  {
    var all := BatchesBlocks(trailers, false);
    var blocks := all + [Ones()];
    var part, full := At(reach, blocks, p, k, a + 1), Run(TrailersSection, p, all);
    BadBatches(TrailersSection, p, trailers, false);
    Assoc(p.events, TrailerEvents(trailers), [EncodeTrailers([])]);
    RunConcat(TrailersSection, p, all, [Ones()]);
    RunMonotone(TrailersSection, full, [Ones()]);
    DiffersExtends(full.events, p.events + TrailerEvents(trailers),
                   Run(TrailersSection, p, blocks).events, TrailersBack(p, trailers));
    if k == 0 {
      RunPrefix(TrailersSection, p, blocks, a + 1);
    } else {
      assert blocks[..reach] == blocks;
      LaterPasses(reach, blocks, p, k);
      RunMonotone(TrailersSection, Pass(reach, blocks, p, k), blocks[..a + 1]);
    }
    NeverEqual(Run(TrailersSection, p, blocks).events, TrailersBack(p, trailers), part.events);
  }

  lemma {:induction false} LaterPasses(reach: nat, blocks: seq<Message>, p: Parser, k: nat)
    requires p.Valid() && 0 < k && reach <= |blocks|
    ensures Run(TrailersSection, p, blocks[..reach]).events <= Pass(reach, blocks, p, k).events
  {
    if k > 1 {
      LaterPasses(reach, blocks, p, k - 1);
      RunMonotone(TrailersSection, Pass(reach, blocks, p, k - 1), blocks[..reach]);
    } else {
      assert Pass(reach, blocks, p, 0) == p;
    }
  }

  // No earlier block of good trailers ends the stream in the first pass.
  lemma NoEarlyEnd(reach: nat, p: Parser, trailers: seq<FieldMap>, a: nat)
    requires GoodBatches(trailers) && BetweenFields(p) && p.fields == [] && !p.endStream
    requires a < |BatchesBlocks(trailers, false)|
    ensures !At(reach, BatchesBlocks(trailers, false) + [Ones()], p, 0, a + 1).endStream
  {
    var all := BatchesBlocks(trailers, false);
    ReadTrailerBatches(p, trailers);
    RunPrefix(TrailersSection, p, all, a + 1);
    assert (all + [Ones()])[..a + 1] == all[..a + 1];
  }

  ghost predicate ComesBack(reach: nat, p: Parser, trailers: seq<FieldMap>)
    requires p.Valid()
  {
    var blocks := BatchesBlocks(trailers, false) + [Ones()];
    exists k: nat, a: nat ::
      EndsAt(reach, blocks, p, k, a) && At(reach, blocks, p, k, a + 1).events == TrailersBack(p, trailers)
  }

  // The trailers come back exactly if they are storable and within reach of the cursor.
  lemma TrailersIff(reach: nat, p: Parser, trailers: seq<FieldMap>)
    requires trailers != [] && BetweenFields(p) && p.fields == [] && !p.endStream && 3 * LONGEST < reach
    ensures ComesBack(reach, p, trailers)
       <==> GoodBatches(trailers) && |BatchesBlocks(trailers, false) + [Ones()]| <= reach
  {
    var blocks := BatchesBlocks(trailers, false) + [Ones()];
    if GoodBatches(trailers) && |blocks| <= reach {
      TrailersEnd(reach, p, trailers);
      assert EndsAt(reach, blocks, p, 0, |blocks| - 1);
    } else if ComesBack(reach, p, trailers) {
      var k: nat, a: nat :| EndsAt(reach, blocks, p, k, a)
                            && At(reach, blocks, p, k, a + 1).events == TrailersBack(p, trailers);
      if |blocks| > reach && k > 0 {
        TooLong(reach, trailers, p, k, a);
      } else if GoodBatches(trailers) {
        NoEarlyEnd(reach, p, trailers, a);
      } else {
        BadTrailersDiffer(reach, p, trailers, k, a);
      }
    }
  }

  /* ---------- the whole response ---------- */

  predicate OfSection(section: Section, e: Event) {
    match section
    case HeadersSection => e.EncodeHeaders?
    case DataSection => e.EncodeData?
    case TrailersSection => e.EncodeTrailers?
  }

  // The callbacks from `from` on are those of one section.
  ghost predicate Only(section: Section, events: seq<Event>, from: nat, to: nat) {
    from <= to <= |events| && forall i :: from <= i < to ==> OfSection(section, events[i])
  }

  lemma {:induction false} RunOnly(section: Section, p: Parser, ms: seq<Message>)
    requires p.Valid()
    ensures p.events <= Run(section, p, ms).events
    ensures Only(section, Run(section, p, ms).events, |p.events|, |Run(section, p, ms).events|)
  {
    if ms != [] {
      RunOnly(section, p, Front(ms));
    }
  }

  lemma {:induction false} PassOnly(reach: nat, blocks: seq<Message>, p: Parser, k: nat)
    requires p.Valid() && (k == 0 || reach <= |blocks|)
    ensures p.events <= Pass(reach, blocks, p, k).events
    ensures Only(TrailersSection, Pass(reach, blocks, p, k).events, |p.events|, |Pass(reach, blocks, p, k).events|)
  {
    if k > 0 {
      PassOnly(reach, blocks, p, k - 1);
      RunOnly(TrailersSection, Pass(reach, blocks, p, k - 1), blocks[..reach]);
    }
  }

  lemma TrailersOnly(capacity: nat, d: Parser, blocks: seq<Message>, q: Parser)
    requires d.Valid() && TrailersRead(capacity, d, blocks, q)
    ensures d.events <= q.events && Only(TrailersSection, q.events, |d.events|, |q.events|)
  {
    var k, a := EndOf(capacity, d, blocks, q);
    PassOnly(Reach(capacity), blocks, d.(fields := []), k);
    RunOnly(TrailersSection, Pass(Reach(capacity), blocks, d.(fields := []), k), blocks[..a + 1]);
  }

  predicate KindAt(section: Section, events: seq<Event>, i: nat) {
    i < |events| && OfSection(section, events[i])
  }

  // Of callbacks in the order of the sections, those of one section are told by their kind.
  lemma Boundary(section: Section, base: seq<Event>, events: seq<Event>, cut: nat, mine: seq<Event>, rest: seq<Event>)
    requires Only(section, events, |base|, cut) && events == base + mine + rest
    requires forall i :: cut <= i < |events| ==> !OfSection(section, events[i])
    requires forall e :: e in mine ==> OfSection(section, e)
    requires forall e :: e in rest ==> !OfSection(section, e)
    ensures events[..cut] == base + mine
  {
    var n := |base| + |mine|;
    forall i: nat | |base| <= i < n ensures KindAt(section, events, i) {
      assert events[i] == mine[i - |base|];
    }
    forall i: nat | n <= i ensures !KindAt(section, events, i) {
      assert i < |events| ==> events[i] == rest[i - n];
    }
    assert !KindAt(section, events, cut);
    assert n < cut ==> KindAt(section, events, n);
    assert events[..n] == base + mine;
  }

  ghost function TailEvents(r: Response): seq<Event> {
    if r.trailers == [] then [] else TrailerEvents(r.trailers) + [EncodeTrailers([])]
  }

  lemma ResponseParts(e: seq<Event>, r: Response)
    ensures e + ResponseEvents(r)
         == e + HeaderEvents(r.headers, r.chunks == [] && r.trailers == [])
            + (DataEvents(r.chunks, r.trailers == []) + TailEvents(r))
    ensures forall x :: x in HeaderEvents(r.headers, r.chunks == [] && r.trailers == []) ==> x.EncodeHeaders?
    ensures forall x :: x in DataEvents(r.chunks, r.trailers == []) ==> x.EncodeData?
    ensures forall x :: x in TailEvents(r) ==> x.EncodeTrailers?
  {
  }

  ghost function HeadersUpTo(p: Parser, r: Response, j: nat): (h: Parser)
    requires p.Valid() && j <= |SectionBlocks(r, HeadersSection)|
    ensures h.Valid()
  {
    Run(HeadersSection, p.(fields := [], endStream := false), SectionBlocks(r, HeadersSection)[..j])
  }

  ghost function DataUpTo(h: Parser, r: Response, i: nat): (d: Parser)
    requires h.Valid() && i <= |SectionBlocks(r, DataSection)|
    ensures d.Valid()
  {
    Run(DataSection, h, SectionBlocks(r, DataSection)[..i])
  }

  // What is made after the headers loop is no header callback.
  lemma AfterTheHeaders(capacity: nat, r: Response, j: nat, i: nat, p: Parser, q: Parser)
    requires p.Valid() && ReadsTo(capacity, r, j, i, p, q)
    ensures var h := HeadersUpTo(p, r, j);
            && h.events <= q.events && Only(HeadersSection, q.events, |p.events|, |h.events|)
            && forall k :: |h.events| <= k < |q.events| ==> !OfSection(HeadersSection, q.events[k])
  {
    var h := HeadersUpTo(p, r, j);
    RunOnly(HeadersSection, p.(fields := [], endStream := false), SectionBlocks(r, HeadersSection)[..j]);
    if !h.endStream {
      var d := DataUpTo(h, r, i);
      RunOnly(DataSection, h, SectionBlocks(r, DataSection)[..i]);
      if !d.endStream {
        TrailersOnly(capacity, d, SectionBlocks(r, TrailersSection), q);
      }
    }
  }

  lemma AfterTheData(capacity: nat, r: Response, j: nat, i: nat, p: Parser, q: Parser)
    requires p.Valid() && ReadsTo(capacity, r, j, i, p, q) && !HeadersUpTo(p, r, j).endStream
    ensures var h := HeadersUpTo(p, r, j); var d := DataUpTo(h, r, i);
            && d.events <= q.events && Only(DataSection, q.events, |h.events|, |d.events|)
            && forall k :: |d.events| <= k < |q.events| ==> !OfSection(DataSection, q.events[k])
  {
    var h := HeadersUpTo(p, r, j);
    var d := DataUpTo(h, r, i);
    RunOnly(DataSection, h, SectionBlocks(r, DataSection)[..i]);
    if !d.endStream {
      TrailersOnly(capacity, d, SectionBlocks(r, TrailersSection), q);
    }
  }

  lemma HeadersCameBack(capacity: nat, r: Response, j: nat, i: nat, p: Parser, q: Parser)
    requires r.headers != [] && p.AtRest()
    requires ReadsTo(capacity, r, j, i, p, q) && q.events == p.events + ResponseEvents(r)
    ensures GoodBatches(r.headers) && j == |SectionBlocks(r, HeadersSection)|
    ensures HeadersUpTo(p, r, j) == AfterHeaders(p, r)
  {
    AfterTheHeaders(capacity, r, j, i, p, q);
    ResponseParts(p.events, r);
    var h := HeadersUpTo(p, r, j);
    Boundary(HeadersSection, p.events, q.events, |h.events|,
             HeaderEvents(r.headers, r.chunks == [] && r.trailers == []),
             DataEvents(r.chunks, r.trailers == []) + TailEvents(r));
    assert q.events[..|h.events|] == h.events;
    HeadersExact(p, r, j);
  }

  lemma DataCameBack(capacity: nat, r: Response, j: nat, i: nat, p: Parser, q: Parser)
    requires WellOrdered(r) && p.AtRest() && r.chunks != []
    requires ReadsTo(capacity, r, j, i, p, q) && q.events == p.events + ResponseEvents(r)
    ensures GoodChunks(r.chunks) && i == |SectionBlocks(r, DataSection)|
    ensures HeadersUpTo(p, r, j) == AfterHeaders(p, r) && DataUpTo(AfterHeaders(p, r), r, i) == AfterData(p, r)
  {
    HeadersCameBack(capacity, r, j, i, p, q);
    AfterTheData(capacity, r, j, i, p, q);
    ResponseParts(p.events, r);
    var h := AfterHeaders(p, r);
    var d := DataUpTo(h, r, i);
    Assoc(h.events, DataEvents(r.chunks, r.trailers == []), TailEvents(r));
    Boundary(DataSection, h.events, q.events, |d.events|, DataEvents(r.chunks, r.trailers == []), TailEvents(r));
    assert q.events[..|d.events|] == d.events;
    DataExact(p, r, i);
  }

  // The three sections fit the 32-bit counters and the 32-bit cursor.
  predicate Fits(capacity: nat, r: Response) {
    Countable(r) && |SectionBlocks(r, TrailersSection)| <= Reach(capacity)
  }

  lemma TrailersCameBack(capacity: nat, r: Response, j: nat, i: nat, p: Parser, q: Parser)
    requires WellOrdered(r) && p.AtRest() && r.trailers != [] && capacity > 0
    requires ReadsTo(capacity, r, j, i, p, q) && q.events == p.events + ResponseEvents(r)
    ensures GoodBatches(r.trailers) && |SectionBlocks(r, TrailersSection)| <= Reach(capacity)
  {
    DataCameBack(capacity, r, j, i, p, q);
    JoinEvents(p.events, r);
    var d := AfterData(p, r);
    assert d.(fields := []) == d;
    TrailersIff(Reach(capacity), d, r.trailers);
  }

  // Whatever number of blocks it reads of each section, a consumer that ends with the callbacks of
  // the response has read the first two sections whole, and the response could be stored.
  lemma OnlyWholeSections(capacity: nat, r: Response, j: nat, i: nat, p: Parser, q: Parser)
    requires WellOrdered(r) && p.AtRest() && capacity > 0
    requires ReadsTo(capacity, r, j, i, p, q) && q.events == p.events + ResponseEvents(r)
    ensures Storable(r) && j == |SectionBlocks(r, HeadersSection)| && i == |SectionBlocks(r, DataSection)|
    ensures |SectionBlocks(r, TrailersSection)| <= Reach(capacity)
  {
    HeadersCameBack(capacity, r, j, i, p, q);
    if r.chunks != [] {
      DataCameBack(capacity, r, j, i, p, q);
      if r.trailers != [] {
        TrailersCameBack(capacity, r, j, i, p, q);
      }
    }
  }

  lemma ServesFitting(capacity: nat, r: Response, p: Parser)
    requires WellOrdered(r) && Storable(r) && Fits(capacity, r) && p.AtRest()
    ensures Serves(capacity, r, p, p.(events := p.events + ResponseEvents(r), endStream := true))
  {
    CountedWhole(SectionBlocks(r, HeadersSection));
    CountedWhole(SectionBlocks(r, DataSection));
    assert p.(fields := [], endStream := false) == p.(endStream := false);
    HeadersRoundTrip(p, r);
    JoinEvents(p.events, r);
    if r.chunks != [] {
      DataRoundTrip(p, r);
      if r.trailers != [] {
        var d, blocks := AfterData(p, r), SectionBlocks(r, TrailersSection);
        assert d.(fields := []) == d;
        TrailersEnd(Reach(capacity), d, r.trailers);
        assert EndsAt(Reach(capacity), blocks, d, 0, |blocks| - 1);
      }
    }
  }

  // A consumer at rest is done with a finished entry and has made exactly the callbacks of the
  // response if and only if the response is storable and its sections fit the counters and the cursor.
  lemma ServesIff(capacity: nat, r: Response, p: Parser)
    requires WellOrdered(r) && p.AtRest() && capacity > 0
    ensures (exists q :: Serves(capacity, r, p, q) && q.events == p.events + ResponseEvents(r))
       <==> Storable(r) && Fits(capacity, r)
  {
    if Storable(r) && Fits(capacity, r) {
      ServesFitting(capacity, r, p);
    }
    if q :| Serves(capacity, r, p, q) && q.events == p.events + ResponseEvents(r) {
      ServesReads(capacity, r, p, q);
      OnlyWholeSections(capacity, r, Wrap(|SectionBlocks(r, HeadersSection)|), Wrap(|SectionBlocks(r, DataSection)|),
                        p, q);
    }
  }

  /* ---------- responses that do not fit ---------- */

  function EmptyBatches(n: nat): seq<FieldMap> {
    seq(n, i => [])
  }

  lemma {:induction false} EmptyBatchesSize(n: nat)
    ensures HeadersSize(EmptyBatches(n)) == n && GoodBatches(EmptyBatches(n))
  {
    if n > 0 {
      EmptyBatchesSize(n - 1);
      assert Front(EmptyBatches(n)) == EmptyBatches(n - 1);
    }
  }

  // 2^32 empty header batches: the published count is zero, and a consumer goes on to the data
  // section with no callback made and waits there for ever.
  lemma WrappedCount(capacity: nat, p: Parser, q: Parser)
    requires p.AtRest()
    ensures var r := Response(EmptyBatches(UINT32_LIMIT), [], []);
            && WellOrdered(r) && Storable(r) && !Countable(r)
            && HeadersRead(p, r).events == p.events && !Serves(capacity, r, p, q)
  {
    var r := Response(EmptyBatches(UINT32_LIMIT), [], []);
    EmptyBatchesSize(UINT32_LIMIT);
    HeadersHaveSize(r.headers, true);
    assert CountedBlocks(SectionBlocks(r, HeadersSection)) == [];
  }

  // One more trailer block than the cursor can reach: the loop starts over at the first buffer.
  lemma BeyondReach(capacity: nat, p: Parser, q: Parser)
    requires p.AtRest() && capacity > 0
    ensures var r := Response([[]], [[]], EmptyBatches(Reach(capacity)));
            && WellOrdered(r) && Storable(r) && Countable(r)
            && !(Serves(capacity, r, p, q) && q.events == p.events + ResponseEvents(r))
  {
    var r := Response([[]], [[]], EmptyBatches(Reach(capacity)));
    EmptyBatchesSize(Reach(capacity));
    HeadersHaveSize(r.trailers, false);
    HeadersHaveSize(r.headers, false);
    DataHasSize(r.chunks, false);
    ServesIff(capacity, r, p);
  }
}
