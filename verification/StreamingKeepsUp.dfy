/**
 What is committed is handed on: in every run a consumer passes a block a bounded number of its
 turns after it was committed, and so hands each batch and each chunk downstream while the rest of
 the response is still on its way.
 */
module StreamingKeepsUp {
  import opened Blocks
  import opened BlockCodec
  import opened BlockCodecProofs
  import opened BlockCodecExact
  import opened EntryProgram
  import opened RingBuffer
  import opened FinishedEntry
  import opened Streaming
  import opened StreamingInvariant
  import opened StreamingReaders
  import opened StreamingRuns
  import opened StreamingSafety
  import opened StreamingProgress

  function Rank(section: Section): nat {
    match section
    case HeadersSection => 0
    case DataSection => 1
    case TrailersSection => 2
  }

  // The consumer has read the first n blocks of the section, or is through with it.
  predicate Past(c: nat, r: Reader, section: Section, n: nat) {
    || r.pc.Done?
    || (InLoop(r.pc) && r.pc.section == section && Cursor(c, r) >= n)
    || (InLoop(r.pc) && Rank(r.pc.section) > Rank(section))
  }

  // The first n blocks of a section, and all that comes before them.
  function SupplyUpTo(s: Sections, section: Section, n: nat): Supply {
    match section
    case HeadersSection => Supply(n, false, 0, false, 0)
    case DataSection => Supply(|s.headers|, true, n, false, 0)
    case TrailersSection => Supply(|s.headers|, true, |s.data|, true, n)
  }

  function BlocksBefore(s: Sections, section: Section): nat {
    match section
    case HeadersSection => 0
    case DataSection => |s.headers|
    case TrailersSection => |s.headers| + |s.data|
  }

  // Turns that are enough to read n blocks of a section from the beginning of the entry.
  function TurnsUpTo(s: Sections, section: Section, n: nat): nat {
    100 * (BlocksBefore(s, section) + n + 3)
  }

  lemma CommittedIsSupplied(s: Sections, m: Memory, w: Writer, section: Section, n: nat)
    requires Fitting(m.capacity, s) && CountsOk(s, m, w) && 0 < n <= Written(s, section, w.next)
    ensures Supplied(s, m, w, SupplyUpTo(s, section, n))
  {
  }

  lemma CaughtUpIsPast(s: Sections, c: nat, r: Reader, section: Section, n: nat)
    requires CaughtUp(SupplyUpTo(s, section, n), c, r)
    ensures Past(c, r, section, n)
  {
  }

  // If n blocks of a section are committed at some moment, a consumer has passed them after a number
  // of its turns that depends on those blocks only, whatever the others do and whether or not the
  // producer moves any more.
  lemma CursorKeepsUp(
    r: Response, capacity: nat, st0: State, schedule: seq<Actor>, more: seq<Actor>, id: nat,
    section: Section, n: nat)
    requires WellOrdered(r) && Storable(r) && Fits(capacity, r) && capacity > 0
    requires Initial(capacity, st0) && id in st0.readers && Rested(st0.readers[id]) && ParsersValid(st0)
    requires 0 < n <= Committed(SectionsOf(r), Exec(Program(r), st0, schedule), section)
    requires Turns(more, Consumer(id)) >= TurnsUpTo(SectionsOf(r), section, n)
    ensures id in Exec(Program(r), st0, schedule + more).readers
    ensures Past(capacity, Exec(Program(r), st0, schedule + more).readers[id], section, n)
  {
    var s, p := SectionsOf(r), StartOf(st0.readers[id]);
    RestedReads(capacity, r, st0, id);
    EveryState(s, st0, schedule);
    EveryStateOf(s, p, st0, schedule, id);
    SameReaders(Program(r), st0, schedule);
    var st := Exec(Program(r), st0, schedule);
    CommittedIsSupplied(s, st.memory, st.writer, section, n);
    CatchesUp(s, p, SupplyUpTo(s, section, n), st, more, id);
    ExecConcat(Program(r), st0, schedule, more);
    CaughtUpIsPast(s, capacity, Exec(Program(r), st, more).readers[id], section, n);
  }

  /* ---------- in terms of the callbacks ---------- */

  lemma ReadMore(s: Sections, p: Parser, section: Section, n: nat, k: nat)
    requires p.Valid() && n <= k <= |s.Of(section)|
    ensures ReadUpTo(s, p, section, n).events <= ReadUpTo(s, p, section, k).events
  {
    var blocks := s.Of(section);
    assert blocks[..k] == blocks[..n] + blocks[n..k];
    RunConcat(section, Entry(s, p, section), blocks[..n], blocks[n..k]);
    RunMonotone(section, ReadUpTo(s, p, section, n), blocks[n..k]);
  }

  // What has been read of a section is part of what the next one starts with.
  lemma ReadBefore(s: Sections, p: Parser, section: Section, n: nat, later: Section)
    requires p.Valid() && n <= |s.Of(section)| && Rank(section) < Rank(later)
    ensures ReadUpTo(s, p, section, n).events <= Entry(s, p, later).events
  {
    ReadMore(s, p, section, n, |s.Of(section)|);
    assert s.Of(section)[..|s.Of(section)|] == s.Of(section);
    RunMonotone(DataSection, Entry(s, p, DataSection), s.data);
  }

  lemma PastGives(s: Sections, p: Parser, m: Memory, w: Writer, r: Reader, section: Section, n: nat)
    requires p.Valid() && Follows(s, p, m, w, r) && Past(m.capacity, r, section, n)
    requires Entered(s, p, section) && n <= |s.Of(section)|
    ensures ReadUpTo(s, p, section, n).events <= r.parser.events
  {
    if r.pc.Done? {
      PrefixOfFinal(s, p, section, n);
    } else if r.pc.section == section {
      ReadMore(s, p, section, n, Cursor(m.capacity, r));
    } else {
      ReadBefore(s, p, section, n, r.pc.section);
      PrefixOfSection(s, p, r.pc.section, Cursor(m.capacity, r));
    }
  }

  lemma PrefixOfSection(s: Sections, p: Parser, section: Section, k: nat)
    requires p.Valid() && k <= |s.Of(section)|
    ensures Entry(s, p, section).events <= ReadUpTo(s, p, section, k).events
  {
    Continues(s, p, section, k);
  }

  // The blocks of the first j batches or chunks of a section.
  function BlocksOf(r: Response, section: Section, j: nat): seq<Message>
    requires j <= Items(r, section)
  {
    match section
    case HeadersSection =>
      BatchesBlocks(r.headers[..j], r.chunks == [] && r.trailers == [] && j == |r.headers|)
    case DataSection => ChunksBlocks(r.chunks[..j], r.trailers == [] && j == |r.chunks|)
    case TrailersSection => BatchesBlocks(r.trailers[..j], false)
  }

  function Items(r: Response, section: Section): nat {
    match section
    case HeadersSection => |r.headers|
    case DataSection => |r.chunks|
    case TrailersSection => |r.trailers|
  }

  // The callbacks up to the first j batches or chunks of a section.
  function EventsOf(r: Response, section: Section, j: nat): seq<Event>
    requires j <= Items(r, section)
  {
    var h := HeaderEvents(r.headers, r.chunks == [] && r.trailers == []);
    var d := DataEvents(r.chunks, r.trailers == []);
    match section
    case HeadersSection => h[..j]
    case DataSection => h + d[..j]
    case TrailersSection => h + d + TrailerEvents(r.trailers)[..j]
  }

  lemma {:induction false} BatchesPrefix(batches: seq<FieldMap>, end: bool, j: nat)
    requires j <= |batches|
    ensures BatchesBlocks(batches[..j], end && j == |batches|) <= BatchesBlocks(batches, end)
  {
    if j == |batches| {
      assert batches[..j] == batches;
    } else {
      BatchesPrefix(Front(batches), false, j);
      assert Front(batches)[..j] == batches[..j];
    }
  }

  lemma {:induction false} ChunksPrefix(chunks: seq<Bytes>, end: bool, j: nat)
    requires j <= |chunks|
    ensures ChunksBlocks(chunks[..j], end && j == |chunks|) <= ChunksBlocks(chunks, end)
  {
    if j == |chunks| {
      assert chunks[..j] == chunks;
    } else {
      ChunksPrefix(Front(chunks), false, j);
      assert Front(chunks)[..j] == chunks[..j];
    }
  }

  lemma BlocksArePrefix(r: Response, section: Section, j: nat)
    requires WellOrdered(r) && j <= Items(r, section)
    ensures BlocksOf(r, section, j) <= SectionBlocks(r, section)
  {
    match section
    case HeadersSection => BatchesPrefix(r.headers, r.chunks == [] && r.trailers == [], j);
    case DataSection => ChunksPrefix(r.chunks, r.trailers == [], j);
    case TrailersSection => BatchesPrefix(r.trailers, false, j);
  }

  lemma GoodPrefix(batches: seq<FieldMap>, j: nat)
    requires GoodBatches(batches) && j <= |batches|
    ensures GoodBatches(batches[..j])
  {
    forall b, f | b in batches[..j] && f in b ensures GoodField(f) {
      assert b in batches;
    }
  }

  lemma FirstHeaders(p: Parser, r: Response, j: nat)
    requires Storable(r) && Fresh(p) && j <= |r.headers|
    ensures Run(HeadersSection, p, BlocksOf(r, HeadersSection, j)).events == p.events + EventsOf(r, HeadersSection, j)
  {
    var end := r.chunks == [] && r.trailers == [];
    GoodPrefix(r.headers, j);
    ReadHeaders(p, r.headers[..j], end && j == |r.headers|);
    assert HeaderEvents(r.headers[..j], end && j == |r.headers|) == HeaderEvents(r.headers, end)[..j];
  }

  lemma FirstChunks(p: Parser, r: Response, j: nat)
    requires WellOrdered(r) && Storable(r) && Fresh(p) && j <= |r.chunks|
    ensures Run(DataSection, AfterHeaders(p, r), BlocksOf(r, DataSection, j)).events
         == p.events + EventsOf(r, DataSection, j)
  {
    var end := r.trailers == [] && j == |r.chunks|;
    ReadData(AfterHeaders(p, r), r.chunks[..j], end);
    GoodChunksAreStored(r.chunks);
    StoredPrefix(r.chunks, j);
    assert DataEvents(r.chunks[..j], end) == DataEvents(r.chunks, r.trailers == [])[..j];
    Assoc(p.events, HeaderEvents(r.headers, r.chunks == [] && r.trailers == []),
          DataEvents(r.chunks, r.trailers == [])[..j]);
  }

  lemma StoredPrefix(chunks: seq<Bytes>, j: nat)
    requires j <= |chunks| && StoredChunks(chunks) == chunks
    ensures StoredChunks(chunks[..j]) == chunks[..j]
  {
    forall i | 0 <= i < j ensures Stored(chunks[i]) == chunks[i] {
      assert StoredChunks(chunks)[i] == Stored(chunks[i]);
    }
  }

  lemma FirstTrailers(p: Parser, r: Response, j: nat)
    requires WellOrdered(r) && Storable(r) && Fresh(p) && j <= |r.trailers|
    ensures Run(TrailersSection, AfterData(p, r), BlocksOf(r, TrailersSection, j)).events
         == p.events + EventsOf(r, TrailersSection, j)
  {
    GoodPrefix(r.trailers, j);
    ReadTrailerBatches(AfterData(p, r), r.trailers[..j]);
    assert TrailerEvents(r.trailers[..j]) == TrailerEvents(r.trailers)[..j];
    AllOf(p.events, HeaderEvents(r.headers, r.chunks == [] && r.trailers == []),
          DataEvents(r.chunks, r.trailers == []), TrailerEvents(r.trailers)[..j]);
  }

  lemma AllOf(e: seq<Event>, h: seq<Event>, d: seq<Event>, t: seq<Event>)
    ensures e + h + d + t == e + (h + d + t)
  {
  }

  // A section with something in it is entered, with the callbacks of those before it made.
  lemma SectionIsEntered(r: Response, p: Parser, section: Section)
    requires WellOrdered(r) && Storable(r) && Fresh(p) && Items(r, section) > 0
    ensures Entered(SectionsOf(r), p, section)
    ensures Entry(SectionsOf(r), p, section) ==
              match section
              case HeadersSection => p
              case DataSection => AfterHeaders(p, r)
              case TrailersSection => AfterData(p, r)
  {
    assert p.(endStream := false) == p;
    HeadersRoundTrip(p, r);
    if section == TrailersSection {
      TrailersEntry(r, p);
    }
  }

  lemma FirstItems(r: Response, p: Parser, section: Section, j: nat)
    requires WellOrdered(r) && Storable(r) && Fresh(p) && 0 < j <= Items(r, section)
    ensures |BlocksOf(r, section, j)| <= |SectionsOf(r).Of(section)|
    ensures ReadUpTo(SectionsOf(r), p, section, |BlocksOf(r, section, j)|).events == p.events + EventsOf(r, section, j)
  {
    SectionsOfResponse(r);
    SectionIsEntered(r, p, section);
    BlocksArePrefix(r, section, j);
    assert SectionBlocks(r, section)[..|BlocksOf(r, section, j)|] == BlocksOf(r, section, j);
    match section
    case HeadersSection => FirstHeaders(p, r, j);
    case DataSection => FirstChunks(p, r, j);
    case TrailersSection => FirstTrailers(p, r, j);
  }

  lemma SomeBlocks(r: Response, section: Section, j: nat)
    requires 0 < j <= Items(r, section)
    ensures BlocksOf(r, section, j) != []
  {
  }

  // Once the first j header batches, chunks or trailer batches of a section are committed, a consumer
  // has handed them on after a bounded number of its turns, under every schedule and also if nothing
  // more is ever written.
  lemma WhatIsThereIsHandedOn(
    r: Response, capacity: nat, st0: State, schedule: seq<Actor>, more: seq<Actor>, id: nat,
    section: Section, j: nat)
    requires WellOrdered(r) && Storable(r) && Fits(capacity, r) && capacity > 0
    requires Initial(capacity, st0) && id in st0.readers && Rested(st0.readers[id]) && ParsersValid(st0)
    requires 0 < j <= Items(r, section)
    requires |BlocksOf(r, section, j)| <= Committed(SectionsOf(r), Exec(Program(r), st0, schedule), section)
    requires Turns(more, Consumer(id)) >= TurnsUpTo(SectionsOf(r), section, |BlocksOf(r, section, j)|)
    ensures id in Exec(Program(r), st0, schedule + more).readers
    ensures st0.readers[id].parser.events + EventsOf(r, section, j)
         <= Exec(Program(r), st0, schedule + more).readers[id].parser.events
  {
    var s, p, n := SectionsOf(r), StartOf(st0.readers[id]), |BlocksOf(r, section, j)|;
    SomeBlocks(r, section, j);
    CursorKeepsUp(r, capacity, st0, schedule, more, id, section, n);
    RestedReads(capacity, r, st0, id);
    EveryStateOf(s, p, st0, schedule + more, id);
    SameReaders(Program(r), st0, schedule + more);
    FirstItems(r, p, section, j);
    SectionIsEntered(r, p, section);
    var st' := Exec(Program(r), st0, schedule + more);
    PastGives(s, p, st'.memory, st'.writer, st'.readers[id], section, n);
  }
}
