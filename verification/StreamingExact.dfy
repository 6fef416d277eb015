/**
 Every consumer of every run, whatever the response: what it has read when it is done, and for
 exactly which responses that is the response.
 */
module StreamingExact {
  import opened Blocks
  import opened BlockCodec
  import opened BlockCodecProofs
  import opened BlockCodecExact
  import opened TrailerLoop
  import opened FinishedEntry
  import opened EntryProgram
  import opened RingBuffer
  import opened Streaming
  import opened StreamingInvariant
  import opened StreamingReaders
  import opened StreamingRuns

  // With how many blocks read a consumer left the headers and the data, and how often it has gone
  // round the trailers.
  datatype Trail = Trail(headers: nat, data: nat, pass: nat)

  ghost predicate TrailOk(s: Sections, t: Trail) {
    t.headers <= |s.headers| && t.headers <= UINT32_MAX && t.data <= |s.data| && t.data <= UINT32_MAX
  }

  ghost function HeadersLeft(s: Sections, p: Parser, t: Trail): (h: Parser)
    requires p.Valid() && TrailOk(s, t)
    ensures h.Valid()
  {
    Run(HeadersSection, p, s.headers[..t.headers])
  }

  ghost function DataLeft(s: Sections, p: Parser, t: Trail): (d: Parser)
    requires p.Valid() && TrailOk(s, t)
    ensures d.Valid()
  {
    Run(DataSection, HeadersLeft(s, p, t), s.data[..t.data])
  }

  // The parser when k blocks of the section have been read, in this pass over it.
  ghost function ReadOf(c: nat, s: Sections, p: Parser, t: Trail, section: Section, k: nat): (q: Parser)
    requires p.Valid() && TrailOk(s, t) && k <= |s.Of(section)|
    requires section == TrailersSection ==> t.pass == 0 || Reach(c) <= |s.trailers|
    ensures q.Valid()
  {
    match section
    case HeadersSection => Run(HeadersSection, p, s.headers[..k])
    case DataSection => Run(DataSection, HeadersLeft(s, p, t), s.data[..k])
    case TrailersSection => At(Reach(c), s.trailers, DataLeft(s, p, t).(fields := []), t.pass, k)
  }

  ghost predicate Within(c: nat, s: Sections, p: Parser, t: Trail, section: Section)
    requires p.Valid()
  {
    && TrailOk(s, t)
    && (section != HeadersSection ==> !HeadersLeft(s, p, t).endStream)
    && (section == TrailersSection ==>
          !DataLeft(s, p, t).endStream && (t.pass == 0 || Reach(c) <= |s.trailers|))
  }

  // A consumer inside a section.
  ghost predicate OnTrail(s: Sections, p: Parser, t: Trail, m: Memory, w: Writer, r: Reader, section: Section)
    requires p.Valid()
  {
    var c, k := m.capacity, Cursor(m.capacity, r);
    && Within(c, s, p, t, section) && r.bufferIndex < UINT32_LIMIT
    && k <= Written(s, section, w.next) <= |s.Of(section)|
    && r.parser == ReadOf(c, s, p, t, section, k)
    && if section == TrailersSection then !r.parser.endStream
       else r.readCount == k <= UINT32_MAX && (AtBlock(r.pc) ==> k < UINT32_MAX)
  }

  // A consumer that is done.
  ghost predicate Ended(c: nat, s: Sections, p: Parser, t: Trail, q: Parser)
    requires p.Valid()
  {
    TrailOk(s, t) &&
    if HeadersLeft(s, p, t).endStream then q == HeadersLeft(s, p, t)
    else if DataLeft(s, p, t).endStream then q == DataLeft(s, p, t)
    else TrailersRead(c, DataLeft(s, p, t), s.trailers, q)
  }

  ghost predicate Wanders(s: Sections, p: Parser, t: Trail, m: Memory, w: Writer, r: Reader)
    requires p.Valid()
  {
    if r.pc.Begin? then StartOf(r) == p
    else if r.pc.Done? then Ended(m.capacity, s, p, t, r.parser)
    else OnTrail(s, p, t, m, w, r, r.pc.section)
  }

  lemma OthersKeepWandering(
    s: Sections, p: Parser, t: Trail, m: Memory, w: Writer, m': Memory, w': Writer, r: Reader)
    requires p.Valid() && Grew(m, w, m', w') && Wanders(s, p, t, m, w, r)
    ensures Wanders(s, p, t, m', w', r)
  {
  }

  /* ---------- the accesses of the consumer ---------- */

  // The loop over a counted section is left with the blocks read so far, whole or not.
  lemma LeavesOnTrail(s: Sections, p: Parser, t: Trail, m: Memory, w: Writer, r: Reader, section: Section)
    returns (t': Trail)
    requires p.Valid() && OnTrail(s, p, t, m, w, r, section) && Counted(m, r, section)
    ensures Wanders(s, p, t', m, w, LeaveSection(r, section))
  {
    var k := Cursor(m.capacity, r);
    if section == HeadersSection {
      t' := Trail(k, 0, 0);
      assert s.data[..0] == [];
    } else {
      t' := Trail(t.headers, k, 0);
      assert s.trailers[..0] == [];
    }
  }

  lemma ReadOneMoreOf(c: nat, s: Sections, p: Parser, t: Trail, section: Section, k: nat)
    requires p.Valid() && Within(c, s, p, t, section) && k < |s.Of(section)|
    ensures ReadOf(c, s, p, t, section, k + 1) == Step(section, ReadOf(c, s, p, t, section, k), s.Of(section)[k])
  {
    assert Front(s.Of(section)[..k + 1]) == s.Of(section)[..k];
  }

  // The block in hand is the one under the cursor.
  lemma ParsedOf(s: Sections, p: Parser, t: Trail, m: Memory, w: Writer, r: Reader, section: Section)
    requires p.Valid() && OnTrail(s, p, t, m, w, r, section) && Reading(s, m, w, r, section, r.size)
    ensures r.size <= BLOCK_SIZE && r.size <= |r.block|
    ensures Step(section, r.parser, r.block[..r.size])
         == ReadOf(m.capacity, s, p, t, section, Cursor(m.capacity, r) + 1)
  {
    var k := Cursor(m.capacity, r);
    var block := s.Of(section)[k];
    assert block[..|block|] == block;
    ReadOneMoreOf(m.capacity, s, p, t, section, k);
  }

  lemma OneBlockOnTrail(
    s: Sections, p: Parser, t: Trail, m: Memory, w: Writer, r: Reader, r': Reader, section: Section)
    requires p.Valid() && OnTrail(s, p, t, m, w, r, section) && section != TrailersSection && AtBlock(r.pc)
    requires Cursor(m.capacity, r) < Written(s, section, w.next)
    requires Cursor(m.capacity, r') == Cursor(m.capacity, r) + 1 && r'.bufferIndex < UINT32_LIMIT
    requires r'.parser == ReadOf(m.capacity, s, p, t, section, Cursor(m.capacity, r'))
    requires r'.readCount == Wrap(r.readCount + 1) && !AtBlock(r'.pc)
    ensures OnTrail(s, p, t, m, w, r', section)
  {
  }

  lemma ParseCounted(s: Sections, p: Parser, t: Trail, m: Memory, w: Writer, r: Reader, section: Section)
    requires p.Valid() && Sane(s, m, w, r) && r.pc == Parse(section) && section != TrailersSection
    requires OnTrail(s, p, t, m, w, r, section)
    ensures r.parser.Valid() && Wanders(s, p, t, m, w, AfterParse(m.capacity, r, section))
  {
    var c := m.capacity;
    ParsedOf(s, p, t, m, w, r, section);
    IndexInReach(c, r.bufferIndex, r.blockIndex, Cursor(c, r));
    CountedInReach(c, UINT32_MAX);
    CursorMoves(c, r, section, ReadOf(c, s, p, t, section, Cursor(c, r) + 1));
    OneBlockOnTrail(s, p, t, m, w, r, AfterParse(c, r, section), section);
  }

  // Past the last block within reach the next pass begins.
  lemma PassEnds(c: nat, s: Sections, p: Parser, t: Trail)
    requires p.Valid() && Within(c, s, p, t, TrailersSection) && Reach(c) <= |s.trailers|
    ensures ReadOf(c, s, p, t.(pass := t.pass + 1), TrailersSection, 0)
         == ReadOf(c, s, p, t, TrailersSection, Reach(c))
  {
    assert s.trailers[..0] == [];
  }

  lemma ParseLast(s: Sections, p: Parser, t: Trail, m: Memory, w: Writer, r: Reader)
    requires p.Valid() && OnTrail(s, p, t, m, w, r, TrailersSection)
    requires Cursor(m.capacity, r) < |s.trailers| && Cursor(m.capacity, r) < Reach(m.capacity)
    requires ReadOf(m.capacity, s, p, t, TrailersSection, Cursor(m.capacity, r) + 1).endStream
    ensures Ended(m.capacity, s, p, t, ReadOf(m.capacity, s, p, t, TrailersSection, Cursor(m.capacity, r) + 1))
  {
    assert EndsAt(Reach(m.capacity), s.trailers, DataLeft(s, p, t).(fields := []), t.pass, Cursor(m.capacity, r));
  }

  // The cursor goes on to the next block, or round to the first one of another pass.
  lemma ParseMore(s: Sections, p: Parser, t: Trail, m: Memory, w: Writer, r: Reader) returns (t': Trail)
    requires p.Valid() && Sane(s, m, w, r) && r.pc == Parse(TrailersSection) && r.parser.Valid()
    requires OnTrail(s, p, t, m, w, r, TrailersSection) && r.size <= BLOCK_SIZE
    requires var q := ReadOf(m.capacity, s, p, t, TrailersSection, Cursor(m.capacity, r) + 1);
             Step(TrailersSection, r.parser, r.block[..r.size]) == q && !q.endStream
    ensures OnTrail(s, p, t', m, w, AfterParse(m.capacity, r, TrailersSection), TrailersSection)
  {
    var c, k := m.capacity, Cursor(m.capacity, r);
    t' := t;
    IndexInReach(c, r.bufferIndex, r.blockIndex, k);
    if k + 1 == Reach(c) {
      PassEnds(c, s, p, t);
      t' := t.(pass := t.pass + 1);
    } else {
      CursorMoves(c, r, TrailersSection, ReadOf(c, s, p, t, TrailersSection, k + 1));
    }
  }

  lemma ParseTrailers(s: Sections, p: Parser, t: Trail, m: Memory, w: Writer, r: Reader) returns (t': Trail)
    requires p.Valid() && Sane(s, m, w, r) && r.pc == Parse(TrailersSection)
    requires OnTrail(s, p, t, m, w, r, TrailersSection)
    ensures r.parser.Valid() && Wanders(s, p, t', m, w, AfterParse(m.capacity, r, TrailersSection))
  {
    t' := t;
    ParsedOf(s, p, t, m, w, r, TrailersSection);
    if ReadOf(m.capacity, s, p, t, TrailersSection, Cursor(m.capacity, r) + 1).endStream {
      IndexInReach(m.capacity, r.bufferIndex, r.blockIndex, Cursor(m.capacity, r));
      ParseLast(s, p, t, m, w, r);
    } else {
      t' := ParseMore(s, p, t, m, w, r);
    }
  }

  // A block is fetched only below the count, which no counter exceeds.
  lemma OtherwiseOnTrail(s: Sections, p: Parser, t: Trail, m: Memory, w: Writer, r: Reader)
    requires p.Valid() && CountsOk(s, m, w) && Wanders(s, p, t, m, w, r) && InLoop(r.pc) && !r.pc.Parse?
    requires r.pc.LoopTest? ==> !Counted(m, r, r.pc.section)
    ensures r.parser.Valid() && Wanders(s, p, t, m, w, ReaderStep(m, r).1)
  {
    OtherwiseSame(m, r);
  }

  lemma BeginsTrail(s: Sections, p: Parser, m: Memory, w: Writer, r: Reader) returns (t: Trail)
    requires p.Valid() && r.pc.Begin? && StartOf(r) == p
    ensures r.parser.Valid() && Wanders(s, p, t, m, w, ReaderStep(m, r).1)
  {
    t := Trail(0, 0, 0);
    assert s.headers[..0] == [];
  }

  lemma ReaderStepWanders(s: Sections, p: Parser, t: Trail, m: Memory, w: Writer, r: Reader) returns (t': Trail)
    requires p.Valid() && CountsOk(s, m, w) && Sane(s, m, w, r) && Wanders(s, p, t, m, w, r)
    ensures r.parser.Valid() && Wanders(s, p, t', m, w, ReaderStep(m, r).1)
  {
    t' := t;
    if r.pc.Begin? {
      t' := BeginsTrail(s, p, m, w, r);
    } else if r.pc.Parse? {
      if r.pc.section == TrailersSection {
        t' := ParseTrailers(s, p, t, m, w, r);
      } else {
        ParseCounted(s, p, t, m, w, r, r.pc.section);
      }
    } else if r.pc.LoopTest? && Counted(m, r, r.pc.section) {
      t' := LeavesOnTrail(s, p, t, m, w, r, r.pc.section);
    } else if !r.pc.Done? {
      OtherwiseOnTrail(s, p, t, m, w, r);
    }
  }

  /* ---------- every run ---------- */

  ghost predicate WandersIn(s: Sections, p: Parser, t: Trail, st: State, id: nat) {
    id in st.readers && p.Valid() && Wanders(s, p, t, st.memory, st.writer, st.readers[id])
  }

  lemma StepKeepsWandering(s: Sections, p: Parser, t: Trail, st: State, a: Actor, id: nat) returns (t': Trail)
    requires Inv(s, st) && ParsersValid(st) && WandersIn(s, p, t, st, id)
    ensures WandersIn(s, p, t', StepOf(ProgramOf(s), st, a), id)
  {
    var st' := StepOf(ProgramOf(s), st, a);
    StepKeepsInv(s, st, a);
    StepKeepsNames(ProgramOf(s), st, a);
    t' := t;
    if a == Consumer(id) {
      t' := ReaderStepWanders(s, p, t, st.memory, st.writer, st.readers[id]);
    }
    OthersKeepWandering(s, p, t', st.memory, st.writer, st'.memory, st'.writer, st'.readers[id]);
  }

  lemma {:induction false} EveryTrail(s: Sections, p: Parser, st: State, schedule: seq<Actor>, id: nat)
    returns (t: Trail)
    requires Inv(s, st) && ParsersValid(st) && WandersIn(s, p, Trail(0, 0, 0), st, id)
    ensures WandersIn(s, p, t, Exec(ProgramOf(s), st, schedule), id)
  {
    t := Trail(0, 0, 0);
    if schedule != [] {
      EveryState(s, st, Front(schedule));
      t := EveryTrail(s, p, st, Front(schedule), id);
      t := StepKeepsWandering(s, p, t, Exec(ProgramOf(s), st, Front(schedule)), Last(schedule), id);
    }
  }

  lemma EndedReadsTo(c: nat, r: Response, p: Parser, t: Trail, q: Parser)
    requires WellOrdered(r) && Fresh(p) && Ended(c, SectionsOf(r), p, t, q)
    ensures ReadsTo(c, r, t.headers, t.data, p, q)
  {
    SectionsOfResponse(r);
    assert p.(fields := [], endStream := false) == p;
  }

  // In every interleaving, a consumer that is done has made exactly the callbacks of the response
  // if and only if the response is storable and its sections fit the counters and the cursor.
  lemma StreamingIff(r: Response, capacity: nat, st: State, schedule: seq<Actor>, id: nat)
    requires WellOrdered(r) && capacity > 0 && Initial(capacity, st) && id in st.readers && Rested(st.readers[id])
    ensures ParsersValid(st) && id in Exec(Program(r), st, schedule).readers
    ensures var reader := Exec(Program(r), st, schedule).readers[id];
            reader.pc.Done? ==>
              (reader.parser.events == st.readers[id].parser.events + ResponseEvents(r)
               <==> Storable(r) && Fits(capacity, r))
  {
    var s, p := SectionsOf(r), StartOf(st.readers[id]);
    SectionsOfResponse(r);
    InitialIsOk(s, capacity, st);
    var t := EveryTrail(s, p, st, schedule, id);
    SameReaders(Program(r), st, schedule);
    var reader := Exec(Program(r), st, schedule).readers[id];
    if Storable(r) && Fits(capacity, r) {
      StreamingRefinesResponse(r, capacity, st, schedule, id);
    } else if reader.pc.Done? && reader.parser.events == p.events + ResponseEvents(r) {
      EndedReadsTo(capacity, r, p, t, reader.parser);
      OnlyWholeSections(capacity, r, t.headers, t.data, p, reader.parser);
    }
  }
}
