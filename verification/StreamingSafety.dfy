/** The shared memory during every run: block versions, whole reads and published counts. */
module StreamingSafety {
  import opened Blocks
  import opened BlockCodec
  import opened BlockCodecProofs
  import opened EntryProgram
  import opened RingBuffer
  import opened Streaming
  import opened StreamingInvariant
  import opened StreamingReaders
  import opened StreamingRuns

  // A run starts with an empty entry, a producer that will record the sections s, and consumers
  // in any state. Nothing is asked of the sections but that an entry without data has no trailers.
  ghost predicate Started(s: Sections, capacity: nat, st0: State) {
    s.Valid() && capacity > 0 && Initial(capacity, st0)
  }

  ghost function After(s: Sections, st0: State, schedule: seq<Actor>): State
    requires ParsersValid(st0)
  {
    Exec(ProgramOf(s), st0, schedule)
  }

  // Blocks of a section whose version has been stored.
  ghost function Committed(s: Sections, st: State, section: Section): nat {
    Written(s, section, st.writer.next)
  }

  lemma AfterIsOk(s: Sections, capacity: nat, st0: State, schedule: seq<Actor>)
    requires Started(s, capacity, st0)
    ensures ParsersValid(st0) && Inv(s, After(s, st0, schedule))
    ensures After(s, st0, schedule).memory.capacity == capacity
  {
    InitialIsOk(s, capacity, st0);
    EveryState(s, st0, schedule);
    SameReaders(ProgramOf(s), st0, schedule);
  }

  lemma {:induction false} RunGrows(s: Sections, st: State, schedule: seq<Actor>)
    requires Inv(s, st) && ParsersValid(st)
    ensures var st' := Exec(ProgramOf(s), st, schedule); Grew(st.memory, st.writer, st'.memory, st'.writer)
  {
    if schedule != [] {
      var before := Exec(ProgramOf(s), st, Front(schedule));
      RunGrows(s, st, Front(schedule));
      EveryState(s, st, Front(schedule));
      StepKeepsInv(s, before, Last(schedule));
    }
  }

  // Two moments of one run.
  lemma Later(s: Sections, capacity: nat, st0: State, schedule: seq<Actor>, more: seq<Actor>)
    requires Started(s, capacity, st0)
    ensures ParsersValid(st0) && Inv(s, After(s, st0, schedule)) && Inv(s, After(s, st0, schedule + more))
    ensures After(s, st0, schedule).memory.capacity == capacity
    ensures var st, st' := After(s, st0, schedule), After(s, st0, schedule + more);
            Grew(st.memory, st.writer, st'.memory, st'.writer)
  {
    AfterIsOk(s, capacity, st0, schedule);
    AfterIsOk(s, capacity, st0, schedule + more);
    ExecConcat(ProgramOf(s), st0, schedule, more);
    RunGrows(s, After(s, st0, schedule), more);
  }

  /* ---------- versions ---------- */

  // Slot i of buffer q: version zero before the commit of its block; from then on the version
  // is odd and the slot carries the message written there.
  ghost predicate VersionTells(s: Sections, st: State, section: Section, q: nat, i: nat) {
    var k, b := q * st.memory.capacity + i, st.memory.Slot(section, q, i);
    if k < Committed(s, st, section) then k < |s.Of(section)| && Carries(b, s.Of(section)[k]) else b.version == 0
  }

  lemma SlotVersion(s: Sections, ops: seq<Op>, st: State, section: Section, q: nat, i: nat)
    requires WriterOk(s, ops, st.memory, st.writer) && i < st.memory.capacity
    ensures VersionTells(s, st, section, q, i)
  {
    var c, rings := st.memory.capacity, st.memory.Rings(section);
    assert SectionOk(s, ops, st.memory, st.writer, section);
    BaseIsProduct(c, q);
    if q < |rings| {
      assert SlotOk(s.Of(section), Committed(s, st, section), Base(c, q) + i, rings[q].blocks[i]);
    } else {
      BaseMonotone(c, |rings|, q);
    }
  }

  lemma Versions(s: Sections, capacity: nat, st0: State, schedule: seq<Actor>, section: Section, q: nat, i: nat)
    requires Started(s, capacity, st0) && i < capacity
    ensures ParsersValid(st0) && VersionTells(s, After(s, st0, schedule), section, q, i)
  {
    AfterIsOk(s, capacity, st0, schedule);
    SlotVersion(s, ProgramOf(s), After(s, st0, schedule), section, q, i);
  }

  ghost predicate SameMessage(b: Block, b': Block) {
    b'.size == b.size <= |b.data| && b'.size <= |b'.data| && b'.data[..b'.size] == b.data[..b.size]
  }

  lemma StaysReadable(s: Sections, st: State, st': State, section: Section, q: nat, i: nat)
    requires st.memory.capacity == st'.memory.capacity && st.writer.next <= st'.writer.next
    requires VersionTells(s, st, section, q, i) && VersionTells(s, st', section, q, i)
    requires st.memory.Slot(section, q, i).version % 2 == 1
    ensures st'.memory.Slot(section, q, i).version % 2 == 1
    ensures SameMessage(st.memory.Slot(section, q, i), st'.memory.Slot(section, q, i))
  {
  }

  // Once readable, a block stays readable and keeps its one message, whatever versions
  // the readers store and lose.
  lemma ReadableForEver(
    s: Sections, capacity: nat, st0: State, schedule: seq<Actor>, more: seq<Actor>, section: Section, q: nat, i: nat)
    requires Started(s, capacity, st0) && i < capacity && ParsersValid(st0)
    requires After(s, st0, schedule).memory.Slot(section, q, i).version % 2 == 1
    ensures After(s, st0, schedule + more).memory.Slot(section, q, i).version % 2 == 1
    ensures SameMessage(After(s, st0, schedule).memory.Slot(section, q, i),
                        After(s, st0, schedule + more).memory.Slot(section, q, i))
  {
    var st, st' := After(s, st0, schedule), After(s, st0, schedule + more);
    Later(s, capacity, st0, schedule, more);
    SlotVersion(s, ProgramOf(s), st, section, q, i);
    SlotVersion(s, ProgramOf(s), st', section, q, i);
    StaysReadable(s, st, st', section, q, i);
  }

  /* ---------- reads ---------- */

  // The cursor of any consumer is in a buffer that exists.
  lemma CursorInRange(s: Sections, capacity: nat, st0: State, schedule: seq<Actor>, id: nat)
    requires Started(s, capacity, st0) && ParsersValid(st0)
    requires id in After(s, st0, schedule).readers && AtBlock(After(s, st0, schedule).readers[id].pc)
    ensures var st := After(s, st0, schedule); var r := st.readers[id];
            r.blockIndex < capacity && r.current == r.bufferIndex < |st.memory.Rings(r.pc.section)|
  {
    AfterIsOk(s, capacity, st0, schedule);
  }

  // The cursor agrees with the running count, and exactly the blocks before it have been parsed.
  ghost predicate CursorTells(s: Sections, p: Parser, m: Memory, r: Reader, section: Section)
    requires p.Valid()
  {
    var k := r.bufferIndex * m.capacity + r.blockIndex;
    && (section != TrailersSection ==> r.readCount == k)
    && k <= |s.Of(section)| && r.parser == ReadUpTo(s, p, section, k)
  }

  lemma NothingSkipped(s: Sections, capacity: nat, st0: State, schedule: seq<Actor>, id: nat)
    requires Started(s, capacity, st0) && ParsersValid(st0)
    requires id in st0.readers && Servable(capacity, s, StartOf(st0.readers[id]))
    requires id in After(s, st0, schedule).readers && InLoop(After(s, st0, schedule).readers[id].pc)
    ensures var st := After(s, st0, schedule); var r := st.readers[id];
            CursorTells(s, StartOf(st0.readers[id]), st.memory, r, r.pc.section)
  {
    InitialIsOk(s, capacity, st0);
    AfterIsOk(s, capacity, st0, schedule);
    EveryStateOf(s, StartOf(st0.readers[id]), st0, schedule, id);
    BaseIsProduct(capacity, After(s, st0, schedule).readers[id].bufferIndex);
  }

  // A read that found an odd version and copied the block out.
  predicate HasRead(pc: ReaderPc) {
    pc.Acknowledge? || pc.Parse?
  }

  // It holds exactly the size and bytes of the one write to that block.
  ghost predicate HoldsBlock(s: Sections, capacity: nat, r: Reader, section: Section) {
    var k := r.bufferIndex * capacity + r.blockIndex;
    k < |s.Of(section)| && r.size <= |r.block| && r.block[..r.size] == s.Of(section)[k]
  }

  lemma NoTornRead(s: Sections, capacity: nat, st0: State, schedule: seq<Actor>, id: nat)
    requires Started(s, capacity, st0) && ParsersValid(st0)
    requires id in After(s, st0, schedule).readers && HasRead(After(s, st0, schedule).readers[id].pc)
    ensures var r := After(s, st0, schedule).readers[id]; HoldsBlock(s, capacity, r, r.pc.section)
  {
    AfterIsOk(s, capacity, st0, schedule);
    var st := After(s, st0, schedule);
    ReaderHolds(s, st.memory, st.writer, st.readers[id]);
  }

  lemma ReaderHolds(s: Sections, m: Memory, w: Writer, r: Reader)
    requires Sane(s, m, w, r) && HasRead(r.pc)
    ensures HoldsBlock(s, m.capacity, r, r.pc.section)
  {
    BaseIsProduct(m.capacity, r.bufferIndex);
    var message := s.Of(r.pc.section)[Cursor(m.capacity, r)];
    assert message[..|message|] == message;
  }

  /* ---------- counts ---------- */

  // A count that shows is the number of blocks of its section modulo 2^32, all of them committed.
  lemma PublishedCountsAreExact(s: Sections, capacity: nat, st0: State, schedule: seq<Actor>, section: Section)
    requires Started(s, capacity, st0) && ParsersValid(st0) && section != TrailersSection
    requires After(s, st0, schedule).memory.Count(section) != UINT32_MAX
    ensures var st := After(s, st0, schedule);
            && st.memory.Count(section) == Wrap(|s.Of(section)|)
            && |s.Of(section)| == Committed(s, st, section)
  {
    AfterIsOk(s, capacity, st0, schedule);
    CountIsExact(s, After(s, st0, schedule), section);
  }

  lemma CountIsExact(s: Sections, st: State, section: Section)
    requires CountsOk(s, st.memory, st.writer) && section != TrailersSection
    requires st.memory.Count(section) != UINT32_MAX
    ensures st.memory.Count(section) == Wrap(|s.Of(section)|) && |s.Of(section)| == Committed(s, st, section)
  {
  }

  // A count is published once, and no block is added to its section afterwards.
  lemma PublishedCountsAreFinal(
    s: Sections, capacity: nat, st0: State, schedule: seq<Actor>, more: seq<Actor>, section: Section, q: nat, i: nat)
    requires Started(s, capacity, st0) && ParsersValid(st0) && section != TrailersSection && i < capacity
    requires After(s, st0, schedule).memory.Count(section) != UINT32_MAX
    ensures After(s, st0, schedule + more).memory.Count(section) == After(s, st0, schedule).memory.Count(section)
    ensures After(s, st0, schedule + more).memory.Slot(section, q, i).version == 0
       <==> After(s, st0, schedule).memory.Slot(section, q, i).version == 0
  {
    var st, st' := After(s, st0, schedule), After(s, st0, schedule + more);
    Later(s, capacity, st0, schedule, more);
    SlotVersion(s, ProgramOf(s), st, section, q, i);
    SlotVersion(s, ProgramOf(s), st', section, q, i);
    CountStays(s, st, st', section, q, i);
  }

  lemma CountStays(s: Sections, st: State, st': State, section: Section, q: nat, i: nat)
    requires CountsOk(s, st.memory, st.writer) && CountsOk(s, st'.memory, st'.writer)
    requires section != TrailersSection && st.memory.Count(section) != UINT32_MAX
    requires Grew(st.memory, st.writer, st'.memory, st'.writer)
    requires VersionTells(s, st, section, q, i) && VersionTells(s, st', section, q, i)
    ensures st'.memory.Count(section) == st.memory.Count(section)
    ensures st'.memory.Slot(section, q, i).version == 0 <==> st.memory.Slot(section, q, i).version == 0
  {
    CountIsExact(s, st, section);
  }

  // In terms of the response: the sum over its strings of len div 64 + 1, plus one per delimiter.
  lemma PublishedSizes(r: Response, capacity: nat, st0: State, schedule: seq<Actor>)
    requires WellOrdered(r) && capacity > 0 && Initial(capacity, st0)
    ensures ParsersValid(st0)
    ensures var m := Exec(Program(r), st0, schedule).memory;
            && (m.headersCount == UINT32_MAX || m.headersCount == Wrap(HeadersSize(r.headers)))
            && (r.chunks != [] ==> m.dataCount == UINT32_MAX || m.dataCount == Wrap(DataSize(r.chunks)))
  {
    var s := SectionsOf(r);
    SectionsOfResponse(r);
    AfterIsOk(s, capacity, st0, schedule);
    HeadersHaveSize(r.headers, r.chunks == [] && r.trailers == []);
    DataHasSize(r.chunks, r.trailers == []);
    CountsTell(s, After(s, st0, schedule));
  }

  lemma CountsTell(s: Sections, st: State)
    requires CountsOk(s, st.memory, st.writer)
    ensures st.memory.headersCount == UINT32_MAX || st.memory.headersCount == Wrap(|s.headers|)
    ensures st.memory.dataCount == UINT32_MAX || st.memory.dataCount == Wrap(|s.data|)
  {
  }
}
