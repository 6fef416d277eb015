/** What the streaming invariant says of a consumer, and that every access of anybody keeps it. */
module StreamingReaders {
  import opened Blocks
  import opened BlockCodec
  import opened BlockCodecProofs
  import opened EntryProgram
  import opened RingBuffer
  import opened Streaming
  import opened StreamingInvariant

  // The parser as a consumer that starts in state p enters a section, having read the sections before it.
  ghost function Entry(s: Sections, p: Parser, section: Section): (q: Parser)
    requires p.Valid()
    ensures q.Valid()
  {
    match section
    case HeadersSection => p
    case DataSection => Run(HeadersSection, p, s.headers)
    case TrailersSection => Run(DataSection, Run(HeadersSection, p, s.headers), s.data).(fields := [])
  }

  // The parser of a consumer that is done.
  ghost function Final(s: Sections, p: Parser): (q: Parser)
    requires p.Valid()
    ensures q.Valid()
  {
    var h := Entry(s, p, DataSection);
    if h.endStream then h else
    var d := Run(DataSection, h, s.data);
    if d.endStream then d else Run(TrailersSection, Entry(s, p, TrailersSection), s.trailers)
  }

  // The sections before this one have not ended the stream.
  ghost predicate Entered(s: Sections, p: Parser, section: Section)
    requires p.Valid()
  {
    && (section != HeadersSection ==> !Entry(s, p, DataSection).endStream)
    && (section == TrailersSection ==> !Entry(s, p, TrailersSection).endStream)
  }

  // The parser after the first k blocks of a section.
  ghost function ReadUpTo(s: Sections, p: Parser, section: Section, k: nat): (q: Parser)
    requires p.Valid() && k <= |s.Of(section)|
    ensures q.Valid()
  {
    Run(section, Entry(s, p, section), s.Of(section)[..k])
  }

  // Counted sections fit the 32-bit counters, and trailers are within reach of the cursor.
  ghost predicate Fitting(c: nat, s: Sections) {
    s.Valid() && |s.headers| <= UINT32_MAX && |s.data| <= UINT32_MAX && |s.trailers| <= Reach(c)
  }

  // The last trailer block ends the stream, and no other does.
  ghost predicate Servable(c: nat, s: Sections, p: Parser) {
    && Fitting(c, s) && p.Valid()
    && (forall j: nat :: j < |s.trailers| ==> !ReadUpTo(s, p, TrailersSection, j).endStream)
    && (s.trailers != [] ==> ReadUpTo(s, p, TrailersSection, |s.trailers|).endStream)
  }

  // The state in which a consumer begins to read.
  function StartOf(r: Reader): Parser {
    r.parser.(fields := [], endStream := false)
  }

  // Number of the block under the consumer's cursor.
  function Cursor(c: nat, r: Reader): nat {
    Base(c, r.bufferIndex) + r.blockIndex
  }

  /* ---------- what any consumer knows of the memory ---------- */

  ghost predicate Located(m: Memory, r: Reader, section: Section) {
    r.current == r.bufferIndex < |m.Rings(section)|
  }

  ghost predicate Counted(m: Memory, r: Reader, section: Section) {
    section != TrailersSection && r.readCount >= m.Count(section)
  }

  // The cursor is on a committed block.
  ghost predicate OnBlock(s: Sections, m: Memory, w: Writer, r: Reader, section: Section) {
    Located(m, r, section) && Cursor(m.capacity, r) < Written(s, section, w.next) <= |s.Of(section)|
  }

  // The consumer has the first i bytes of the message under its cursor.
  ghost predicate Reading(s: Sections, m: Memory, w: Writer, r: Reader, section: Section, i: nat) {
    && OnBlock(s, m, w, r, section) && |r.block| == BLOCK_SIZE
    && var message := s.Of(section)[Cursor(m.capacity, r)];
       i <= r.size == |message| && r.block[..i] == message[..i]
  }

  ghost predicate OddVersion(version: nat) {
    version % 2 == 1 && version < UINT32_LIMIT
  }

  predicate InLoop(pc: ReaderPc) {
    !pc.Begin? && !pc.Done?
  }

  // Between the loop test and the next move of the cursor.
  predicate AtBlock(pc: ReaderPc) {
    pc.FetchVersion? || pc.FetchSize? || pc.CopyOut? || pc.Acknowledge? || pc.Parse?
  }

  // Whatever it has parsed, a consumer reads committed blocks only.
  ghost predicate Sane(s: Sections, m: Memory, w: Writer, r: Reader) {
    |r.block| == BLOCK_SIZE && (InLoop(r.pc) ==> r.blockIndex < m.capacity) &&
    match r.pc
    case TakeBuffer(section) => r.bufferIndex < |m.Rings(section)|
    case LoopTest(section) => Located(m, r, section) || Counted(m, r, section)
    case FetchVersion(section) => Located(m, r, section)
    case FetchSize(section, version) => OnBlock(s, m, w, r, section) && OddVersion(version)
    case CopyOut(section, version, i) => Reading(s, m, w, r, section, i) && OddVersion(version)
    case Acknowledge(section, version) => Reading(s, m, w, r, section, r.size) && OddVersion(version)
    case Parse(section) => Reading(s, m, w, r, section, r.size)
    case _ => true
  }

  /* ---------- what a consumer that started at rest has parsed ---------- */

  // Exactly the blocks before its cursor, all of them committed.
  ghost predicate InSection(s: Sections, p: Parser, m: Memory, w: Writer, r: Reader, section: Section)
    requires p.Valid()
  {
    var k := Cursor(m.capacity, r);
    && Entered(s, p, section) && k <= Written(s, section, w.next) <= |s.Of(section)|
    && r.parser == ReadUpTo(s, p, section, k)
    && if section == TrailersSection then !r.parser.endStream else r.readCount == k
  }

  ghost predicate Follows(s: Sections, p: Parser, m: Memory, w: Writer, r: Reader)
    requires p.Valid()
  {
    if r.pc.Begin? then StartOf(r) == p
    else if r.pc.Done? then r.parser == Final(s, p)
    else InSection(s, p, m, w, r, r.pc.section)
  }

  /* ---------- the accesses of others ---------- */

  // Buffers are only added, counts only published, blocks only committed.
  ghost predicate Grew(m: Memory, w: Writer, m': Memory, w': Writer) {
    && m'.capacity == m.capacity && w.next <= w'.next
    && (forall section :: |m.Rings(section)| <= |m'.Rings(section)|)
    && (forall section :: m'.Count(section) <= m.Count(section))
  }

  lemma OthersKeepSane(s: Sections, m: Memory, w: Writer, m': Memory, w': Writer, r: Reader)
    requires Grew(m, w, m', w') && Sane(s, m, w, r)
    ensures Sane(s, m', w', r)
  {
  }

  lemma OthersKeepFollows(s: Sections, p: Parser, m: Memory, w: Writer, m': Memory, w': Writer, r: Reader)
    requires p.Valid() && Grew(m, w, m', w') && Follows(s, p, m, w, r)
    ensures Follows(s, p, m', w', r)
  {
  }

  lemma SetSlotGrows(m: Memory, w: Writer, w': Writer, section: Section, q: nat, i: nat, b: Block)
    requires w.next <= w'.next
    ensures Grew(m, w, m.SetSlot(section, q, i, b), w')
  {
  }

  lemma BlockWriteGrows(section: Section, message: Message, m: Memory, w: Writer)
    ensures var (m', w') := WriteBlockStep(section, message, m, w); Grew(m, w, m', w')
  {
    if Claimed(w.pc) && m.Rings(section) != [] {
      SlotWriteGrows(section, message, m, w);
    }
  }

  lemma SlotWriteGrows(section: Section, message: Message, m: Memory, w: Writer)
    requires Claimed(w.pc) && m.Rings(section) != []
    ensures var (m', w') := WriteBlockStep(section, message, m, w); Grew(m, w, m', w')
  {
    var q := |m.Rings(section)| - 1;
    forall i: nat, b: Block, w': Writer | w.next <= w'.next ensures Grew(m, w, m.SetSlot(section, q, i, b), w') {
      SetSlotGrows(m, w, w', section, q, i, b);
    }
  }

  lemma ProducerGrows(s: Sections, m: Memory, w: Writer)
    requires s.Valid() && CountsOk(s, m, w)
    ensures var (m', w') := WriterStep(ProgramOf(s), m, w); Grew(m, w, m', w')
  {
    var ops := ProgramOf(s);
    if w.next < |ops| {
      match ops[w.next]
      case Push(section, message) => BlockWriteGrows(section, message, m, w);
      case _ => PublishGrows(s, m, w);
    }
  }

  lemma PublishGrows(s: Sections, m: Memory, w: Writer)
    requires s.Valid() && CountsOk(s, m, w) && w.next < |ProgramOf(s)| && !ProgramOf(s)[w.next].Push?
    ensures var (m', w') := WriterStep(ProgramOf(s), m, w); Grew(m, w, m', w')
  {
    ProgramAt(s, w.next);
  }

  /* ---------- the accesses of a consumer: memory ---------- */

  // The slot under the cursor, as the consumer sees it.
  lemma SlotUnderCursor(s: Sections, ops: seq<Op>, m: Memory, w: Writer, r: Reader, section: Section)
    requires WriterOk(s, ops, m, w) && r.blockIndex < m.capacity && Located(m, r, section)
    ensures SlotOk(s.Of(section), Written(s, section, w.next), Cursor(m.capacity, r),
                   m.Slot(section, r.current, r.blockIndex))
  {
    assert SectionOk(s, ops, m, w, section);
  }

  lemma FetchStep(s: Sections, ops: seq<Op>, m: Memory, w: Writer, r: Reader)
    requires WriterOk(s, ops, m, w) && Sane(s, m, w, r) && r.parser.Valid() && (r.pc.FetchVersion? || r.pc.FetchSize?)
    ensures var (m', r') := ReaderStep(m, r); m' == m && Sane(s, m, w, r')
  {
    SlotUnderCursor(s, ops, m, w, r, r.pc.section);
  }

  lemma CopyStep(s: Sections, ops: seq<Op>, m: Memory, w: Writer, r: Reader)
    requires WriterOk(s, ops, m, w) && Sane(s, m, w, r) && r.parser.Valid() && r.pc.CopyOut?
    ensures var (m', r') := ReaderStep(m, r); m' == m && Sane(s, m, w, r')
  {
    var k, i := Cursor(m.capacity, r), r.pc.i;
    var message := s.Of(r.pc.section)[k];
    SlotUnderCursor(s, ops, m, w, r, r.pc.section);
    var b := m.Slot(r.pc.section, r.current, r.blockIndex);
    assert Carries(b, message);
    if i < r.size {
      assert b.data[i] == b.data[..b.size][i] == message[i];
      CopyByte(r.block, message, i);
    }
  }

  lemma CopyByte(block: Bytes, message: Message, i: nat)
    requires i < |message| && i < |block| && block[..i] == message[..i]
    ensures block[i := message[i]][..i + 1] == message[..i + 1]
  {
    assert block[i := message[i]][..i] == block[..i];
  }

  // A version store under a reader does not disturb a block being written.
  lemma StoreKeepsWriting(
    c: nat, rings: seq<Ring>, message: Message, n: nat, pc: WriterPc, q: nat, i: nat, b: Block)
    requires WritingOk(c, rings, message, n, pc) && q < |rings| && i < |rings[q].blocks| && Base(c, q) + i < n
    ensures WritingOk(c, WithBlock(rings, q, i, b), message, n, pc)
  {
  }

  // Replacing a committed block by one that carries the same message.
  lemma StoreKeepsMemory(
    s: Sections, ops: seq<Op>, m: Memory, w: Writer, section: Section, q: nat, i: nat, b: Block)
    requires WriterOk(s, ops, m, w) && q < |m.Rings(section)| && i < m.capacity
    requires var k := Base(m.capacity, q) + i;
             k < Written(s, section, w.next) <= |s.Of(section)| && Carries(b, s.Of(section)[k])
    ensures WriterOk(s, ops, m.SetSlot(section, q, i, b), w)
  {
    var c, rings, n := m.capacity, m.Rings(section), Written(s, section, w.next);
    var m' := m.SetSlot(section, q, i, b);
    assert SectionOk(s, ops, m, w, section);
    StoreKeepsRings(c, rings, s.Of(section), n, q, i, b);
    StoreKeepsCounters(c, rings, n, Taken(ops, w, section), q, i, b);
    SetSlotIsStored(m, section, q, i, b);
    forall other ensures SectionOk(s, ops, m', w, other) {
      assert SectionOk(s, ops, m, w, other);
    }
    if w.next < |ops| && ops[w.next].Push? && ops[w.next].section == section {
      StoreKeepsWriting(c, rings, ops[w.next].message, n, w.pc, q, i, b);
    }
  }

  // However late a reader stores its version, the memory and a block being written are not disturbed.
  lemma AcknowledgeStep(s: Sections, ops: seq<Op>, m: Memory, w: Writer, r: Reader)
    requires WriterOk(s, ops, m, w) && Sane(s, m, w, r) && r.parser.Valid() && r.pc.Acknowledge?
    ensures var (m', r') := ReaderStep(m, r);
            WriterOk(s, ops, m', w) && Sane(s, m', w, r') && Grew(m, w, m', w)
  {
    var section := r.pc.section;
    var b := m.Slot(section, r.current, r.blockIndex).(version := ReadVersion(r.pc.version));
    SlotUnderCursor(s, ops, m, w, r, section);
    ReadVersionStaysOdd(r.pc.version);
    StoreKeepsMemory(s, ops, m, w, section, r.current, r.blockIndex, b);
    SetSlotGrows(m, w, w, section, r.current, r.blockIndex, b);
    OthersKeepSane(s, m, w, m.SetSlot(section, r.current, r.blockIndex, b), w, r.(pc := Parse(section)));
  }

  // Every access of a consumer, at rest when it started or not, keeps the memory, the producer and itself.
  lemma ReaderStepSane(s: Sections, ops: seq<Op>, m: Memory, w: Writer, r: Reader)
    requires WriterOk(s, ops, m, w) && Sane(s, m, w, r) && r.parser.Valid()
    ensures var (m', r') := ReaderStep(m, r);
            WriterOk(s, ops, m', w) && Sane(s, m', w, r') && Grew(m, w, m', w)
  {
    match r.pc
    case FetchVersion(_) => FetchStep(s, ops, m, w, r);
    case FetchSize(_, _) => FetchStep(s, ops, m, w, r);
    case CopyOut(_, _, _) => CopyStep(s, ops, m, w, r);
    case Acknowledge(_, _) => AcknowledgeStep(s, ops, m, w, r);
    case _ =>
  }

  /* ---------- the accesses of a consumer: parsing ---------- */

  // A section is left only when all its blocks have been read.
  lemma LeftWhenWhole(s: Sections, p: Parser, m: Memory, w: Writer, r: Reader, section: Section)
    requires Servable(m.capacity, s, p) && CountsOk(s, m, w)
    requires InSection(s, p, m, w, r, section) && Counted(m, r, section)
    ensures Cursor(m.capacity, r) == |s.Of(section)|
    ensures r.parser == Run(section, Entry(s, p, section), s.Of(section))
  {
    assert s.Of(section)[..|s.Of(section)|] == s.Of(section);
  }

  lemma LeaveStep(s: Sections, p: Parser, m: Memory, w: Writer, r: Reader, section: Section)
    requires Servable(m.capacity, s, p) && CountsOk(s, m, w)
    requires InSection(s, p, m, w, r, section) && Counted(m, r, section)
    ensures Follows(s, p, m, w, LeaveSection(r, section))
  {
    LeftWhenWhole(s, p, m, w, r, section);
    assert s.data[..0] == [] && s.trailers[..0] == [];
  }

  lemma ReadOneMore(s: Sections, p: Parser, section: Section, k: nat)
    requires p.Valid() && k < |s.Of(section)|
    ensures ReadUpTo(s, p, section, k + 1) == Step(section, ReadUpTo(s, p, section, k), s.Of(section)[k])
    ensures k + 1 == |s.Of(section)| ==>
              ReadUpTo(s, p, section, k + 1) == Run(section, Entry(s, p, section), s.Of(section))
  {
    assert Front(s.Of(section)[..k + 1]) == s.Of(section)[..k];
    assert k + 1 == |s.Of(section)| ==> s.Of(section)[..k + 1] == s.Of(section);
  }

  // A consumer that has a block in hand and has parsed all those before it.
  ghost predicate InHand(s: Sections, p: Parser, m: Memory, w: Writer, r: Reader, section: Section)
    requires p.Valid()
  {
    r.blockIndex < m.capacity && Reading(s, m, w, r, section, r.size) && InSection(s, p, m, w, r, section)
  }

  // The buffer index does not wrap while there are blocks left to read.
  lemma NextBuffer(s: Sections, p: Parser, m: Memory, w: Writer, r: Reader, section: Section)
    requires Servable(m.capacity, s, p) && InHand(s, p, m, w, r, section)
    requires section == TrailersSection ==> !ReadUpTo(s, p, section, Cursor(m.capacity, r) + 1).endStream
    ensures r.blockIndex + 1 == m.capacity ==> r.bufferIndex + 1 < UINT32_LIMIT
  {
    if r.blockIndex + 1 == m.capacity {
      CountedInReach(m.capacity, UINT32_MAX);
      IndexFits(m.capacity, r.bufferIndex);
    }
  }

  lemma Parsed(s: Sections, p: Parser, m: Memory, w: Writer, r: Reader, section: Section)
    requires p.Valid() && InHand(s, p, m, w, r, section)
    ensures r.size <= BLOCK_SIZE && r.size <= |r.block|
    ensures Step(section, r.parser, r.block[..r.size]) == ReadUpTo(s, p, section, Cursor(m.capacity, r) + 1)
  {
    var k := Cursor(m.capacity, r);
    var block := s.Of(section)[k];
    assert block[..|block|] == block;
    ReadOneMore(s, p, section, k);
  }

  // The cursor moves on by one block, into the next slot or the next buffer.
  lemma CursorMoves(c: nat, r: Reader, section: Section, q: Parser)
    requires r.parser.Valid() && r.size <= BLOCK_SIZE && r.size <= |r.block| && r.blockIndex < c
    requires r.blockIndex + 1 == c ==> r.bufferIndex + 1 < UINT32_LIMIT
    requires q == Step(section, r.parser, r.block[..r.size]) && !(section == TrailersSection && q.endStream)
    ensures var r' := AfterParse(c, r, section);
            && Cursor(c, r') == Cursor(c, r) + 1 && r'.parser == q
            && (section != TrailersSection ==> r'.readCount == Wrap(r.readCount + 1))
            && (r'.pc == WaitCount(section) || r'.pc == LoopTest(section))
  {
  }

  lemma OneBlockOn(s: Sections, p: Parser, m: Memory, w: Writer, r: Reader, r': Reader, section: Section)
    requires Servable(m.capacity, s, p) && InHand(s, p, m, w, r, section)
    requires Cursor(m.capacity, r') == Cursor(m.capacity, r) + 1
    requires r'.parser == ReadUpTo(s, p, section, Cursor(m.capacity, r'))
    requires if section == TrailersSection then !r'.parser.endStream else r'.readCount == Wrap(r.readCount + 1)
    ensures InSection(s, p, m, w, r', section)
  {
  }

  lemma LastTrailerBlock(s: Sections, p: Parser, m: Memory, w: Writer, r: Reader)
    requires Servable(m.capacity, s, p) && InHand(s, p, m, w, r, TrailersSection)
    requires ReadUpTo(s, p, TrailersSection, Cursor(m.capacity, r) + 1).endStream
    ensures ReadUpTo(s, p, TrailersSection, Cursor(m.capacity, r) + 1) == Final(s, p)
  {
    ReadOneMore(s, p, TrailersSection, Cursor(m.capacity, r));
  }

  // After each turn of the loop the blocks before the cursor have been parsed.
  lemma ParseStep(s: Sections, p: Parser, m: Memory, w: Writer, r: Reader)
    requires Servable(m.capacity, s, p) && Sane(s, m, w, r) && Follows(s, p, m, w, r) && r.pc.Parse?
    ensures r.parser.Valid() && Follows(s, p, m, w, AfterParse(m.capacity, r, r.pc.section))
  {
    var section := r.pc.section;
    var q := ReadUpTo(s, p, section, Cursor(m.capacity, r) + 1);
    Parsed(s, p, m, w, r, section);
    if section == TrailersSection && q.endStream {
      LastTrailerBlock(s, p, m, w, r);
    } else {
      NextBuffer(s, p, m, w, r, section);
      CursorMoves(m.capacity, r, section, q);
      OneBlockOn(s, p, m, w, r, AfterParse(m.capacity, r, section), section);
    }
  }

  lemma BeginStep(s: Sections, p: Parser, m: Memory, w: Writer, r: Reader)
    requires p.Valid() && Follows(s, p, m, w, r) && r.pc.Begin?
    ensures r.parser.Valid() && Follows(s, p, m, w, ReaderStep(m, r).1)
  {
    assert s.headers[..0] == [];
  }

  // No access but these three changes what has been parsed or where the cursor is.
  lemma OtherwiseSame(m: Memory, r: Reader)
    requires r.parser.Valid() && InLoop(r.pc) && !r.pc.Parse?
    requires r.pc.LoopTest? ==> !Counted(m, r, r.pc.section)
    ensures var r' := ReaderStep(m, r).1;
            && InLoop(r'.pc) && r'.pc.section == r.pc.section && r'.parser == r.parser
            && r'.readCount == r.readCount && r'.bufferIndex == r.bufferIndex && r'.blockIndex == r.blockIndex
  {
  }

  // Every access of a consumer that started at rest keeps what it has parsed.
  lemma ReaderStepFollows(s: Sections, p: Parser, m: Memory, w: Writer, r: Reader)
    requires Servable(m.capacity, s, p) && CountsOk(s, m, w) && Sane(s, m, w, r) && Follows(s, p, m, w, r)
    ensures r.parser.Valid() && Follows(s, p, m, w, ReaderStep(m, r).1)
  {
    if r.pc.Begin? {
      BeginStep(s, p, m, w, r);
    } else if r.pc.Parse? {
      ParseStep(s, p, m, w, r);
    } else if r.pc.LoopTest? && Counted(m, r, r.pc.section) {
      LeaveStep(s, p, m, w, r, r.pc.section);
    } else if !r.pc.Done? {
      OtherwiseSame(m, r);
    }
  }
}
