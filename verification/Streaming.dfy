/**
 One producer and any number of consumers of one entry, interleaved at every
 single access to the entry's memory: block counters, version words, sizes, payload
 bytes, the buffer vectors and the published counts.
 */
module Streaming {
  import opened Blocks
  import opened BlockCodec
  import opened EntryProgram
  import opened RingBuffer

  datatype Ring = Ring(counter: nat, blocks: seq<Block>)

  datatype Memory = Memory(
    capacity: nat, headers: seq<Ring>, data: seq<Ring>, trailers: seq<Ring>, headersCount: nat, dataCount: nat)
  {
    function Rings(section: Section): seq<Ring> {
      match section
      case HeadersSection => headers
      case DataSection => data
      case TrailersSection => trailers
    }

    function WithRings(section: Section, rings: seq<Ring>): Memory {
      match section
      case HeadersSection => this.(headers := rings)
      case DataSection => this.(data := rings)
      case TrailersSection => this.(trailers := rings)
    }

    // The published block count; there is none for trailers.
    function Count(section: Section): nat {
      if section == HeadersSection then headersCount else dataCount
    }

    function Slot(section: Section, q: nat, i: nat): Block {
      if q < |Rings(section)| && i < |Rings(section)[q].blocks| then Rings(section)[q].blocks[i] else EmptyBlock()
    }

    function SetSlot(section: Section, q: nat, i: nat, b: Block): Memory {
      var rings := Rings(section);
      if q < |rings| && i < |rings[q].blocks| then
        WithRings(section, rings[q := rings[q].(blocks := rings[q].blocks[i := b])])
      else this
    }
  }

  function NewRing(capacity: nat): Ring {
    Ring(0, seq(capacity, i => EmptyBlock()))
  }

  /* ---------- the producer ---------- */

  // Where the producer is inside the block write that operation `next` asks for.
  datatype WriterPc =
    | CheckFull
    | Emplace
    | FetchAdd
    | LoadVersion(slot: nat)
    | CheckOdd(slot: nat, version: nat)
    | StoreEven(slot: nat, version: nat)
    | StoreSize(slot: nat, version: nat)
    | CopyIn(slot: nat, version: nat, i: nat)
    | Commit(slot: nat, version: nat)

  datatype Writer = Writer(next: nat, pc: WriterPc)

  function WriterStep(ops: seq<Op>, m: Memory, w: Writer): (Memory, Writer) {
    if w.next >= |ops| then (m, w) else
    match ops[w.next]
    case PublishHeaders(n) => (m.(headersCount := n), Writer(w.next + 1, CheckFull))
    case PublishData(n) => (m.(dataCount := n), Writer(w.next + 1, CheckFull))
    case Push(section, message) => WriteBlockStep(section, message, m, w)
  }

  // One access of writeBlockToBuffer and of RingBufferQueue::write on the last buffer.
  function WriteBlockStep(section: Section, message: Message, m: Memory, w: Writer): (Memory, Writer) {
    var rings := m.Rings(section);
    if w.pc == CheckFull then
      (m, w.(pc := if rings == [] || Last(rings).counter >= m.capacity then Emplace else FetchAdd))
    else if w.pc == Emplace then
      (m.WithRings(section, rings + [NewRing(m.capacity)]), w.(pc := CheckFull))
    else if rings == [] then (m, w) else
    var q := |rings| - 1;
    match w.pc
    case FetchAdd =>
      (m.WithRings(section, rings[q := rings[q].(counter := rings[q].counter + 1)]),
       w.(pc := LoadVersion(rings[q].counter)))
    case LoadVersion(slot) =>
      (m, w.(pc := CheckOdd(slot, Wrap(m.Slot(section, q, slot).version + 1))))
    case CheckOdd(slot, version) =>
      (m, w.(pc := if m.Slot(section, q, slot).version % 2 == 1 then StoreEven(slot, version)
                   else StoreSize(slot, version)))
    case StoreEven(slot, version) =>
      (m.SetSlot(section, q, slot, m.Slot(section, q, slot).(version := version)),
       w.(pc := StoreSize(slot, Wrap(version + 1))))
    case StoreSize(slot, version) =>
      (m.SetSlot(section, q, slot, m.Slot(section, q, slot).(size := |message|)),
       w.(pc := CopyIn(slot, version, 0)))
    case CopyIn(slot, version, i) =>
      var b := m.Slot(section, q, slot);
      if i < |message| && i < |b.data| then
        (m.SetSlot(section, q, slot, b.(data := b.data[i := message[i]])), w.(pc := CopyIn(slot, version, i + 1)))
      else (m, w.(pc := Commit(slot, version)))
    case Commit(slot, version) =>
      (m.SetSlot(section, q, slot, m.Slot(section, q, slot).(version := version)), Writer(w.next + 1, CheckFull))
  }

  /* ---------- a consumer ---------- */

  datatype ReaderPc =
    | Begin
    | WaitCount(section: Section)
    | WaitBuffer(section: Section)
    | TakeBuffer(section: Section)
    | LoopTest(section: Section)
    | FetchVersion(section: Section)
    | FetchSize(section: Section, version: nat)
    | CopyOut(section: Section, version: nat, i: nat)
    | Acknowledge(section: Section, version: nat)
    | Parse(section: Section)
    | Done

  datatype Reader = Reader(
    pc: ReaderPc, readCount: nat, bufferIndex: nat, blockIndex: nat, current: nat,
    size: nat, block: Bytes, parser: Parser)

  function ReaderStep(m: Memory, r: Reader): (result: (Memory, Reader))
    requires r.parser.Valid()
    ensures result.1.parser.Valid()
  {
    match r.pc
    case Begin =>
      (m, r.(pc := WaitCount(HeadersSection), readCount := 0, bufferIndex := 0, blockIndex := 0,
             parser := r.parser.(fields := [], endStream := false)))
    case WaitCount(section) =>
      (m, r.(pc := if section != TrailersSection && r.readCount >= m.Count(section) then LoopTest(section)
                   else WaitBuffer(section)))
    case WaitBuffer(section) =>
      (m, r.(pc := if r.bufferIndex >= |m.Rings(section)| then WaitCount(section) else TakeBuffer(section)))
    case TakeBuffer(section) =>
      (m, r.(current := r.bufferIndex, pc := LoopTest(section)))
    case LoopTest(section) =>
      if section == TrailersSection || r.readCount < m.Count(section) then (m, r.(pc := FetchVersion(section)))
      else (m, LeaveSection(r, section))
    case FetchVersion(section) =>
      var v := m.Slot(section, r.current, r.blockIndex).version;
      (m, r.(pc := if v % 2 == 1 then FetchSize(section, v) else LoopTest(section)))
    case FetchSize(section, version) =>
      (m, r.(size := m.Slot(section, r.current, r.blockIndex).size, pc := CopyOut(section, version, 0)))
    case CopyOut(section, version, i) =>
      var b := m.Slot(section, r.current, r.blockIndex);
      if i < r.size && i < |b.data| && i < |r.block| then
        (m, r.(block := r.block[i := b.data[i]], pc := CopyOut(section, version, i + 1)))
      else (m, r.(pc := Acknowledge(section, version)))
    case Acknowledge(section, version) =>
      // a plain store: another reader's increment in between is lost
      var b := m.Slot(section, r.current, r.blockIndex);
      (m.SetSlot(section, r.current, r.blockIndex, b.(version := ReadVersion(version))), r.(pc := Parse(section)))
    case Parse(section) => (m, AfterParse(m.capacity, r, section))
    case Done => (m, r)
  }

  // Parses the block just read and moves the cursor on.
  function AfterParse(capacity: nat, r: Reader, section: Section): (r': Reader)
    requires r.parser.Valid()
    ensures r'.parser.Valid()
  {
    if r.size > BLOCK_SIZE || r.size > |r.block| then r else
    var p := Step(section, r.parser, r.block[..r.size]);
    if section == TrailersSection && p.endStream then r.(parser := p, pc := Done) else
    var r' := r.(parser := p, readCount := if section == TrailersSection then r.readCount else Wrap(r.readCount + 1));
    if r.blockIndex + 1 == capacity then
      r'.(blockIndex := 0, bufferIndex := Wrap(r.bufferIndex + 1), pc := WaitCount(section))
    else r'.(blockIndex := r.blockIndex + 1, pc := LoopTest(section))
  }

  // What follows the loop of serveHeaders or serveData.
  function LeaveSection(r: Reader, section: Section): Reader {
    if r.parser.endStream || section == TrailersSection then r.(pc := Done)
    else if section == HeadersSection then
      r.(pc := WaitCount(DataSection), readCount := 0, bufferIndex := 0, blockIndex := 0)
    else
      r.(pc := WaitCount(TrailersSection), readCount := 0, bufferIndex := 0, blockIndex := 0,
         parser := r.parser.(fields := []))
  }

  /* ---------- everybody ---------- */

  datatype State = State(memory: Memory, writer: Writer, readers: map<nat, Reader>)

  datatype Actor = Producer | Consumer(id: nat)

  ghost predicate ParsersValid(s: State) {
    forall id :: id in s.readers ==> s.readers[id].parser.Valid()
  }

  // The actor that the scheduler picked performs its next access.
  function StepOf(ops: seq<Op>, s: State, a: Actor): (s': State)
    requires ParsersValid(s)
    ensures ParsersValid(s')
  {
    match a
    case Producer =>
      var (m, w) := WriterStep(ops, s.memory, s.writer);
      s.(memory := m, writer := w)
    case Consumer(id) =>
      if id !in s.readers then s else
      var (m, r) := ReaderStep(s.memory, s.readers[id]);
      s.(memory := m, readers := s.readers[id := r])
  }

  // The state after the scheduler has picked these actors, one access each.
  function Exec(ops: seq<Op>, s: State, schedule: seq<Actor>): (s': State)
    requires ParsersValid(s)
    ensures ParsersValid(s')
  {
    if schedule == [] then s else StepOf(ops, Exec(ops, s, Front(schedule)), Last(schedule))
  }

  // A consumer that has not touched this entry yet; it may have served from others before.
  ghost predicate AboutToServe(r: Reader) {
    r.pc == Begin && |r.block| == BLOCK_SIZE && r.parser.Valid()
  }

  // An empty entry with its producer and consumers.
  ghost predicate Initial(capacity: nat, s: State) {
    && s.memory == Memory(capacity, [], [], [], UINT32_MAX, UINT32_MAX)
    && s.writer == Writer(0, CheckFull)
    && forall id :: id in s.readers ==> AboutToServe(s.readers[id])
  }
}
