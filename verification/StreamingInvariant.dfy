/** The inductive invariant of the streaming machine. */
module StreamingInvariant {
  import opened Blocks
  import opened BlockCodec
  import opened EntryProgram
  import opened RingBuffer
  import opened Streaming

  /* ---------- memory of one section ---------- */

  // Slot number k of a section of which n blocks are committed.
  ghost predicate SlotOk(blocks: seq<Message>, n: nat, k: nat, b: Block) {
    n <= |blocks| && if k < n then Carries(b, blocks[k]) else Untouched(b)
  }

  ghost predicate RingsOk(c: nat, rings: seq<Ring>, blocks: seq<Message>, n: nat) {
    && n <= |blocks|
    && (rings == [] ==> n == 0)
    && (rings != [] ==> Base(c, |rings| - 1) <= n <= Base(c, |rings| - 1) + c)
    && (forall q :: 0 <= q < |rings| ==> |rings[q].blocks| == c)
    && (forall q, i :: 0 <= q < |rings| && 0 <= i < c ==> SlotOk(blocks, n, Base(c, q) + i, rings[q].blocks[i]))
  }

  // All buffers but the last are full; `taken` is the slot claimed but not yet committed.
  ghost predicate CountersOk(c: nat, rings: seq<Ring>, n: nat, taken: nat) {
    && (forall q :: 0 <= q < |rings| - 1 ==> rings[q].counter == c)
    && (rings != [] ==> Last(rings).counter == n - Base(c, |rings| - 1) + taken)
  }

  function WithBlock(rings: seq<Ring>, q: nat, i: nat, b: Block): seq<Ring>
    requires q < |rings| && i < |rings[q].blocks|
  {
    rings[q := rings[q].(blocks := rings[q].blocks[i := b])]
  }

  lemma StoreKeepsRings(c: nat, rings: seq<Ring>, blocks: seq<Message>, n: nat, q: nat, i: nat, b: Block)
    requires RingsOk(c, rings, blocks, n) && q < |rings| && i < c
    requires SlotOk(blocks, n, Base(c, q) + i, b)
    ensures RingsOk(c, WithBlock(rings, q, i, b), blocks, n)
  {
    var rings' := WithBlock(rings, q, i, b);
    forall p, j | 0 <= p < |rings'| && 0 <= j < c
      ensures SlotOk(blocks, n, Base(c, p) + j, rings'[p].blocks[j])
    {
      assert (p == q && j == i) || rings'[p].blocks[j] == rings[p].blocks[j];
    }
  }

  lemma StoreKeepsCounters(c: nat, rings: seq<Ring>, n: nat, taken: nat, q: nat, i: nat, b: Block)
    requires CountersOk(c, rings, n, taken) && q < |rings| && i < |rings[q].blocks|
    ensures CountersOk(c, WithBlock(rings, q, i, b), n, taken)
  {
  }

  // Committing the slot after the last committed block.
  lemma CommitKeepsRings(c: nat, rings: seq<Ring>, blocks: seq<Message>, n: nat, i: nat, b: Block)
    requires RingsOk(c, rings, blocks, n) && rings != [] && i < c
    requires n < |blocks| && n == Base(c, |rings| - 1) + i && Carries(b, blocks[n])
    ensures RingsOk(c, WithBlock(rings, |rings| - 1, i, b), blocks, n + 1)
  {
    var last := |rings| - 1;
    var rings' := WithBlock(rings, last, i, b);
    forall p, j | 0 <= p < |rings'| && 0 <= j < c
      ensures SlotOk(blocks, n + 1, Base(c, p) + j, rings'[p].blocks[j])
    {
      if p == last && j == i {
      } else {
        assert rings'[p].blocks[j] == rings[p].blocks[j];
        if p < last {
          BaseMonotone(c, p + 1, last);
        }
        assert Base(c, p) + j != n;
      }
    }
  }

  lemma EmplaceKeepsRings(c: nat, rings: seq<Ring>, blocks: seq<Message>, n: nat)
    requires c > 0 && RingsOk(c, rings, blocks, n)
    requires rings != [] ==> n == Base(c, |rings| - 1) + c
    ensures RingsOk(c, rings + [NewRing(c)], blocks, n)
  {
    var rings' := rings + [NewRing(c)];
    forall p, j | 0 <= p < |rings'| && 0 <= j < c
      ensures SlotOk(blocks, n, Base(c, p) + j, rings'[p].blocks[j])
    {
      assert p < |rings| ==> rings'[p].blocks[j] == rings[p].blocks[j];
    }
  }

  /* ---------- the producer ---------- */

  predicate Claimed(pc: WriterPc) {
    !pc.CheckFull? && !pc.Emplace? && !pc.FetchAdd?
  }

  ghost function Taken(ops: seq<Op>, w: Writer, section: Section): nat {
    if w.next < |ops| && ops[w.next].Push? && ops[w.next].section == section && Claimed(w.pc) then 1 else 0
  }

  // What the producer knows about the slot it has claimed, number n of its section.
  ghost predicate WritingOk(c: nat, rings: seq<Ring>, message: Message, n: nat, pc: WriterPc) {
    match pc
    case CheckFull => true
    case Emplace => rings == [] || Last(rings).counter >= c
    case FetchAdd => rings != [] && Last(rings).counter < c
    case LoadVersion(slot) => Claims(c, rings, n, slot)
    case CheckOdd(slot, version) => Claims(c, rings, n, slot) && version == 1
    case StoreEven(slot, version) => false
    case StoreSize(slot, version) => Claims(c, rings, n, slot) && version == 1
    case CopyIn(slot, version, i) =>
      && Claims(c, rings, n, slot) && version == 1 && i <= |message|
      && Filled(Last(rings).blocks[slot], message, i)
    case Commit(slot, version) =>
      && Claims(c, rings, n, slot) && version == 1
      && Filled(Last(rings).blocks[slot], message, |message|)
  }

  ghost predicate Claims(c: nat, rings: seq<Ring>, n: nat, slot: nat) {
    && rings != [] && slot < c && Base(c, |rings| - 1) + slot == n
    && |Last(rings).blocks| == c && Untouched(Last(rings).blocks[slot])
  }

  // The size and the first i bytes are in place.
  ghost predicate Filled(b: Block, message: Message, i: nat) {
    i <= |message| && b.size == |message| && |b.data| == BLOCK_SIZE && b.data[..i] == message[..i]
  }

  ghost predicate SectionOk(s: Sections, ops: seq<Op>, m: Memory, w: Writer, section: Section) {
    var n := Written(s, section, w.next);
    && RingsOk(m.capacity, m.Rings(section), s.Of(section), n)
    && CountersOk(m.capacity, m.Rings(section), n, Taken(ops, w, section))
  }

  // A count shows once its section is whole, and says how many blocks that is.
  ghost predicate CountsOk(s: Sections, m: Memory, w: Writer) {
    && m.headersCount == (if w.next <= |s.headers| then UINT32_MAX else Wrap(|s.headers|))
    && m.dataCount == (if w.next <= |s.headers| + |s.data| + 1 then UINT32_MAX else Wrap(|s.data|))
  }

  ghost predicate WriterOk(s: Sections, ops: seq<Op>, m: Memory, w: Writer) {
    && s.Valid() && m.capacity > 0 && w.next <= |ops|
    && (forall section :: SectionOk(s, ops, m, w, section))
    && CountsOk(s, m, w)
    && (w.next == |ops| || !ops[w.next].Push? ==> w.pc == CheckFull)
    && (w.next < |ops| && ops[w.next].Push? ==>
          var section := ops[w.next].section;
          WritingOk(m.capacity, m.Rings(section), ops[w.next].message, Written(s, section, w.next), w.pc))
  }

  // Operation `next` of the producer writes this block.
  ghost predicate Pushing(s: Sections, ops: seq<Op>, m: Memory, w: Writer, section: Section, message: Message) {
    WriterOk(s, ops, m, w) && w.next < |ops| && ops[w.next] == Push(section, message)
  }

  // A step of one block write touches one section only, so that section is all there is to show.
  lemma OnlyThatSection(
    s: Sections, ops: seq<Op>, m: Memory, w: Writer, section: Section, message: Message, rings: seq<Ring>, pc: WriterPc)
    requires Pushing(s, ops, m, w, section, message)
    requires RingsOk(m.capacity, rings, s.Of(section), Written(s, section, w.next))
    requires CountersOk(m.capacity, rings, Written(s, section, w.next), if Claimed(pc) then 1 else 0)
    requires WritingOk(m.capacity, rings, message, Written(s, section, w.next), pc)
    ensures WriterOk(s, ops, m.WithRings(section, rings), w.(pc := pc))
  {
    forall other ensures SectionOk(s, ops, m.WithRings(section, rings), w.(pc := pc), other) {
      assert SectionOk(s, ops, m, w, other);
    }
  }

  lemma OnlyThePc(
    s: Sections, ops: seq<Op>, m: Memory, w: Writer, section: Section, message: Message, pc: WriterPc)
    requires Pushing(s, ops, m, w, section, message) && Claimed(pc) == Claimed(w.pc)
    requires WritingOk(m.capacity, m.Rings(section), message, Written(s, section, w.next), pc)
    ensures WriterOk(s, ops, m, w.(pc := pc))
  {
    forall other ensures SectionOk(s, ops, m, w.(pc := pc), other) {
      assert SectionOk(s, ops, m, w, other);
    }
  }

  lemma EmplaceStep(s: Sections, ops: seq<Op>, m: Memory, w: Writer, section: Section, message: Message)
    requires Pushing(s, ops, m, w, section, message) && w.pc == Emplace
    ensures WriterOk(s, ops, m.WithRings(section, m.Rings(section) + [NewRing(m.capacity)]), w.(pc := CheckFull))
  {
    var c, rings, n := m.capacity, m.Rings(section), Written(s, section, w.next);
    assert SectionOk(s, ops, m, w, section);
    EmplaceKeepsRings(c, rings, s.Of(section), n);
    OnlyThatSection(s, ops, m, w, section, message, rings + [NewRing(c)], CheckFull);
  }

  function Bumped(rings: seq<Ring>): seq<Ring>
    requires rings != []
  {
    rings[|rings| - 1 := Last(rings).(counter := Last(rings).counter + 1)]
  }

  lemma BumpKeepsRings(c: nat, rings: seq<Ring>, blocks: seq<Message>, n: nat)
    requires RingsOk(c, rings, blocks, n) && CountersOk(c, rings, n, 0) && rings != [] && Last(rings).counter < c
    ensures RingsOk(c, Bumped(rings), blocks, n) && CountersOk(c, Bumped(rings), n, 1)
    ensures Claims(c, Bumped(rings), n, Last(rings).counter)
  {
    var rings', i := Bumped(rings), Last(rings).counter;
    forall q, j | 0 <= q < |rings'| && 0 <= j < c ensures SlotOk(blocks, n, Base(c, q) + j, rings'[q].blocks[j]) {
      assert rings'[q].blocks[j] == rings[q].blocks[j];
    }
    assert SlotOk(blocks, n, Base(c, |rings| - 1) + i, rings'[|rings| - 1].blocks[i]);
  }

  lemma FetchAddStep(s: Sections, ops: seq<Op>, m: Memory, w: Writer, section: Section, message: Message)
    requires Pushing(s, ops, m, w, section, message) && w.pc == FetchAdd
    ensures WriterOk(s, ops, m.WithRings(section, Bumped(m.Rings(section))),
                     w.(pc := LoadVersion(Last(m.Rings(section)).counter)))
  {
    var rings := m.Rings(section);
    assert SectionOk(s, ops, m, w, section);
    BumpKeepsRings(m.capacity, rings, s.Of(section), Written(s, section, w.next));
    OnlyThatSection(s, ops, m, w, section, message, Bumped(rings), LoadVersion(Last(rings).counter));
  }

  lemma BeforeClaim(s: Sections, ops: seq<Op>, m: Memory, w: Writer, section: Section, message: Message)
    requires Pushing(s, ops, m, w, section, message) && !Claimed(w.pc)
    ensures var (m', w') := WriteBlockStep(section, message, m, w); WriterOk(s, ops, m', w')
  {
    match w.pc
    case CheckFull =>
      var rings := m.Rings(section);
      var full := rings == [] || Last(rings).counter >= m.capacity;
      OnlyThePc(s, ops, m, w, section, message, if full then Emplace else FetchAdd);
    case Emplace => EmplaceStep(s, ops, m, w, section, message);
    case FetchAdd => FetchAddStep(s, ops, m, w, section, message);
  }

  lemma SetSlotIsStored(m: Memory, section: Section, q: nat, i: nat, b: Block)
    requires q < |m.Rings(section)| && i < |m.Rings(section)[q].blocks|
    ensures m.SetSlot(section, q, i, b) == m.WithRings(section, WithBlock(m.Rings(section), q, i, b))
    ensures m.Slot(section, q, i) == m.Rings(section)[q].blocks[i]
  {
  }

  // A store into the claimed slot that leaves its version at zero.
  lemma StoreInClaimed(
    s: Sections, ops: seq<Op>, m: Memory, w: Writer, section: Section, message: Message,
    slot: nat, b: Block, pc: WriterPc)
    requires Pushing(s, ops, m, w, section, message) && Claimed(w.pc) && Claimed(pc)
    requires Claims(m.capacity, m.Rings(section), Written(s, section, w.next), slot) && Untouched(b)
    requires WritingOk(m.capacity, WithBlock(m.Rings(section), |m.Rings(section)| - 1, slot, b),
                       message, Written(s, section, w.next), pc)
    ensures WriterOk(s, ops, m.SetSlot(section, |m.Rings(section)| - 1, slot, b), w.(pc := pc))
  {
    var c, rings, n := m.capacity, m.Rings(section), Written(s, section, w.next);
    assert SectionOk(s, ops, m, w, section);
    StoreKeepsRings(c, rings, s.Of(section), n, |rings| - 1, slot, b);
    StoreKeepsCounters(c, rings, n, 1, |rings| - 1, slot, b);
    SetSlotIsStored(m, section, |rings| - 1, slot, b);
    OnlyThatSection(s, ops, m, w, section, message, WithBlock(rings, |rings| - 1, slot, b), pc);
  }

  lemma FillByte(b: Block, message: Message, i: nat)
    requires Filled(b, message, i) && i < |message|
    ensures Filled(b.(data := b.data[i := message[i]]), message, i + 1)
  {
    var d := b.data[i := message[i]];
    assert d[..i + 1] == b.data[..i] + [message[i]];
    assert message[..i + 1] == message[..i] + [message[i]];
  }

  lemma StoreSizeStep(s: Sections, ops: seq<Op>, m: Memory, w: Writer, section: Section, message: Message)
    requires Pushing(s, ops, m, w, section, message) && w.pc.StoreSize?
    ensures var (m', w') := WriteBlockStep(section, message, m, w); WriterOk(s, ops, m', w')
  {
    var q, slot := |m.Rings(section)| - 1, w.pc.slot;
    var before := m.Rings(section)[q].blocks[slot];
    var b := before.(size := |message|);
    assert b.data[..0] == message[..0];
    SetSlotIsStored(m, section, q, slot, b);
    StoreInClaimed(s, ops, m, w, section, message, slot, b, CopyIn(slot, w.pc.version, 0));
  }

  lemma CopyInStep(s: Sections, ops: seq<Op>, m: Memory, w: Writer, section: Section, message: Message)
    requires Pushing(s, ops, m, w, section, message) && w.pc.CopyIn?
    ensures var (m', w') := WriteBlockStep(section, message, m, w); WriterOk(s, ops, m', w')
  {
    var q, slot, i := |m.Rings(section)| - 1, w.pc.slot, w.pc.i;
    var b := m.Rings(section)[q].blocks[slot];
    SetSlotIsStored(m, section, q, slot, b);
    if i < |message| {
      var b' := b.(data := b.data[i := message[i]]);
      FillByte(b, message, i);
      StoreInClaimed(s, ops, m, w, section, message, slot, b', CopyIn(slot, w.pc.version, i + 1));
    } else {
      OnlyThePc(s, ops, m, w, section, message, Commit(slot, w.pc.version));
    }
  }

  // Both loads of the claimed slot's version see zero.
  lemma VersionStep(
    s: Sections, ops: seq<Op>, m: Memory, w: Writer, section: Section, message: Message, slot: nat, pc: WriterPc)
    requires Pushing(s, ops, m, w, section, message)
    requires (w.pc == LoadVersion(slot) && pc == CheckOdd(slot, 1))
          || (w.pc == CheckOdd(slot, 1) && pc == StoreSize(slot, 1))
    ensures WriteBlockStep(section, message, m, w) == (m, w.(pc := pc))
    ensures WriterOk(s, ops, m, w.(pc := pc))
  {
    SetSlotIsStored(m, section, |m.Rings(section)| - 1, slot, EmptyBlock());
    OnlyThePc(s, ops, m, w, section, message, pc);
  }

  lemma InsideWrite(s: Sections, ops: seq<Op>, m: Memory, w: Writer, section: Section, message: Message)
    requires Pushing(s, ops, m, w, section, message) && Claimed(w.pc) && !w.pc.Commit?
    ensures var (m', w') := WriteBlockStep(section, message, m, w); WriterOk(s, ops, m', w')
  {
    match w.pc
    case LoadVersion(slot) => VersionStep(s, ops, m, w, section, message, slot, CheckOdd(slot, 1));
    case CheckOdd(slot, version) => VersionStep(s, ops, m, w, section, message, slot, StoreSize(slot, version));
    case StoreSize(slot, version) => StoreSizeStep(s, ops, m, w, section, message);
    case CopyIn(slot, version, i) => CopyInStep(s, ops, m, w, section, message);
  }

  lemma CommitRings(c: nat, rings: seq<Ring>, blocks: seq<Message>, n: nat, slot: nat, b: Block)
    requires RingsOk(c, rings, blocks, n) && CountersOk(c, rings, n, 1) && n < |blocks|
    requires Claims(c, rings, n, slot) && b == Last(rings).blocks[slot].(version := 1)
    requires Filled(b, blocks[n], |blocks[n]|)
    ensures RingsOk(c, WithBlock(rings, |rings| - 1, slot, b), blocks, n + 1)
    ensures CountersOk(c, WithBlock(rings, |rings| - 1, slot, b), n + 1, 0)
  {
    assert blocks[n][..|blocks[n]|] == blocks[n];
    CommitKeepsRings(c, rings, blocks, n, slot, b);
    StoreKeepsCounters(c, rings, n, 1, |rings| - 1, slot, b);
  }

  // The block as the version store leaves it, and the section's buffers around it.
  ghost function CommittedBlock(rings: seq<Ring>, slot: nat): Block
    requires rings != [] && slot < |Last(rings).blocks|
  {
    Last(rings).blocks[slot].(version := 1)
  }

  ghost function AfterCommit(rings: seq<Ring>, slot: nat): seq<Ring>
    requires rings != [] && slot < |Last(rings).blocks|
  {
    WithBlock(rings, |rings| - 1, slot, CommittedBlock(rings, slot))
  }

  lemma CommitShape(m: Memory, w: Writer, section: Section, message: Message)
    requires w.pc.Commit? && w.pc.version == 1
    requires m.Rings(section) != [] && w.pc.slot < |Last(m.Rings(section)).blocks|
    ensures WriteBlockStep(section, message, m, w)
         == (m.WithRings(section, AfterCommit(m.Rings(section), w.pc.slot)), Writer(w.next + 1, CheckFull))
  {
    var rings := m.Rings(section);
    SetSlotIsStored(m, section, |rings| - 1, w.pc.slot, CommittedBlock(rings, w.pc.slot));
  }

  // The version store turns the claimed slot into the next committed block.
  lemma CommitStep(s: Sections, m: Memory, w: Writer, section: Section, message: Message)
    requires Pushing(s, ProgramOf(s), m, w, section, message) && w.pc.Commit?
    ensures var (m', w') := WriteBlockStep(section, message, m, w); WriterOk(s, ProgramOf(s), m', w')
  {
    var rings, slot := m.Rings(section), w.pc.slot;
    CommitNext(s, w, section, message);
    assert SectionOk(s, ProgramOf(s), m, w, section);
    CommitRings(m.capacity, rings, s.Of(section), Written(s, section, w.next), slot, CommittedBlock(rings, slot));
    CommitLands(s, ProgramOf(s), m, w, section, message, AfterCommit(rings, slot));
    CommitShape(m, w, section, message);
  }

  lemma CommitNext(s: Sections, w: Writer, section: Section, message: Message)
    requires s.Valid() && w.next < |ProgramOf(s)| && ProgramOf(s)[w.next] == Push(section, message)
    ensures Written(s, section, w.next) < |s.Of(section)| && s.Of(section)[Written(s, section, w.next)] == message
    ensures forall other :: Written(s, other, w.next + 1)
                          == Written(s, other, w.next) + if other == section then 1 else 0
    ensures w.next != |s.headers| && w.next != |s.headers| + |s.data| + 1
  {
    WrittenNext(s, w.next);
    ProgramAt(s, w.next);
  }

  lemma CommitLands(
    s: Sections, ops: seq<Op>, m: Memory, w: Writer, section: Section, message: Message, rings: seq<Ring>)
    requires Pushing(s, ops, m, w, section, message) && Claimed(w.pc)
    requires RingsOk(m.capacity, rings, s.Of(section), Written(s, section, w.next) + 1)
    requires CountersOk(m.capacity, rings, Written(s, section, w.next) + 1, 0)
    requires forall other :: Written(s, other, w.next + 1)
                           == Written(s, other, w.next) + if other == section then 1 else 0
    requires w.next != |s.headers| && w.next != |s.headers| + |s.data| + 1
    ensures WriterOk(s, ops, m.WithRings(section, rings), Writer(w.next + 1, CheckFull))
  {
    var m', w' := m.WithRings(section, rings), Writer(w.next + 1, CheckFull);
    forall other ensures SectionOk(s, ops, m', w', other) {
      assert SectionOk(s, ops, m, w, other);
    }
  }

  lemma PublishStep(s: Sections, m: Memory, w: Writer)
    requires WriterOk(s, ProgramOf(s), m, w) && w.next < |ProgramOf(s)| && !ProgramOf(s)[w.next].Push?
    ensures var (m', w') := WriterStep(ProgramOf(s), m, w); WriterOk(s, ProgramOf(s), m', w')
  {
    WrittenNext(s, w.next);
    ProgramAt(s, w.next);
    var (m', w') := WriterStep(ProgramOf(s), m, w);
    forall section ensures SectionOk(s, ProgramOf(s), m', w', section) {
      assert SectionOk(s, ProgramOf(s), m, w, section);
    }
  }

  // Every access of the producer keeps the memory invariant.
  lemma WriterStepOk(s: Sections, m: Memory, w: Writer)
    requires WriterOk(s, ProgramOf(s), m, w)
    ensures var (m', w') := WriterStep(ProgramOf(s), m, w); WriterOk(s, ProgramOf(s), m', w')
  {
    var ops := ProgramOf(s);
    if w.next < |ops| {
      match ops[w.next]
      case PublishHeaders(_) => PublishStep(s, m, w);
      case PublishData(_) => PublishStep(s, m, w);
      case Push(section, message) =>
        if !Claimed(w.pc) {
          BeforeClaim(s, ops, m, w, section, message);
        } else if w.pc.Commit? {
          CommitStep(s, m, w, section, message);
        } else {
          InsideWrite(s, ops, m, w, section, message);
        }
    }
  }
}
