/**
 What the version of a block tells about its readers. Each adds two with a load and a later plain
 store, so that updates are lost when readers overlap; none is invented, and not all are lost.
 */
module StreamingVersions {
  import opened Blocks
  import opened BlockCodec
  import opened EntryProgram
  import opened RingBuffer
  import opened Streaming
  import opened StreamingInvariant
  import opened StreamingReaders
  import opened StreamingRuns
  import opened StreamingSafety

  // A slot of the entry: block i of buffer q of a section.
  datatype Place = Place(section: Section, q: nat, i: nat)

  function Number(c: nat, at: Place): nat {
    Base(c, at.q) + at.i
  }

  predicate ReadsAt(r: Reader, at: Place) {
    (r.pc.FetchSize? || r.pc.CopyOut? || r.pc.Acknowledge?)
    && r.pc.section == at.section && r.current == at.q && r.blockIndex == at.i
  }

  // The actor completes a read of the slot.
  predicate Completes(st: State, actor: Actor, at: Place) {
    actor.Consumer? && actor.id in st.readers
    && st.readers[actor.id].pc.Acknowledge? && ReadsAt(st.readers[actor.id], at)
  }

  // Completed reads of the slot.
  function ReadsOf(ops: seq<Op>, st0: State, schedule: seq<Actor>, at: Place): nat
    requires ParsersValid(st0)
  {
    if schedule == [] then 0 else
    ReadsOf(ops, st0, Front(schedule), at)
    + if Completes(Exec(ops, st0, Front(schedule)), Last(schedule), at) then 1 else 0
  }

  // The version shows j reads.
  predicate Shows(version: nat, j: nat) {
    version == Wrap(1 + 2 * j)
  }

  ghost predicate ShowsUpTo(version: nat, n: nat) {
    exists j: nat :: j <= n && Shows(version, j)
  }

  // At most the reads completed, and one at least if there were any.
  ghost predicate ShowsSome(version: nat, n: nat) {
    exists j: nat :: j <= n && (n > 0 ==> j > 0) && Shows(version, j)
  }

  lemma OneMoreShown(version: nat, n: nat)
    requires ShowsUpTo(version, n)
    ensures ShowsSome(ReadVersion(version), n + 1)
  {
    var j: nat :| j <= n && Shows(version, j);
    WrapAdd(1 + 2 * j, 2);
    assert Shows(ReadVersion(version), j + 1);
  }

  lemma StillShown(version: nat, n: nat)
    requires ShowsUpTo(version, n)
    ensures ShowsUpTo(version, n + 1)
  {
  }

  ghost predicate VersionOk(s: Sections, st: State, at: Place, n: nat) {
    && (if Number(st.memory.capacity, at) < Committed(s, st, at.section)
        then ShowsSome(st.memory.Slot(at.section, at.q, at.i).version, n) else n == 0)
    && forall id :: id in st.readers && ReadsAt(st.readers[id], at) ==> ShowsUpTo(st.readers[id].pc.version, n)
  }

  /* ---------- the producer ---------- */

  predicate Same(m: Memory, m': Memory, at: Place) {
    m'.Slot(at.section, at.q, at.i) == m.Slot(at.section, at.q, at.i)
  }

  lemma SetSlotLeaves(m: Memory, section: Section, q: nat, i: nat, b: Block, at: Place)
    requires at != Place(section, q, i)
    ensures Same(m, m.SetSlot(section, q, i, b), at)
  {
  }

  lemma ClaimingLeaves(
    s: Sections, ops: seq<Op>, m: Memory, w: Writer, section: Section, message: Message, at: Place)
    requires Pushing(s, ops, m, w, section, message) && !Claimed(w.pc) && at.q < |m.Rings(at.section)|
    ensures Same(m, WriteBlockStep(section, message, m, w).0, at)
  {
  }

  // The slot it has claimed is the one after the last committed block.
  lemma ClaimedIsNext(
    s: Sections, ops: seq<Op>, m: Memory, w: Writer, section: Section, message: Message)
    requires Pushing(s, ops, m, w, section, message) && Claimed(w.pc)
    ensures m.Rings(section) != []
    ensures Number(m.capacity, Place(section, |m.Rings(section)| - 1, w.pc.slot)) == Written(s, section, w.next)
  {
  }

  lemma WritingLeaves(section: Section, message: Message, m: Memory, w: Writer, at: Place)
    requires Claimed(w.pc) && m.Rings(section) != []
    requires at != Place(section, |m.Rings(section)| - 1, w.pc.slot)
    ensures Same(m, WriteBlockStep(section, message, m, w).0, at)
  {
    var q := |m.Rings(section)| - 1;
    forall b ensures Same(m, m.SetSlot(section, q, w.pc.slot, b), at) {
      SetSlotLeaves(m, section, q, w.pc.slot, b, at);
    }
  }

  lemma PlaceExists(s: Sections, ops: seq<Op>, m: Memory, w: Writer, at: Place)
    requires WriterOk(s, ops, m, w) && Number(m.capacity, at) < Written(s, at.section, w.next)
    ensures at.q < |m.Rings(at.section)|
  {
    assert SectionOk(s, ops, m, w, at.section);
    if at.q >= |m.Rings(at.section)| {
      BaseMonotone(m.capacity, |m.Rings(at.section)|, at.q);
    }
  }

  lemma WriteLeavesOthers(
    s: Sections, ops: seq<Op>, m: Memory, w: Writer, section: Section, message: Message, at: Place)
    requires Pushing(s, ops, m, w, section, message)
    requires Number(m.capacity, at) < Written(s, at.section, w.next)
    ensures Same(m, WriteBlockStep(section, message, m, w).0, at)
  {
    PlaceExists(s, ops, m, w, at);
    if Claimed(w.pc) {
      ClaimedIsNext(s, ops, m, w, section, message);
      WritingLeaves(section, message, m, w, at);
    } else {
      ClaimingLeaves(s, ops, m, w, section, message, at);
    }
  }

  lemma ProducerLeavesCommitted(s: Sections, m: Memory, w: Writer, at: Place)
    requires WriterOk(s, ProgramOf(s), m, w) && at.i < m.capacity
    requires Number(m.capacity, at) < Written(s, at.section, w.next)
    ensures Same(m, WriterStep(ProgramOf(s), m, w).0, at)
  {
    if w.next < |ProgramOf(s)| && ProgramOf(s)[w.next].Push? {
      var op := ProgramOf(s)[w.next];
      WriteLeavesOthers(s, ProgramOf(s), m, w, op.section, op.message, at);
    }
  }

  // Its commit gives the new block version one.
  lemma CommitIsOne(s: Sections, m: Memory, w: Writer, at: Place)
    requires WriterOk(s, ProgramOf(s), m, w) && at.i < m.capacity
    requires Number(m.capacity, at) >= Written(s, at.section, w.next)
    ensures var (m', w') := WriterStep(ProgramOf(s), m, w);
            Number(m.capacity, at) < Written(s, at.section, w'.next) ==> m'.Slot(at.section, at.q, at.i).version == 1
  {
    var (m', w') := WriterStep(ProgramOf(s), m, w);
    if w.next < |ProgramOf(s)| && Number(m.capacity, at) < Written(s, at.section, w'.next) {
      WrittenNext(s, w.next);
      CommittedSlot(s, ProgramOf(s), m, w, at);
    }
  }

  lemma SamePlace(c: nat, a: Place, b: Place)
    requires a.section == b.section && a.i < c && b.i < c && Number(c, a) == Number(c, b)
    ensures a == b
  {
    if a.q < b.q {
      BaseMonotone(c, a.q + 1, b.q);
    } else if b.q < a.q {
      BaseMonotone(c, b.q + 1, a.q);
    }
  }

  lemma CommittedSlot(s: Sections, ops: seq<Op>, m: Memory, w: Writer, at: Place)
    requires WriterOk(s, ops, m, w) && at.i < m.capacity && w.next < |ops| && ops[w.next].Push?
    requires ops[w.next].section == at.section && w.pc.Commit?
    requires Number(m.capacity, at) == Written(s, at.section, w.next)
    ensures WriterStep(ops, m, w).0.Slot(at.section, at.q, at.i).version == 1
  {
    ClaimedIsNext(s, ops, m, w, at.section, ops[w.next].message);
    assert SectionOk(s, ops, m, w, at.section);
    SamePlace(m.capacity, at, Place(at.section, |m.Rings(at.section)| - 1, w.pc.slot));
  }

  lemma ProducerKeepsVersion(s: Sections, st: State, at: Place, n: nat)
    requires Inv(s, st) && ParsersValid(st) && at.i < st.memory.capacity && VersionOk(s, st, at, n)
    ensures VersionOk(s, StepOf(ProgramOf(s), st, Producer), at, n)
  {
    var c := st.memory.capacity;
    ProducerGrows(s, st.memory, st.writer);
    if Number(c, at) < Committed(s, st, at.section) {
      ProducerLeavesCommitted(s, st.memory, st.writer, at);
    } else {
      CommitIsOne(s, st.memory, st.writer, at);
      assert Shows(1, 0);
    }
  }

  /* ---------- the consumers ---------- */

  // Where a consumer reads, a block has been committed.
  lemma ReadsCommitted(s: Sections, st: State, id: nat, at: Place)
    requires Inv(s, st) && id in st.readers && ReadsAt(st.readers[id], at)
    ensures Number(st.memory.capacity, at) < Committed(s, st, at.section)
    ensures at.q < |st.memory.Rings(at.section)| && at.i < st.memory.capacity
  {
  }

  lemma CompletionShows(s: Sections, st: State, id: nat, at: Place, n: nat)
    requires Inv(s, st) && ParsersValid(st) && VersionOk(s, st, at, n) && Completes(st, Consumer(id), at)
    ensures VersionOk(s, StepOf(ProgramOf(s), st, Consumer(id)), at, n + 1)
  {
    var st', version := StepOf(ProgramOf(s), st, Consumer(id)), st.readers[id].pc.version;
    ReadsCommitted(s, st, id, at);
    assert SectionOk(s, ProgramOf(s), st.memory, st.writer, at.section);
    OneMoreShown(version, n);
    forall other | other in st'.readers && ReadsAt(st'.readers[other], at)
      ensures ShowsUpTo(st'.readers[other].pc.version, n + 1)
    {
      StillShown(st.readers[other].pc.version, n);
    }
  }

  // The consumer goes on reading the slot with the version it found, or begins with the one there.
  predicate KeepsItsVersion(m: Memory, r: Reader, r': Reader, at: Place) {
    ReadsAt(r', at) ==>
      if ReadsAt(r, at) then r'.pc.version == r.pc.version
      else r.pc.FetchVersion? && r'.pc.version == m.Slot(at.section, at.q, at.i).version
  }

  lemma FetchAccess(m: Memory, r: Reader, at: Place)
    requires r.parser.Valid() && (r.pc.FetchVersion? || r.pc.FetchSize? || r.pc.CopyOut?)
    ensures var (m', r') := ReaderStep(m, r); m' == m && KeepsItsVersion(m, r, r', at)
  {
  }

  lemma AcknowledgeElsewhere(m: Memory, r: Reader, at: Place)
    requires r.parser.Valid() && r.pc.Acknowledge? && !ReadsAt(r, at)
    ensures var (m', r') := ReaderStep(m, r); Same(m, m', at) && !ReadsAt(r', at)
  {
    forall b ensures Same(m, m.SetSlot(r.pc.section, r.current, r.blockIndex, b), at) {
      SetSlotLeaves(m, r.pc.section, r.current, r.blockIndex, b, at);
    }
  }

  lemma AccessWithoutBlock(m: Memory, r: Reader, at: Place)
    requires r.parser.Valid() && !r.pc.FetchVersion? && !r.pc.FetchSize? && !r.pc.CopyOut? && !r.pc.Acknowledge?
    ensures var (m', r') := ReaderStep(m, r); m' == m && !ReadsAt(r', at)
  {
  }

  // Any other access of a consumer leaves the slot as it is; a fetch finds its version.
  lemma OtherAccess(m: Memory, r: Reader, at: Place)
    requires r.parser.Valid() && !(r.pc.Acknowledge? && ReadsAt(r, at))
    ensures var (m', r') := ReaderStep(m, r); Same(m, m', at) && KeepsItsVersion(m, r, r', at)
  {
    if r.pc.FetchVersion? || r.pc.FetchSize? || r.pc.CopyOut? {
      FetchAccess(m, r, at);
    } else if r.pc.Acknowledge? {
      AcknowledgeElsewhere(m, r, at);
    } else {
      AccessWithoutBlock(m, r, at);
    }
  }

  lemma ConsumerKeepsVersion(s: Sections, st: State, id: nat, at: Place, n: nat)
    requires Inv(s, st) && ParsersValid(st) && VersionOk(s, st, at, n) && !Completes(st, Consumer(id), at)
    ensures VersionOk(s, StepOf(ProgramOf(s), st, Consumer(id)), at, n)
  {
    var st' := StepOf(ProgramOf(s), st, Consumer(id));
    StepKeepsInv(s, st, Consumer(id));
    if id in st.readers {
      OtherAccess(st.memory, st.readers[id], at);
      if ReadsAt(st'.readers[id], at) && !ReadsAt(st.readers[id], at) {
        ReadsCommitted(s, st', id, at);
      }
    }
  }

  // In every run, for any blocks and consumers: the version of a committed block is one plus twice a
  // number of reads, at most those completed and at least one if any was, modulo 2^32.
  lemma {:induction false} VersionsCountReads(
    s: Sections, capacity: nat, st0: State, schedule: seq<Actor>, at: Place)
    requires Started(s, capacity, st0) && ParsersValid(st0) && at.i < capacity
    ensures VersionOk(s, After(s, st0, schedule), at, ReadsOf(ProgramOf(s), st0, schedule, at))
  {
    if schedule != [] {
      VersionsCountReads(s, capacity, st0, Front(schedule), at);
      AfterIsOk(s, capacity, st0, Front(schedule));
      var st, n := After(s, st0, Front(schedule)), ReadsOf(ProgramOf(s), st0, Front(schedule), at);
      match Last(schedule)
      case Producer => ProducerKeepsVersion(s, st, at, n);
      case Consumer(id) =>
        if Completes(st, Consumer(id), at) {
          CompletionShows(s, st, id, at, n);
        } else {
          ConsumerKeepsVersion(s, st, id, at, n);
        }
    }
  }
}
