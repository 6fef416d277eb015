/**
 Nobody waits for ever: the producer never waits, and no consumer waits for a block that is
 committed or a count that is published, whether the producer has finished or not.
 */
module StreamingProgress {
  import opened Blocks
  import opened BlockCodec
  import opened BlockCodecProofs
  import opened EntryProgram
  import opened RingBuffer
  import opened Streaming
  import opened StreamingInvariant
  import opened StreamingReaders
  import opened StreamingRuns
  import opened StreamingSafety
  import opened FinishedEntry
  import Exact = BlockCodecExact

  // For a consumer that starts in state p the stream is ended by its last section.
  ghost predicate Ends(c: nat, s: Sections, p: Parser) {
    Servable(c, s, p) && Final(s, p).endStream && (!s.hasData ==> Entry(s, p, DataSection).endStream)
  }

  lemma ResponseEnds(capacity: nat, r: Response, p: Parser)
    requires WellOrdered(r) && Exact.Storable(r) && Fits(capacity, r) && Fresh(p)
    ensures Ends(capacity, SectionsOf(r), p)
  {
    ResponseIsServable(capacity, r, p);
    FinalIsRunResponse(r, p);
    Exact.StorableComesBack(p, r);
    if r.chunks == [] {
      Exact.HeadersRoundTrip(p, r);
      assert p.(endStream := false) == p;
    }
  }

  function Turns(schedule: seq<Actor>, a: Actor): nat {
    if schedule == [] then 0 else Turns(Front(schedule), a) + if Last(schedule) == a then 1 else 0
  }

  /* ---------- consumers ---------- */

  // Blocks known to be committed, and the counts known to be published.
  datatype Supply = Supply(headers: nat, headersCounted: bool, data: nat, dataCounted: bool, trailers: nat)
  {
    function Of(section: Section): nat {
      match section
      case HeadersSection => headers
      case DataSection => data
      case TrailersSection => trailers
    }

    // The section is known to be whole.
    function Whole(section: Section): bool {
      match section
      case HeadersSection => headersCounted
      case DataSection => dataCounted
      case TrailersSection => false
    }
  }

  // So much is there; nothing counts of a section before those ahead of it are whole.
  ghost predicate Supplied(s: Sections, m: Memory, w: Writer, a: Supply) {
    && (forall section :: a.Of(section) <= Written(s, section, w.next))
    && (forall section :: a.Whole(section) ==> a.Of(section) == |s.Of(section)| == m.Count(section))
    && (!a.headersCounted ==> a.data == 0 && !a.dataCounted) && (!a.dataCounted ==> a.trailers == 0)
  }

  // What was there stays there.
  lemma StaysSupplied(s: Sections, m: Memory, w: Writer, m': Memory, w': Writer, a: Supply)
    requires Fitting(m.capacity, s) && CountsOk(s, m, w) && CountsOk(s, m', w')
    requires Grew(m, w, m', w') && Supplied(s, m, w, a)
    ensures Supplied(s, m', w', a)
  {
  }

  // Blocks of the sections after this one, and their number.
  function SectionsLeft(a: Supply, section: Section): nat {
    match section
    case HeadersSection =>
      if a.headersCounted then 1 + a.data + (if a.dataCounted then 1 + a.trailers else 0) else 0
    case DataSection => if a.dataCounted then 1 + a.trailers else 0
    case TrailersSection => 0
  }

  // Steps left for the block under the cursor; `more` says that the supply has such a block.
  function StepsLeft(pc: ReaderPc, more: bool): nat {
    match pc
    case Begin => 91
    case WaitCount(_) => 90
    case WaitBuffer(_) => if more then 89 else 91
    case TakeBuffer(_) => 88
    case LoopTest(_) => 87
    case FetchVersion(_) => if more then 86 else 88
    case FetchSize(_, _) => 85
    case CopyOut(_, _, i) => if i <= BLOCK_SIZE then 84 - i else 0
    case Acknowledge(_, _) => 10
    case Parse(_) => 5
    case Done => 0
  }

  // The consumer has read all of the supply.
  predicate CaughtUp(a: Supply, c: nat, r: Reader) {
    r.pc.Done?
    || (!r.pc.Begin? && Cursor(c, r) >= a.Of(r.pc.section) && !a.Whole(r.pc.section))
  }

  function ReaderMeasure(a: Supply, c: nat, r: Reader): nat {
    if CaughtUp(a, c, r) then 0
    else if r.pc.Begin? then 100 * (a.headers + SectionsLeft(a, HeadersSection)) + 91
    else
      var n, k := a.Of(r.pc.section), Cursor(c, r);
      100 * (SectionsLeft(a, r.pc.section) + if k <= n then n - k else 0) + StepsLeft(r.pc, k < n)
  }

  // Turns in which a consumer reads the supply.
  function TurnsFor(a: Supply): nat {
    100 * (a.headers + a.data + a.trailers + 3)
  }

  lemma MeasureIsBounded(a: Supply, c: nat, r: Reader)
    requires (!a.headersCounted ==> a.data == 0 && !a.dataCounted) && (!a.dataCounted ==> a.trailers == 0)
    ensures ReaderMeasure(a, c, r) <= TurnsFor(a)
  {
  }

  lemma BufferExists(s: Sections, ops: seq<Op>, m: Memory, w: Writer, r: Reader, section: Section)
    requires WriterOk(s, ops, m, w) && Cursor(m.capacity, r) < Written(s, section, w.next)
    ensures r.bufferIndex < |m.Rings(section)|
  {
    assert SectionOk(s, ops, m, w, section);
    if r.bufferIndex >= |m.Rings(section)| {
      BaseMonotone(m.capacity, |m.Rings(section)|, r.bufferIndex);
    }
  }

  // Unless it has caught up, a consumer has a block to read, or a whole section to leave.
  ghost predicate Behind(s: Sections, m: Memory, w: Writer, a: Supply, r: Reader, section: Section) {
    var k := Cursor(m.capacity, r);
    if k < a.Of(section) then
      k < Written(s, section, w.next) && (section != TrailersSection ==> r.readCount == k < m.Count(section))
    else
      section != TrailersSection && a.Whole(section) && r.readCount == k == a.Of(section) == m.Count(section)
      && k == |s.Of(section)|
  }

  lemma BehindIf(s: Sections, p: Parser, m: Memory, w: Writer, a: Supply, r: Reader, section: Section)
    requires p.Valid() && Fitting(m.capacity, s) && CountsOk(s, m, w) && Supplied(s, m, w, a)
    requires InLoop(r.pc) && r.pc.section == section && InSection(s, p, m, w, r, section)
    requires !CaughtUp(a, m.capacity, r)
    ensures Behind(s, m, w, a, r, section)
  {
  }

  lemma ParseAdvances(s: Sections, p: Parser, m: Memory, w: Writer, a: Supply, r: Reader)
    requires Servable(m.capacity, s, p)
    requires Sane(s, m, w, r) && Follows(s, p, m, w, r) && r.pc.Parse? && r.parser.Valid()
    requires !CaughtUp(a, m.capacity, r) && Behind(s, m, w, a, r, r.pc.section)
    ensures ReaderMeasure(a, m.capacity, AfterParse(m.capacity, r, r.pc.section)) < ReaderMeasure(a, m.capacity, r)
  {
    var section := r.pc.section;
    var q := ReadUpTo(s, p, section, Cursor(m.capacity, r) + 1);
    Parsed(s, p, m, w, r, section);
    if !(section == TrailersSection && q.endStream) {
      NextBuffer(s, p, m, w, r, section);
      CursorMoves(m.capacity, r, section, q);
    }
  }

  lemma LeaveAdvances(a: Supply, c: nat, r: Reader, section: Section)
    requires r.pc == LoopTest(section) && section != TrailersSection && a.Whole(section)
    requires Cursor(c, r) == a.Of(section) && !CaughtUp(a, c, r)
    ensures ReaderMeasure(a, c, LeaveSection(r, section)) < ReaderMeasure(a, c, r)
  {
  }

  // Waiting ends, and the loop goes on or the section is left.
  lemma WaitAdvances(s: Sections, ops: seq<Op>, m: Memory, w: Writer, a: Supply, r: Reader)
    requires WriterOk(s, ops, m, w) && r.parser.Valid() && !CaughtUp(a, m.capacity, r)
    requires r.pc.WaitCount? || r.pc.WaitBuffer? || r.pc.TakeBuffer? || r.pc.LoopTest?
    requires Behind(s, m, w, a, r, r.pc.section)
    ensures ReaderMeasure(a, m.capacity, ReaderStep(m, r).1) < ReaderMeasure(a, m.capacity, r)
  {
    var section := r.pc.section;
    if Cursor(m.capacity, r) < a.Of(section) {
      BufferExists(s, ops, m, w, r, section);
    } else if r.pc.LoopTest? {
      LeaveAdvances(a, m.capacity, r, section);
    }
  }

  // A read of a block that is there succeeds.
  lemma FetchAdvances(s: Sections, ops: seq<Op>, m: Memory, w: Writer, a: Supply, r: Reader)
    requires WriterOk(s, ops, m, w) && Sane(s, m, w, r) && r.parser.Valid() && r.pc.FetchVersion?
    requires !CaughtUp(a, m.capacity, r) && Behind(s, m, w, a, r, r.pc.section)
    ensures ReaderMeasure(a, m.capacity, ReaderStep(m, r).1) < ReaderMeasure(a, m.capacity, r)
  {
    SlotUnderCursor(s, ops, m, w, r, r.pc.section);
  }

  lemma CopyAdvances(s: Sections, m: Memory, w: Writer, a: Supply, r: Reader)
    requires Sane(s, m, w, r) && r.parser.Valid() && (r.pc.FetchSize? || r.pc.CopyOut? || r.pc.Acknowledge?)
    requires !CaughtUp(a, m.capacity, r) && Behind(s, m, w, a, r, r.pc.section)
    ensures ReaderMeasure(a, m.capacity, ReaderStep(m, r).1) < ReaderMeasure(a, m.capacity, r)
  {
  }

  // As long as it has not read what is there, every access of a consumer brings it nearer, whatever
  // the producer has still to write.
  lemma ReaderAdvances(s: Sections, p: Parser, ops: seq<Op>, m: Memory, w: Writer, a: Supply, r: Reader)
    requires Servable(m.capacity, s, p) && WriterOk(s, ops, m, w) && Supplied(s, m, w, a)
    requires Sane(s, m, w, r) && Follows(s, p, m, w, r) && r.parser.Valid() && !CaughtUp(a, m.capacity, r)
    ensures ReaderMeasure(a, m.capacity, ReaderStep(m, r).1) < ReaderMeasure(a, m.capacity, r)
  {
    if r.pc.Begin? {
      assert Cursor(m.capacity, ReaderStep(m, r).1) == 0;
    } else {
      BehindIf(s, p, m, w, a, r, r.pc.section);
      match r.pc
      case Parse(_) => ParseAdvances(s, p, m, w, a, r);
      case WaitCount(_) => WaitAdvances(s, ops, m, w, a, r);
      case WaitBuffer(_) => WaitAdvances(s, ops, m, w, a, r);
      case TakeBuffer(_) => WaitAdvances(s, ops, m, w, a, r);
      case LoopTest(_) => WaitAdvances(s, ops, m, w, a, r);
      case FetchVersion(_) => FetchAdvances(s, ops, m, w, a, r);
      case _ => CopyAdvances(s, m, w, a, r);
    }
  }

  // A consumer that has read the supply has read it for good.
  lemma StaysCaughtUp(s: Sections, p: Parser, m: Memory, w: Writer, a: Supply, r: Reader)
    requires Servable(m.capacity, s, p) && Supplied(s, m, w, a)
    requires Sane(s, m, w, r) && Follows(s, p, m, w, r) && r.parser.Valid() && CaughtUp(a, m.capacity, r)
    ensures CaughtUp(a, m.capacity, ReaderStep(m, r).1)
  {
    if r.pc.Parse? {
      var q := ReadUpTo(s, p, r.pc.section, Cursor(m.capacity, r) + 1);
      Parsed(s, p, m, w, r, r.pc.section);
      if !(r.pc.section == TrailersSection && q.endStream) {
        NextBuffer(s, p, m, w, r, r.pc.section);
        CursorMoves(m.capacity, r, r.pc.section, q);
      }
    } else if InLoop(r.pc) && !(r.pc.LoopTest? && Counted(m, r, r.pc.section)) {
      OtherwiseSame(m, r);
    }
  }

  /* ---------- the producer ---------- */

  predicate LastIsFull(m: Memory, section: Section) {
    m.Rings(section) == [] || Last(m.Rings(section)).counter >= m.capacity
  }

  function WriteStepsLeft(pc: WriterPc, full: bool): nat {
    match pc
    case CheckFull => if full then 92 else 90
    case Emplace => 91
    case FetchAdd => 89
    case LoadVersion(_) => 88
    case CheckOdd(_, _) => 87
    case StoreEven(_, _) => 86
    case StoreSize(_, _) => 85
    case CopyIn(_, _, i) => if i <= BLOCK_SIZE then 84 - i else 0
    case Commit(_, _) => 10
  }

  ghost function WriterMeasure(ops: seq<Op>, m: Memory, w: Writer): nat {
    if w.next >= |ops| then 0
    else 100 * (|ops| - w.next)
         + if ops[w.next].Push? then WriteStepsLeft(w.pc, LastIsFull(m, ops[w.next].section)) else 0
  }

  // The step within one block write; the slot claimed is in a buffer that exists.
  lemma WriteStepAdvances(s: Sections, ops: seq<Op>, m: Memory, w: Writer, section: Section, message: Message)
    requires Pushing(s, ops, m, w, section, message) && !Claimed(w.pc)
    ensures var (m', w') := WriteBlockStep(section, message, m, w);
            && w'.next == w.next
            && WriteStepsLeft(w'.pc, LastIsFull(m', section)) < WriteStepsLeft(w.pc, LastIsFull(m, section))
  {
    assert SectionOk(s, ops, m, w, section);
  }

  lemma ClaimedAdvances(s: Sections, ops: seq<Op>, m: Memory, w: Writer, section: Section, message: Message)
    requires Pushing(s, ops, m, w, section, message) && Claimed(w.pc)
    ensures var (m', w') := WriteBlockStep(section, message, m, w);
            if w.pc.Commit? then w'.next == w.next + 1
            else w'.next == w.next
                 && WriteStepsLeft(w'.pc, LastIsFull(m', section)) < WriteStepsLeft(w.pc, LastIsFull(m, section))
  {
    assert SectionOk(s, ops, m, w, section);
  }

  lemma WriterAdvances(s: Sections, ops: seq<Op>, m: Memory, w: Writer)
    requires WriterOk(s, ops, m, w) && w.next < |ops|
    ensures var (m', w') := WriterStep(ops, m, w); WriterMeasure(ops, m', w') < WriterMeasure(ops, m, w)
  {
    match ops[w.next]
    case Push(section, message) =>
      if Claimed(w.pc) {
        ClaimedAdvances(s, ops, m, w, section, message);
      } else {
        WriteStepAdvances(s, ops, m, w, section, message);
      }
    case _ =>
  }

  // Consumers neither fill nor add buffers.
  lemma ReadersLeaveCounters(ops: seq<Op>, m: Memory, w: Writer, r: Reader)
    requires r.parser.Valid()
    ensures WriterMeasure(ops, ReaderStep(m, r).0, w) == WriterMeasure(ops, m, w)
  {
  }

  /* ---------- every run ---------- */

  lemma {:induction false} ProducerFinishes(s: Sections, st: State, schedule: seq<Actor>)
    requires Inv(s, st) && ParsersValid(st)
    ensures var st' := Exec(ProgramOf(s), st, schedule);
            WriterMeasure(ProgramOf(s), st'.memory, st'.writer) == 0
            || WriterMeasure(ProgramOf(s), st'.memory, st'.writer) + Turns(schedule, Producer)
               <= WriterMeasure(ProgramOf(s), st.memory, st.writer)
  {
    if schedule != [] {
      var ops := ProgramOf(s);
      var before := Exec(ops, st, Front(schedule));
      ProducerFinishes(s, st, Front(schedule));
      EveryState(s, st, Front(schedule));
      match Last(schedule)
      case Producer =>
        if before.writer.next < |ops| {
          WriterAdvances(s, ops, before.memory, before.writer);
        }
      case Consumer(id) =>
        if id in before.readers {
          ReadersLeaveCounters(ops, before.memory, before.writer, before.readers[id]);
        }
    }
  }

  ghost predicate ProducerDone(s: Sections, st: State) {
    st.writer.next == |ProgramOf(s)|
  }

  lemma ConsumerTurn(s: Sections, p: Parser, a: Supply, st: State, actor: Actor, id: nat)
    requires Inv(s, st) && ParsersValid(st) && Reads(s, p, st, id) && Supplied(s, st.memory, st.writer, a)
    ensures var st' := StepOf(ProgramOf(s), st, actor); var c := st.memory.capacity;
            && id in st'.readers
            && (CaughtUp(a, c, st.readers[id]) ==> CaughtUp(a, c, st'.readers[id]))
            && (!CaughtUp(a, c, st.readers[id]) ==>
                  ReaderMeasure(a, c, st'.readers[id]) + (if actor == Consumer(id) then 1 else 0)
                  <= ReaderMeasure(a, c, st.readers[id]))
  {
    if actor == Consumer(id) {
      if CaughtUp(a, st.memory.capacity, st.readers[id]) {
        StaysCaughtUp(s, p, st.memory, st.writer, a, st.readers[id]);
      } else {
        ReaderAdvances(s, p, ProgramOf(s), st.memory, st.writer, a, st.readers[id]);
      }
    }
  }

  lemma StepKeepsSupply(s: Sections, p: Parser, a: Supply, st: State, actor: Actor, id: nat)
    requires Inv(s, st) && ParsersValid(st) && Reads(s, p, st, id) && Supplied(s, st.memory, st.writer, a)
    ensures var st' := StepOf(ProgramOf(s), st, actor); Supplied(s, st'.memory, st'.writer, a)
  {
    var st' := StepOf(ProgramOf(s), st, actor);
    StepKeepsInv(s, st, actor);
    StaysSupplied(s, st.memory, st.writer, st'.memory, st'.writer, a);
  }

  // Under every schedule each turn of a consumer that has not caught up counts.
  lemma {:induction false} ConsumerCatchesUp(
    s: Sections, p: Parser, a: Supply, st: State, schedule: seq<Actor>, id: nat)
    requires Inv(s, st) && ParsersValid(st) && Reads(s, p, st, id) && Supplied(s, st.memory, st.writer, a)
    ensures var st' := Exec(ProgramOf(s), st, schedule); var c := st.memory.capacity;
            && id in st'.readers && Supplied(s, st'.memory, st'.writer, a)
            && (CaughtUp(a, c, st'.readers[id])
                || ReaderMeasure(a, c, st'.readers[id]) + Turns(schedule, Consumer(id))
                   <= ReaderMeasure(a, c, st.readers[id]))
  {
    if schedule != [] {
      var before := Exec(ProgramOf(s), st, Front(schedule));
      ConsumerCatchesUp(s, p, a, st, Front(schedule), id);
      EveryState(s, st, Front(schedule));
      EveryStateOf(s, p, st, Front(schedule), id);
      SameReaders(ProgramOf(s), st, Front(schedule));
      StepKeepsSupply(s, p, a, before, Last(schedule), id);
      ConsumerTurn(s, p, a, before, Last(schedule), id);
    }
  }

  lemma NothingLeft(a: Supply, c: nat, s: Sections, m: Memory, w: Writer, r: Reader)
    requires Sane(s, m, w, r) && ReaderMeasure(a, c, r) == 0
    ensures CaughtUp(a, c, r)
  {
  }

  // So after a bounded number of its turns, whoever else has turns, it has read what was there.
  lemma CatchesUp(s: Sections, p: Parser, a: Supply, st: State, schedule: seq<Actor>, id: nat)
    requires Inv(s, st) && ParsersValid(st) && Reads(s, p, st, id) && Supplied(s, st.memory, st.writer, a)
    requires Turns(schedule, Consumer(id)) >= TurnsFor(a)
    ensures var st' := Exec(ProgramOf(s), st, schedule);
            id in st'.readers && CaughtUp(a, st.memory.capacity, st'.readers[id])
  {
    ConsumerCatchesUp(s, p, a, st, schedule, id);
    MeasureIsBounded(a, st.memory.capacity, st.readers[id]);
    EveryState(s, st, schedule);
    var st' := Exec(ProgramOf(s), st, schedule);
    if !CaughtUp(a, st.memory.capacity, st'.readers[id]) {
      NothingLeft(a, st.memory.capacity, s, st'.memory, st'.writer, st'.readers[id]);
    }
  }

  /* ---------- when everything has been written ---------- */

  // The memory a finished producer leaves.
  function WholeSupply(s: Sections): Supply {
    Supply(|s.headers|, true, |s.data|, s.hasData, |s.trailers|)
  }

  lemma FinishedIsSupplied(s: Sections, m: Memory, w: Writer)
    requires Fitting(m.capacity, s) && CountsOk(s, m, w) && w.next == |ProgramOf(s)|
    ensures Supplied(s, m, w, WholeSupply(s))
  {
    ProgramAt(s, w.next);
  }

  // A consumer that has read everything has seen the end of the stream.
  lemma CaughtUpIsDone(s: Sections, p: Parser, m: Memory, w: Writer, r: Reader)
    requires Ends(m.capacity, s, p) && Follows(s, p, m, w, r) && CaughtUp(WholeSupply(s), m.capacity, r)
    ensures r.pc.Done?
  {
    assert s.trailers[..|s.trailers|] == s.trailers;
  }

  function Bound(s: Sections): nat {
    TurnsFor(WholeSupply(s))
  }

  // The producer's turns needed to record the sections.
  function WriterBound(s: Sections): nat {
    100 * (|ProgramOf(s)| + 1)
  }

  // In every run: once the producer has had its turns it is done, and a consumer that
  // then has its turns is done as well and has added all the callbacks to those it had made before.
  lemma EveryoneFinishes(
    r: Response, capacity: nat, st0: State, schedule: seq<Actor>, more: seq<Actor>, id: nat)
    requires WellOrdered(r) && Exact.Storable(r) && Fits(capacity, r) && capacity > 0
    requires Initial(capacity, st0) && id in st0.readers && Rested(st0.readers[id])
    requires Turns(schedule, Producer) >= WriterBound(SectionsOf(r))
    requires Turns(more, Consumer(id)) >= Bound(SectionsOf(r))
    ensures ParsersValid(st0) && id in Exec(Program(r), st0, schedule + more).readers
    ensures ProducerDone(SectionsOf(r), Exec(Program(r), st0, schedule))
    ensures Exec(Program(r), st0, schedule + more).readers[id].pc.Done?
    ensures Exec(Program(r), st0, schedule + more).readers[id].parser == Served(st0.readers[id].parser, r)
  {
    SectionsOfResponse(r);
    ResponseEnds(capacity, r, StartOf(st0.readers[id]));
    SectionsFinish(SectionsOf(r), capacity, st0, schedule, more, id);
    StreamingRefinesResponse(r, capacity, st0, schedule + more, id);
  }

  // The producer is done after its turns whatever it records and whoever reads.
  lemma ProducerIsDone(s: Sections, capacity: nat, st0: State, schedule: seq<Actor>)
    requires Started(s, capacity, st0) && Turns(schedule, Producer) >= WriterBound(s)
    ensures ParsersValid(st0) && ProducerDone(s, After(s, st0, schedule))
  {
    InitialIsOk(s, capacity, st0);
    AfterIsOk(s, capacity, st0, schedule);
    ProducerFinishes(s, st0, schedule);
  }

  lemma SectionsFinish(s: Sections, capacity: nat, st0: State, schedule: seq<Actor>, more: seq<Actor>, id: nat)
    requires Started(s, capacity, st0) && id in st0.readers && Ends(capacity, s, StartOf(st0.readers[id]))
    requires Turns(schedule, Producer) >= WriterBound(s) && Turns(more, Consumer(id)) >= Bound(s)
    ensures ParsersValid(st0) && id in After(s, st0, schedule + more).readers
    ensures ProducerDone(s, After(s, st0, schedule))
    ensures After(s, st0, schedule + more).readers[id].pc.Done?
  {
    var st, p := After(s, st0, schedule), StartOf(st0.readers[id]);
    InitialIsOk(s, capacity, st0);
    ProducerIsDone(s, capacity, st0, schedule);
    AfterIsOk(s, capacity, st0, schedule);
    EveryStateOf(s, p, st0, schedule, id);
    FinishedIsSupplied(s, st.memory, st.writer);
    CatchesUp(s, p, WholeSupply(s), st, more, id);
    EveryStateOf(s, p, st, more, id);
    ExecConcat(ProgramOf(s), st0, schedule, more);
    SameReaders(ProgramOf(s), st, more);
    var st' := After(s, st0, schedule + more);
    CaughtUpIsDone(s, p, st'.memory, st'.writer, st'.readers[id]);
  }
}
