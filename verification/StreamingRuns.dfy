/**
 What holds after every schedule of one producer recording a response and any
 number of consumers serving it.
 */
module StreamingRuns {
  import opened Blocks
  import opened BlockCodec
  import opened BlockCodecProofs
  import Exact = BlockCodecExact
  import opened EntryProgram
  import opened RingBuffer
  import opened Streaming
  import opened StreamingInvariant
  import opened StreamingReaders
  import opened FinishedEntry

  // The memory, the producer and what every consumer knows of the memory, for any sections and consumers.
  ghost predicate Inv(s: Sections, st: State) {
    && WriterOk(s, ProgramOf(s), st.memory, st.writer)
    && forall id :: id in st.readers ==> Sane(s, st.memory, st.writer, st.readers[id])
  }

  // This consumer started in state p and has parsed the blocks before its cursor.
  ghost predicate Reads(s: Sections, p: Parser, st: State, id: nat) {
    && id in st.readers && Servable(st.memory.capacity, s, p)
    && Follows(s, p, st.memory, st.writer, st.readers[id])
  }

  lemma InitialIsOk(s: Sections, capacity: nat, st: State)
    requires s.Valid() && capacity > 0 && Initial(capacity, st)
    ensures Inv(s, st) && ParsersValid(st)
  {
  }

  lemma StepKeepsInv(s: Sections, st: State, a: Actor)
    requires Inv(s, st) && ParsersValid(st)
    ensures Inv(s, StepOf(ProgramOf(s), st, a))
    ensures var st' := StepOf(ProgramOf(s), st, a); Grew(st.memory, st.writer, st'.memory, st'.writer)
  {
    var st' := StepOf(ProgramOf(s), st, a);
    match a
    case Producer =>
      WriterStepOk(s, st.memory, st.writer);
      ProducerGrows(s, st.memory, st.writer);
      forall id | id in st'.readers ensures Sane(s, st'.memory, st'.writer, st'.readers[id]) {
        OthersKeepSane(s, st.memory, st.writer, st'.memory, st'.writer, st.readers[id]);
      }
    case Consumer(self) =>
      if self in st.readers {
        ReaderStepSane(s, ProgramOf(s), st.memory, st.writer, st.readers[self]);
        forall id | id in st'.readers ensures Sane(s, st'.memory, st'.writer, st'.readers[id]) {
          if id != self {
            OthersKeepSane(s, st.memory, st.writer, st'.memory, st'.writer, st.readers[id]);
          }
        }
      }
  }

  // Its own accesses and those of the others, whatever they have parsed.
  lemma StepKeepsReader(s: Sections, p: Parser, st: State, a: Actor, id: nat)
    requires Inv(s, st) && ParsersValid(st) && Reads(s, p, st, id)
    ensures Reads(s, p, StepOf(ProgramOf(s), st, a), id)
  {
    var st' := StepOf(ProgramOf(s), st, a);
    StepKeepsInv(s, st, a);
    StepKeepsNames(ProgramOf(s), st, a);
    if a == Consumer(id) {
      ReaderStepFollows(s, p, st.memory, st.writer, st.readers[id]);
      OthersKeepFollows(s, p, st.memory, st.writer, st'.memory, st'.writer, st'.readers[id]);
    } else {
      OthersKeepFollows(s, p, st.memory, st.writer, st'.memory, st'.writer, st.readers[id]);
    }
  }

  lemma {:induction false} EveryState(s: Sections, st: State, schedule: seq<Actor>)
    requires Inv(s, st) && ParsersValid(st)
    ensures Inv(s, Exec(ProgramOf(s), st, schedule))
  {
    if schedule != [] {
      EveryState(s, st, Front(schedule));
      StepKeepsInv(s, Exec(ProgramOf(s), st, Front(schedule)), Last(schedule));
    }
  }

  lemma {:induction false} EveryStateOf(s: Sections, p: Parser, st: State, schedule: seq<Actor>, id: nat)
    requires Inv(s, st) && ParsersValid(st) && Reads(s, p, st, id)
    ensures Reads(s, p, Exec(ProgramOf(s), st, schedule), id)
  {
    if schedule != [] {
      EveryState(s, st, Front(schedule));
      EveryStateOf(s, p, st, Front(schedule), id);
      StepKeepsReader(s, p, Exec(ProgramOf(s), st, Front(schedule)), Last(schedule), id);
    }
  }

  lemma {:induction false} ExecConcat(ops: seq<Op>, st: State, a: seq<Actor>, b: seq<Actor>)
    requires ParsersValid(st)
    ensures Exec(ops, st, a + b) == Exec(ops, Exec(ops, st, a), b)
  {
    if b == [] {
      assert a + b == a;
    } else {
      assert Front(a + b) == a + Front(b);
      ExecConcat(ops, st, a, Front(b));
    }
  }

  /* ---------- what consumers emit ---------- */

  lemma Continues(s: Sections, p: Parser, section: Section, k: nat)
    requires p.Valid() && k <= |s.Of(section)|
    ensures ReadUpTo(s, p, section, k).events <= Run(section, Entry(s, p, section), s.Of(section)).events
    ensures Entry(s, p, section).events <= ReadUpTo(s, p, section, k).events
  {
    var blocks := s.Of(section);
    assert blocks == blocks[..k] + blocks[k..];
    RunConcat(section, Entry(s, p, section), blocks[..k], blocks[k..]);
    RunMonotone(section, Entry(s, p, section), blocks[..k]);
    RunMonotone(section, ReadUpTo(s, p, section, k), blocks[k..]);
  }

  // Whatever part of a section has been read, its callbacks start those of the whole.
  lemma PrefixOfFinal(s: Sections, p: Parser, section: Section, k: nat)
    requires p.Valid() && Entered(s, p, section) && k <= |s.Of(section)|
    ensures p.events <= ReadUpTo(s, p, section, k).events <= Final(s, p).events
  {
    Continues(s, p, section, k);
    RunMonotone(HeadersSection, p, s.headers);
    RunMonotone(DataSection, Entry(s, p, DataSection), s.data);
    RunMonotone(TrailersSection, Entry(s, p, TrailersSection), s.trailers);
  }

  lemma FinalExtends(s: Sections, p: Parser)
    requires p.Valid()
    ensures p.events <= Final(s, p).events
  {
    PrefixOfFinal(s, p, HeadersSection, 0);
  }

  lemma EmittedPrefix(s: Sections, p: Parser, m: Memory, w: Writer, r: Reader)
    requires p.Valid() && Follows(s, p, m, w, r)
    ensures p.events <= r.parser.events <= Final(s, p).events
    ensures r.pc.Done? ==> r.parser == Final(s, p)
  {
    FinalExtends(s, p);
    if InLoop(r.pc) {
      PrefixOfFinal(s, p, r.pc.section, Cursor(m.capacity, r));
    }
  }

  // A parser ready to read the first block.
  ghost predicate Fresh(p: Parser) {
    p.AtRest() && !p.endStream
  }

  lemma FinalIsRunResponse(r: Response, p: Parser)
    requires WellOrdered(r) && Fresh(p)
    ensures Final(SectionsOf(r), p) == RunResponse(p, r)
  {
    assert p.(fields := [], endStream := false) == p;
    SectionsOfResponse(r);
  }

  lemma TrailersEntry(r: Response, p: Parser)
    requires WellOrdered(r) && Exact.Storable(r) && r.trailers != [] && Fresh(p)
    ensures Entry(SectionsOf(r), p, TrailersSection) == Exact.AfterData(p, r)
  {
    Exact.HeadersRoundTrip(p, r);
    Exact.DataRoundTrip(p, r);
    assert p.(endStream := false) == p;
    assert Exact.AfterData(p, r).(fields := []) == Exact.AfterData(p, r);
  }

  lemma TrailersAreServable(r: Response, p: Parser)
    requires WellOrdered(r) && Exact.Storable(r) && r.trailers != [] && Fresh(p)
    ensures var s := SectionsOf(r);
            && (forall j: nat :: j < |s.trailers| ==> !ReadUpTo(s, p, TrailersSection, j).endStream)
            && ReadUpTo(s, p, TrailersSection, |s.trailers|).endStream
  {
    var s := SectionsOf(r);
    SectionsOfResponse(r);
    TrailersEntry(r, p);
    forall j: nat | j < |s.trailers| ensures !ReadUpTo(s, p, TrailersSection, j).endStream {
      Exact.TrailersEndLast(p, r, j);
    }
    assert s.trailers[..|s.trailers|] == s.trailers;
    Exact.ReadTrailers(Exact.AfterData(p, r), r.trailers);
  }

  lemma ResponseIsServable(capacity: nat, r: Response, p: Parser)
    requires WellOrdered(r) && Exact.Storable(r) && Fits(capacity, r) && Fresh(p)
    ensures Servable(capacity, SectionsOf(r), p)
  {
    SectionsOfResponse(r);
    if r.trailers != [] {
      TrailersAreServable(r, p);
    }
  }

  // A consumer about to serve that has nothing half read from what it served before.
  ghost predicate Rested(r: Reader) {
    AboutToServe(r) && Fresh(StartOf(r))
  }

  lemma RestedReads(capacity: nat, r: Response, st: State, id: nat)
    requires WellOrdered(r) && Exact.Storable(r) && Fits(capacity, r) && capacity > 0
    requires Initial(capacity, st) && id in st.readers && Rested(st.readers[id])
    ensures Inv(SectionsOf(r), st) && ParsersValid(st)
    ensures Reads(SectionsOf(r), StartOf(st.readers[id]), st, id)
  {
    SectionsOfResponse(r);
    InitialIsOk(SectionsOf(r), capacity, st);
    ResponseIsServable(capacity, r, StartOf(st.readers[id]));
  }

  // A consumer that has served r since it was in state p0.
  function Served(p0: Parser, r: Response): Parser {
    p0.(fields := [], events := p0.events + ResponseEvents(r), endStream := true)
  }

  lemma FinalIsServed(r: Response, p0: Parser)
    requires WellOrdered(r) && Exact.Storable(r) && Fresh(p0.(fields := [], endStream := false))
    ensures Final(SectionsOf(r), p0.(fields := [], endStream := false)) == Served(p0, r)
  {
    FinalIsRunResponse(r, p0.(fields := [], endStream := false));
    Exact.StorableComesBack(p0.(fields := [], endStream := false), r);
  }

  // At any moment a consumer has added a prefix of the response's callbacks to those it had made
  // before the run, and all of them once it is done; it can then serve again.
  lemma StreamingRefinesResponse(r: Response, capacity: nat, st: State, schedule: seq<Actor>, id: nat)
    requires WellOrdered(r) && Exact.Storable(r) && Fits(capacity, r) && capacity > 0
    requires Initial(capacity, st) && id in st.readers && Rested(st.readers[id])
    ensures ParsersValid(st)
    ensures var before := st.readers[id].parser; var st' := Exec(Program(r), st, schedule);
            && id in st'.readers
            && before.events <= st'.readers[id].parser.events <= before.events + ResponseEvents(r)
            && (st'.readers[id].pc.Done? ==>
                  st'.readers[id].parser == Served(before, r) && Rested(st'.readers[id].(pc := Begin)))
  {
    var s, p := SectionsOf(r), StartOf(st.readers[id]);
    RestedReads(capacity, r, st, id);
    EveryState(s, st, schedule);
    EveryStateOf(s, p, st, schedule, id);
    var st' := Exec(Program(r), st, schedule);
    EmittedPrefix(s, p, st'.memory, st'.writer, st'.readers[id]);
    FinalIsServed(r, st.readers[id].parser);
  }

  lemma {:induction false} SameReaders(ops: seq<Op>, st: State, schedule: seq<Actor>)
    requires ParsersValid(st)
    ensures Exec(ops, st, schedule).readers.Keys == st.readers.Keys
    ensures Exec(ops, st, schedule).memory.capacity == st.memory.capacity
  {
    if schedule != [] {
      SameReaders(ops, st, Front(schedule));
      StepKeepsNames(ops, Exec(ops, st, Front(schedule)), Last(schedule));
    }
  }

  lemma StepKeepsNames(ops: seq<Op>, st: State, a: Actor)
    requires ParsersValid(st)
    ensures StepOf(ops, st, a).readers.Keys == st.readers.Keys
    ensures StepOf(ops, st, a).memory.capacity == st.memory.capacity
  {
  }
}
