/**
 From the encoder calls of a response to the callbacks of a consumer, by way of the entry: what
 the recording leaves, read as the consumer reads it, and for exactly which responses it comes back.
 */
module RoundTrip {
  import opened Blocks
  import opened BlockCodec
  import opened BlockCodecProofs
  import opened BlockCodecExact
  import opened EntryProgram
  import opened RingBuffer
  import opened FinishedEntry

  // The operations on the entry that the encoder calls of r perform.
  function Recorded(r: Response): seq<Op> {
    RecordAll(NEW_RECORDER, ResponseCalls(r)).ops
  }

  // A consumer that starts in state p is done in state q with an entry that holds these blocks and
  // counts. A count above the number of blocks that there are keeps it waiting for ever.
  ghost predicate Reads(
    capacity: nat, hs: seq<Message>, headersCount: nat, ds: seq<Message>, dataCount: nat, ts: seq<Message>,
    p: Parser, q: Parser)
    requires p.Valid()
  {
    headersCount <= |hs| &&
    var h := Run(HeadersSection, p.(fields := [], endStream := false), hs[..headersCount]);
    if h.endStream then q == h else
    dataCount <= |ds| &&
    var d := Run(DataSection, h, ds[..dataCount]);
    if d.endStream then q == d else TrailersRead(capacity, d, ts, q)
  }

  // The same for the entry that these operations make.
  ghost predicate Replays(capacity: nat, ops: seq<Op>, p: Parser, q: Parser)
    requires p.Valid()
  {
    Reads(capacity, PushedTo(HeadersSection, ops), HeadersCount(ops), PushedTo(DataSection, ops), DataCount(ops),
          PushedTo(TrailersSection, ops), p, q)
  }

  lemma ReadsIsServes(capacity: nat, r: Response, p: Parser, q: Parser)
    requires WellOrdered(r) && p.Valid()
    ensures var hs, ds := SectionBlocks(r, HeadersSection), SectionBlocks(r, DataSection);
            Reads(capacity, hs, Wrap(|hs|), ds, if r.chunks != [] then Wrap(|ds|) else UINT32_MAX,
                  SectionBlocks(r, TrailersSection), p, q)
            <==> Serves(capacity, r, p, q)
  {
  }

  lemma ReplaysIsServes(capacity: nat, r: Response, p: Parser, q: Parser)
    requires WellOrdered(r) && p.Valid()
    ensures Replays(capacity, Recorded(r), p, q) <==> Serves(capacity, r, p, q)
  {
    RecordResponse(r);
    SectionsOfResponse(r);
    ProgramContents(SectionsOf(r), HeadersSection);
    ProgramContents(SectionsOf(r), DataSection);
    ProgramContents(SectionsOf(r), TrailersSection);
    ReadsIsServes(capacity, r, p, q);
  }

  /* ---------- trailers without data ---------- */

  lemma HeaderBlocksExist(batches: seq<FieldMap>, end: bool)
    requires batches != []
    ensures BatchesBlocks(batches, end) != []
  {
  }

  lemma LastIsTrailer(e: seq<Event>, r: Response)
    requires r.trailers != []
    ensures var all := e + ResponseEvents(r);
            |all| > |e| && all[|all| - 1] == EncodeTrailers([])
  {
  }

  // With no data blocks a consumer goes from the headers to the trailers, if the data count is zero.
  lemma ReadsNoData(
    capacity: nat, hs: seq<Message>, j: nat, n: nat, ts: seq<Message>, p: Parser, q: Parser)
    requires p.Valid() && Reads(capacity, hs, j, [], n, ts, p, q)
    ensures j <= |hs|
    ensures var h := Run(HeadersSection, p.(fields := [], endStream := false), hs[..j]);
            if h.endStream then q == h else n == 0 && TrailersRead(capacity, h, ts, q)
  {
  }

  // Such a response is not given back: its headers loop counts trailer blocks, and what it leaves
  // when the count has wrapped is short of header blocks.
  lemma DatalessIsLost(capacity: nat, r: Response, p: Parser, q: Parser)
    requires r.headers != [] && r.chunks == [] && r.trailers != [] && p.AtRest()
    requires var hs, ts := SectionBlocks(r, HeadersSection), BatchesBlocks(r.trailers, false);
             Reads(capacity, hs, Wrap(|hs| + |ts|), [], Wrap(|hs|), ts, p, q)
    ensures q.events != p.events + ResponseEvents(r)
  {
    var hs, ts := SectionBlocks(r, HeadersSection), BatchesBlocks(r.trailers, false);
    var j := Wrap(|hs| + |ts|);
    ReadsNoData(capacity, hs, j, Wrap(|hs|), ts, p, q);
    var h := HeadersUpTo(p, r, j);
    assert h.endStream ==> q == h;
    assert !h.endStream ==> TrailersRead(capacity, h, ts, q);
    if !h.endStream {
      CountIsShort(r);
    }
    LostEitherWay(capacity, r, p, j, h, q);
  }

  lemma LostEitherWay(capacity: nat, r: Response, p: Parser, j: nat, h: Parser, q: Parser)
    requires r.headers != [] && r.chunks == [] && r.trailers != [] && p.AtRest()
    requires j <= |SectionBlocks(r, HeadersSection)| && h == HeadersUpTo(p, r, j)
    requires if h.endStream then q == h
             else j < |SectionBlocks(r, HeadersSection)|
                  && TrailersRead(capacity, h, BatchesBlocks(r.trailers, false), q)
    ensures q.events != p.events + ResponseEvents(r)
  {
    HeadersOnly(p, r, j);
    if h.endStream {
      EndsInTrailers(p.events, r, h.events);
    } else {
      HeadersShort(capacity, r, p, j, q);
    }
  }

  lemma CountIsShort(r: Response)
    requires r.headers != [] && Wrap(|SectionBlocks(r, HeadersSection)|) == 0
    ensures Wrap(|SectionBlocks(r, HeadersSection)| + |BatchesBlocks(r.trailers, false)|)
          < |SectionBlocks(r, HeadersSection)|
  {
    HeaderBlocksExist(r.headers, r.chunks == [] && r.trailers == []);
    CountIsLess(|SectionBlocks(r, HeadersSection)|, |BatchesBlocks(r.trailers, false)|);
  }

  lemma HeadersOnly(p: Parser, r: Response, j: nat)
    requires p.Valid() && j <= |SectionBlocks(r, HeadersSection)|
    ensures var h := HeadersUpTo(p, r, j); Only(HeadersSection, h.events, |p.events|, |h.events|)
  {
    RunOnly(HeadersSection, p.(fields := [], endStream := false), SectionBlocks(r, HeadersSection)[..j]);
  }

  lemma CountIsLess(n: nat, m: nat)
    requires n > 0 && Wrap(n) == 0
    ensures Wrap(n + m) < n
  {
  }

  lemma EndsInTrailers(e: seq<Event>, r: Response, events: seq<Event>)
    requires r.trailers != [] && Only(HeadersSection, events, |e|, |events|)
    ensures events != e + ResponseEvents(r)
  {
    LastIsTrailer(e, r);
  }

  // With trailer callbacks only after them, the header callbacks would be those of the response.
  lemma HeadersWouldBe(capacity: nat, r: Response, p: Parser, h: Parser, q: Parser)
    requires r.chunks == [] && r.trailers != [] && h.Valid() && q.events == p.events + ResponseEvents(r)
    requires Only(HeadersSection, h.events, |p.events|, |h.events|)
    requires TrailersRead(capacity, h, BatchesBlocks(r.trailers, false), q)
    ensures h.events == p.events + HeaderEvents(r.headers, false)
  {
    TrailersOnly(capacity, h, BatchesBlocks(r.trailers, false), q);
    ResponseParts(p.events, r);
    Boundary(HeadersSection, p.events, q.events, |h.events|, HeaderEvents(r.headers, false),
             DataEvents(r.chunks, false) + TailEvents(r));
    assert q.events[..|h.events|] == h.events;
  }

  lemma HeadersShort(capacity: nat, r: Response, p: Parser, j: nat, q: Parser)
    requires r.headers != [] && r.chunks == [] && r.trailers != [] && p.AtRest()
    requires j < |SectionBlocks(r, HeadersSection)|
    requires Only(HeadersSection, HeadersUpTo(p, r, j).events, |p.events|, |HeadersUpTo(p, r, j).events|)
    requires TrailersRead(capacity, HeadersUpTo(p, r, j), BatchesBlocks(r.trailers, false), q)
    ensures q.events != p.events + ResponseEvents(r)
  {
    if q.events == p.events + ResponseEvents(r) {
      HeadersWouldBe(capacity, r, p, HeadersUpTo(p, r, j), q);
      HeadersExact(p, r, j);
    }
  }

  /* ---------- exactly which responses come back ---------- */

  // What is recorded of a response comes back as it was sent if and only if there is data before
  // any trailers, the response is storable, and its sections fit the 32-bit counters and cursor.
  lemma RoundTripIff(capacity: nat, r: Response, p: Parser)
    requires r.headers != [] && p.AtRest() && capacity > 0
    ensures (exists q :: Replays(capacity, Recorded(r), p, q) && q.events == p.events + ResponseEvents(r))
       <==> (r.trailers != [] ==> r.chunks != []) && Storable(r) && Fits(capacity, r)
  {
    if r.trailers != [] && r.chunks == [] {
      RecordDataless(r);
      DatalessContents(r);
      forall q | Replays(capacity, Recorded(r), p, q) ensures q.events != p.events + ResponseEvents(r) {
        DatalessIsLost(capacity, r, p, q);
      }
    } else {
      ServesIff(capacity, r, p);
      forall q ensures Replays(capacity, Recorded(r), p, q) <==> Serves(capacity, r, p, q) {
        ReplaysIsServes(capacity, r, p, q);
      }
    }
  }

  // Nothing comes back at all of one header batch and one trailer batch: the consumer waits for a
  // second header block.
  lemma DatalessWaits(capacity: nat, p: Parser, q: Parser)
    requires p.AtRest()
    ensures var r := Response([[]], [], [[]]);
            Storable(r) && Fits(1, r) && !Replays(capacity, Recorded(r), p, q)
  {
    var r := Response([[]], [], [[]]);
    RecordDataless(r);
    DatalessContents(r);
    HeadersHaveSize(r.headers, false);
    HeadersHaveSize(r.trailers, false);
    DataHasSize(r.chunks, false);
    assert HeadersSize([[]]) == 1;
  }
}
