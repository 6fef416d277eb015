/**
 The loop over the trailers of a finished entry. It ends only at an end-of-stream block, and
 its 32-bit buffer index returns to the first buffer after `reach` blocks: what it reads is
 the first `reach` blocks of the section, over and over, until the stream ends.
 */
module TrailerLoop {
  import opened Blocks
  import opened BlockCodec
  import opened BlockCodecProofs

  // The parser after k whole passes over the first `reach` blocks.
  ghost function Pass(reach: nat, blocks: seq<Message>, p: Parser, k: nat): (q: Parser)
    requires p.Valid() && (k == 0 || reach <= |blocks|)
    ensures q.Valid()
  {
    if k == 0 then p else Run(TrailersSection, Pass(reach, blocks, p, k - 1), blocks[..reach])
  }

  // The parser after the first a blocks of the pass that follows.
  ghost function At(reach: nat, blocks: seq<Message>, p: Parser, k: nat, a: nat): (q: Parser)
    requires p.Valid() && (k == 0 || reach <= |blocks|) && a <= |blocks|
    ensures q.Valid()
  {
    Run(TrailersSection, Pass(reach, blocks, p, k), blocks[..a])
  }

  // The stream ends at block a of pass k.
  ghost predicate EndsAt(reach: nat, blocks: seq<Message>, p: Parser, k: nat, a: nat) {
    && p.Valid() && (k == 0 || reach <= |blocks|) && a < reach && a < |blocks|
    && !At(reach, blocks, p, k, a).endStream && At(reach, blocks, p, k, a + 1).endStream
  }

  lemma AtNext(reach: nat, blocks: seq<Message>, p: Parser, k: nat, a: nat)
    requires p.Valid() && (k == 0 || reach <= |blocks|) && a < |blocks|
    ensures At(reach, blocks, p, k, a + 1) == Step(TrailersSection, At(reach, blocks, p, k, a), blocks[a])
  {
    assert Front(blocks[..a + 1]) == blocks[..a];
  }

  lemma AtPiece(reach: nat, blocks: seq<Message>, p: Parser, k: nat, a: nat, b: nat)
    requires p.Valid() && (k == 0 || reach <= |blocks|) && a <= b <= |blocks|
    ensures At(reach, blocks, p, k, b) == Run(TrailersSection, At(reach, blocks, p, k, a), blocks[a..b])
  {
    assert blocks[..b] == blocks[..a] + blocks[a..b];
    RunConcat(TrailersSection, Pass(reach, blocks, p, k), blocks[..a], blocks[a..b]);
  }

  /* ---------- the control state of the parser ---------- */

  // A name is counted in whole blocks until it is complete, and a complete name has a length.
  ghost predicate Tidy(q: Parser) {
    && q.Valid() && q.keyLength < UINT32_LIMIT
    && (if q.keyReadDone then q.keyLength != 0 else q.keyLength % BLOCK_SIZE == 0)
  }

  lemma StepTidy(q: Parser, m: Message)
    requires Tidy(q)
    ensures Tidy(Step(TrailersSection, q, m))
  {
  }

  lemma {:induction false} RunTidy(q: Parser, ms: seq<Message>)
    requires Tidy(q)
    ensures Tidy(Run(TrailersSection, q, ms))
  {
    if ms != [] {
      RunTidy(q, Front(ms));
      StepTidy(Run(TrailersSection, q, Front(ms)), Last(ms));
    }
  }

  // A short block leaves the parser between names and values, or at the start of a value; and
  // between batches only if it was an empty block met between fields.
  lemma ShortStep(q: Parser, m: Message)
    requires Tidy(q) && |m| < BLOCK_SIZE
    ensures var q' := Step(TrailersSection, q, m);
            && (q'.keyReadDone || q'.keyLength == 0)
            && (q'.keyLength == 0 && q'.fields == [] ==> m == [] && q.keyLength == 0)
            && (q'.keyReadDone && m == [] ==> q.keyLength != 0 && !q.keyReadDone)
  {
  }

  ghost predicate AllFull(ms: seq<Message>) {
    forall i :: 0 <= i < |ms| ==> |ms[i]| == BLOCK_SIZE
  }

  lemma FullStep(q: Parser, m: Message)
    requires Tidy(q) && |m| == BLOCK_SIZE && !Step(TrailersSection, q, m).endStream
    ensures var q' := Step(TrailersSection, q, m);
            && q'.keyReadDone == q.keyReadDone && q'.fields == q.fields && q'.events == q.events
            && q'.keyLength == (if q.keyReadDone then q.keyLength else Wrap(q.keyLength + BLOCK_SIZE))
  {
  }

  // Full blocks lengthen a name, or a value.
  lemma {:induction false} FullRun(q: Parser, ms: seq<Message>)
    requires Tidy(q) && AllFull(ms) && !Run(TrailersSection, q, ms).endStream
    ensures var q' := Run(TrailersSection, q, ms);
            && q'.keyReadDone == q.keyReadDone && q'.fields == q.fields && q'.events == q.events
            && q'.keyLength == (if q.keyReadDone then q.keyLength else Wrap(q.keyLength + BLOCK_SIZE * |ms|))
  {
    if ms != [] {
      var front := Run(TrailersSection, q, Front(ms));
      StepMonotone(TrailersSection, front, Last(ms));
      FullRun(q, Front(ms));
      RunTidy(q, Front(ms));
      FullStep(front, Last(ms));
      WrapAdd(q.keyLength + BLOCK_SIZE * |Front(ms)|, BLOCK_SIZE);
    }
  }

  /* ---------- runs of full blocks ---------- */

  // Where the run of full blocks before position e starts.
  function RunStart(ms: seq<Message>, e: nat): (j: nat)
    requires e <= |ms|
    ensures j <= e && (j > 0 ==> |ms[j - 1]| < BLOCK_SIZE)
    ensures forall i :: j <= i < e ==> |ms[i]| == BLOCK_SIZE
  {
    if e == 0 || |ms[e - 1]| < BLOCK_SIZE then e else RunStart(ms, e - 1)
  }

  // Full blocks of a string of 2^32 bytes.
  const LONGEST: nat := 0x400_0000

  lemma BelowLongest(n: nat)
    requires 0 < n < LONGEST
    ensures Wrap(BLOCK_SIZE * n) == BLOCK_SIZE * n > 0
  {
  }

  ghost predicate RunsAreBounded(ms: seq<Message>) {
    forall e :: 0 <= e <= |ms| ==> e - RunStart(ms, e) <= LONGEST
  }

  predicate EndsShort(ms: seq<Message>) {
    ms == [] || |Last(ms)| < BLOCK_SIZE
  }

  lemma {:induction false} RunStartConcat(a: seq<Message>, b: seq<Message>, e: nat)
    requires EndsShort(a) && e <= |a + b|
    ensures RunStart(a + b, e) == if e <= |a| then RunStart(a, e) else |a| + RunStart(b, e - |a|)
  {
    if e > 0 {
      RunStartConcat(a, b, e - 1);
    }
  }

  lemma BoundedConcat(a: seq<Message>, b: seq<Message>)
    requires EndsShort(a) && RunsAreBounded(a) && EndsShort(b) && RunsAreBounded(b)
    ensures EndsShort(a + b) && RunsAreBounded(a + b)
  {
    forall e | 0 <= e <= |a + b| ensures e - RunStart(a + b, e) <= LONGEST {
      RunStartConcat(a, b, e);
    }
  }

  lemma StringIsBounded(s: Bytes)
    requires |s| <= UINT32_LIMIT
    ensures EndsShort(StringBlocks(s)) && RunsAreBounded(StringBlocks(s)) && StringBlocks(s) != []
  {
    StringBlocksShape(s);
  }

  lemma FieldIsBounded(f: Field)
    ensures EndsShort(FieldBlocks(f)) && RunsAreBounded(FieldBlocks(f))
  {
    StringIsBounded(Stored(f.name));
    StringIsBounded(Stored(f.value));
    BoundedConcat(StringBlocks(Stored(f.name)), StringBlocks(Stored(f.value)));
  }

  lemma {:induction false} MapIsBounded(fields: FieldMap)
    ensures EndsShort(MapBlocks(fields)) && RunsAreBounded(MapBlocks(fields))
  {
    if fields != [] {
      MapIsBounded(Front(fields));
      FieldIsBounded(Last(fields));
      BoundedConcat(MapBlocks(Front(fields)), FieldBlocks(Last(fields)));
    }
  }

  lemma BatchIsBounded(fields: FieldMap)
    ensures EndsShort(BatchBlocks(fields, false)) && RunsAreBounded(BatchBlocks(fields, false))
  {
    MapIsBounded(fields);
    BoundedConcat(MapBlocks(fields), [Delimiter(false)]);
  }

  // No string takes more than 2^32 bytes in the buffers, whatever was to be stored.
  lemma {:induction false} BatchesAreBounded(batches: seq<FieldMap>)
    ensures EndsShort(BatchesBlocks(batches, false)) && RunsAreBounded(BatchesBlocks(batches, false))
  {
    if batches != [] {
      BatchesAreBounded(Front(batches));
      BatchIsBounded(Last(batches));
      BoundedConcat(BatchesBlocks(Front(batches), false), BatchBlocks(Last(batches), false));
    }
  }

  // The last delimiter follows a short block, or nothing.
  lemma LastDelimiter(batches: seq<FieldMap>)
    requires batches != []
    ensures var all := BatchesBlocks(batches, false);
            all != [] && Last(all) == [] && EndsShort(Front(all))
  {
    var front, b := BatchesBlocks(Front(batches), false), Last(batches);
    BatchesAreBounded(Front(batches));
    MapIsBounded(b);
    BoundedConcat(front, MapBlocks(b));
    assert front + BatchBlocks(b, false) == front + MapBlocks(b) + [Delimiter(false)];
    assert Front(front + MapBlocks(b) + [Delimiter(false)]) == front + MapBlocks(b);
  }

  /* ---------- where a second or later pass can end ---------- */

  // The loop starts between batches and goes round: the section is longer than its reach.
  ghost predicate Looping(reach: nat, blocks: seq<Message>, p: Parser) {
    && BetweenFields(p) && p.fields == [] && !p.endStream
    && 3 * LONGEST < reach < |blocks|
    && (forall e :: 0 <= e <= reach ==> e - RunStart(blocks, e) <= LONGEST)
  }

  lemma {:induction false} PassTidy(reach: nat, blocks: seq<Message>, p: Parser, k: nat)
    requires Looping(reach, blocks, p)
    ensures Tidy(Pass(reach, blocks, p, k))
  {
    if k > 0 {
      PassTidy(reach, blocks, p, k - 1);
      RunTidy(Pass(reach, blocks, p, k - 1), blocks[..reach]);
    }
  }

  lemma AtTidy(reach: nat, blocks: seq<Message>, p: Parser, k: nat, a: nat)
    requires Looping(reach, blocks, p) && a <= reach
    ensures Tidy(At(reach, blocks, p, k, a))
  {
    PassTidy(reach, blocks, p, k);
    RunTidy(Pass(reach, blocks, p, k), blocks[..a]);
  }

  // The end of the stream is final, so the stream had not ended at any earlier point.
  lemma {:induction false} NotYet(reach: nat, blocks: seq<Message>, p: Parser, k: nat, i: nat, h: nat, a: nat)
    requires p.Valid() && (k == 0 || reach <= |blocks|) && i <= |blocks| && !At(reach, blocks, p, k, i).endStream
    requires (h < k && a <= reach) || (h == k && a <= i)
    ensures !At(reach, blocks, p, h, a).endStream
    decreases k
  {
    RunMonotone(TrailersSection, Pass(reach, blocks, p, k), blocks[..i]);
    if h == k {
      AtPiece(reach, blocks, p, k, a, i);
      RunMonotone(TrailersSection, At(reach, blocks, p, k, a), blocks[a..i]);
    } else {
      NotYet(reach, blocks, p, k - 1, reach, h, a);
    }
  }

  // Where a run of full blocks starts inside a pass, after a short block.
  lemma BeforeRun(reach: nat, blocks: seq<Message>, p: Parser, k: nat, j: nat)
    requires Looping(reach, blocks, p) && 0 < j <= reach && |blocks[j - 1]| < BLOCK_SIZE
    ensures At(reach, blocks, p, k, j).keyReadDone || At(reach, blocks, p, k, j).keyLength == 0
  {
    AtTidy(reach, blocks, p, k, j - 1);
    AtNext(reach, blocks, p, k, j - 1);
    ShortStep(At(reach, blocks, p, k, j - 1), blocks[j - 1]);
  }

  // The control state after a run of full blocks that began in state s.
  ghost predicate Lengthened(s: Parser, q: Parser, n: nat) {
    && Tidy(s) && Tidy(q)
    && q.keyReadDone == s.keyReadDone && q.fields == s.fields && q.events == s.events
    && q.keyLength == (if s.keyReadDone then s.keyLength else Wrap(s.keyLength + BLOCK_SIZE * n))
  }

  lemma InRun(reach: nat, blocks: seq<Message>, p: Parser, k: nat, j: nat, e: nat)
    requires Looping(reach, blocks, p) && j <= e <= reach && !At(reach, blocks, p, k, e).endStream
    requires forall i :: j <= i < e ==> |blocks[i]| == BLOCK_SIZE
    ensures Lengthened(At(reach, blocks, p, k, j), At(reach, blocks, p, k, e), e - j)
  {
    AtTidy(reach, blocks, p, k, j);
    AtTidy(reach, blocks, p, k, e);
    AtPiece(reach, blocks, p, k, j, e);
    FullRun(At(reach, blocks, p, k, j), blocks[j..e]);
  }

  // The control state at position e, told from the run of full blocks before it.
  lemma AfterRun(reach: nat, blocks: seq<Message>, p: Parser, k: nat, e: nat)
    requires Looping(reach, blocks, p) && e <= reach && !At(reach, blocks, p, k, e).endStream
    ensures var j := RunStart(blocks, e);
            && Lengthened(At(reach, blocks, p, k, j), At(reach, blocks, p, k, e), e - j)
            && (j > 0 ==> At(reach, blocks, p, k, j).keyReadDone || At(reach, blocks, p, k, j).keyLength == 0)
  {
    var j := RunStart(blocks, e);
    InRun(reach, blocks, p, k, j, e);
    if j > 0 {
      BeforeRun(reach, blocks, p, k, j);
    }
  }

  // What the first pass reads as the middle of a name can be no delimiter later, except
  // where a run of full blocks continues from the pass before.
  lemma NameBreaks(reach: nat, blocks: seq<Message>, p: Parser, k: nat, a: nat)
    requires Looping(reach, blocks, p) && a <= reach
    requires !At(reach, blocks, p, 0, a).endStream && !At(reach, blocks, p, k, a).endStream
    requires At(reach, blocks, p, 0, a).keyLength != 0 && !At(reach, blocks, p, 0, a).keyReadDone
    requires At(reach, blocks, p, k, a).keyLength == 0
    ensures RunStart(blocks, a) == 0 && a > 0
  {
    AfterRun(reach, blocks, p, 0, a);
    AfterRun(reach, blocks, p, k, a);
    assert blocks[..0] == [];
  }

  // Block a ends the stream.
  lemma EndBlock(q: Parser, m: Message)
    requires q.Valid() && !q.endStream && Step(TrailersSection, q, m).endStream
    ensures m == Ones() && q.keyLength == 0
    ensures Step(TrailersSection, q, m).events == q.events + [EncodeTrailers(q.fields)]
  {
  }

  lemma EndBlockEnds(q: Parser)
    requires q.Valid()
    ensures q.keyLength == 0 ==> Step(TrailersSection, q, Ones()).endStream
  {
  }

  // A later pass that ends with nothing to report does so inside the first run of full blocks,
  // or right after it: it has read that run as the rest of a name, up to a multiple of 2^32 bytes.
  lemma EndsInFirstRun(reach: nat, blocks: seq<Message>, p: Parser, k: nat, i: nat) returns (t: nat)
    requires Looping(reach, blocks, p) && k > 0 && EndsAt(reach, blocks, p, k, i)
    requires At(reach, blocks, p, k, i).fields == []
    ensures 0 < t <= i && RunStart(blocks, t) == 0 && blocks[i] == Ones()
    ensures At(reach, blocks, p, k, t).keyLength == 0 && At(reach, blocks, p, 0, t).keyLength != 0
    ensures t == i || (t == i - 1 && blocks[t] == [])
  {
    AtNext(reach, blocks, p, k, i);
    AtNext(reach, blocks, p, 0, i);
    EndBlock(At(reach, blocks, p, k, i), blocks[i]);
    NotYet(reach, blocks, p, k, i, 0, i);
    NotYet(reach, blocks, p, k, i, 0, i + 1);
    EndBlockEnds(At(reach, blocks, p, 0, i));
    assert blocks[..0] == [];
    if |blocks[i - 1]| < BLOCK_SIZE {
      t := i - 1;
      NotYet(reach, blocks, p, k, i, 0, t);
      NotYet(reach, blocks, p, k, i, k, t);
      ShortBefore(reach, blocks, p, k, t);
      NameBreaks(reach, blocks, p, k, t);
    } else {
      t := i;
      AfterRun(reach, blocks, p, k, i);
      WholeRun(blocks, i, reach);
    }
  }

  // An empty block that one pass takes for a delimiter and the first pass for the end of a name.
  lemma ShortBefore(reach: nat, blocks: seq<Message>, p: Parser, k: nat, a: nat)
    requires Looping(reach, blocks, p) && a < reach && |blocks[a]| < BLOCK_SIZE
    requires At(reach, blocks, p, k, a + 1).keyLength == 0 && At(reach, blocks, p, k, a + 1).fields == []
    requires At(reach, blocks, p, 0, a + 1).keyLength != 0
    ensures blocks[a] == [] && At(reach, blocks, p, k, a).keyLength == 0
    ensures At(reach, blocks, p, 0, a).keyLength != 0 && !At(reach, blocks, p, 0, a).keyReadDone
  {
    AtNext(reach, blocks, p, k, a);
    AtNext(reach, blocks, p, 0, a);
    AtTidy(reach, blocks, p, k, a);
    AtTidy(reach, blocks, p, 0, a);
    ShortStep(At(reach, blocks, p, k, a), blocks[a]);
    ShortStep(At(reach, blocks, p, 0, a), blocks[a]);
  }

  // A run of full blocks that goes on is shorter than 2^32 bytes.
  lemma WholeRun(blocks: seq<Message>, i: nat, reach: nat)
    requires i < reach <= |blocks| && |blocks[i]| == BLOCK_SIZE
    requires forall e :: 0 <= e <= reach ==> e - RunStart(blocks, e) <= LONGEST
    ensures i - RunStart(blocks, i) < LONGEST
    ensures 0 < i - RunStart(blocks, i) ==> Wrap(BLOCK_SIZE * (i - RunStart(blocks, i))) != 0
  {
    assert RunStart(blocks, i + 1) == RunStart(blocks, i);
    if 0 < i - RunStart(blocks, i) {
      BelowLongest(i - RunStart(blocks, i));
    }
  }

  // The control state at the end of a pass whose successor starts in the middle of a name.
  lemma NameAtTheEnd(reach: nat, blocks: seq<Message>, p: Parser, k: nat)
    requires Looping(reach, blocks, p) && !At(reach, blocks, p, k, reach).endStream
    requires At(reach, blocks, p, k, reach).keyLength != 0 && !At(reach, blocks, p, k, reach).keyReadDone
    ensures var r0 := RunStart(blocks, reach);
            && 0 < r0 < reach
            && At(reach, blocks, p, k, reach).keyLength == Wrap(BLOCK_SIZE * (reach - r0))
            && At(reach, blocks, p, k, r0).keyLength == 0
            && At(reach, blocks, p, k, r0).fields == At(reach, blocks, p, k, reach).fields
  {
    AfterRun(reach, blocks, p, k, reach);
  }

  // A pass that starts in the middle of a name or of a value, over the first run of full blocks.
  lemma FirstRun(reach: nat, blocks: seq<Message>, p: Parser, k: nat, t: nat)
    requires Looping(reach, blocks, p) && t <= reach && RunStart(blocks, t) == 0
    requires !At(reach, blocks, p, k, t).endStream
    ensures var s, q := Pass(reach, blocks, p, k), At(reach, blocks, p, k, t);
            && q.keyReadDone == s.keyReadDone && q.fields == s.fields && q.events == s.events
            && q.keyLength == (if s.keyReadDone then s.keyLength else Wrap(s.keyLength + BLOCK_SIZE * t))
            && (s.keyReadDone ==> q.keyLength != 0)
  {
    AfterRun(reach, blocks, p, k, t);
    assert blocks[..0] == [];
  }

  // Where a later pass ends after its first run, so does the second one, given the same run in
  // a name, or given a value before an empty block.
  lemma EndsHere(reach: nat, blocks: seq<Message>, p: Parser, k: nat, t: nat, i: nat)
    requires Looping(reach, blocks, p) && i < reach && blocks[i] == Ones()
    requires t == i || (t == i - 1 && blocks[t] == [])
    requires var q := At(reach, blocks, p, k, t); q.keyLength == 0 || (q.keyReadDone && t < i)
    ensures At(reach, blocks, p, k, i + 1).endStream
  {
    AtNext(reach, blocks, p, k, t);
    AtNext(reach, blocks, p, k, i);
    EndBlockEnds(At(reach, blocks, p, k, i));
  }

  // A value that the first pass leaves open cannot become such a name in a later pass.
  lemma ValueAtTheEnd(reach: nat, blocks: seq<Message>, p: Parser, k: nat)
    requires Looping(reach, blocks, p) && k > 0
    requires !At(reach, blocks, p, k, reach).endStream && !At(reach, blocks, p, 0, reach).endStream
    requires var r0 := RunStart(blocks, reach);
             && 0 < r0 && At(reach, blocks, p, 0, r0).keyReadDone
             && At(reach, blocks, p, k, r0).keyLength == 0
    ensures At(reach, blocks, p, k, RunStart(blocks, reach)).fields != []
  {
    var r0 := RunStart(blocks, reach);
    if At(reach, blocks, p, k, r0).fields == [] {
      AtTidy(reach, blocks, p, 0, r0);
      ShortBefore(reach, blocks, p, k, r0 - 1);
      NotYet(reach, blocks, p, 0, reach, 0, r0 - 1);
      NotYet(reach, blocks, p, k, reach, k, r0 - 1);
      NameBreaks(reach, blocks, p, k, r0 - 1);
      assert false;
    }
  }

  // So only the second pass can end with nothing to report, and then the first one stopped in a name.
  lemma EndsInSecondPass(reach: nat, blocks: seq<Message>, p: Parser, k: nat, i: nat) returns (t: nat)
    requires Looping(reach, blocks, p) && k > 0 && EndsAt(reach, blocks, p, k, i)
    requires At(reach, blocks, p, k, i).fields == []
    ensures k == 1 && RunStart(blocks, reach) < reach
    ensures t <= i && RunStart(blocks, t) == 0 && (t == i || (t == i - 1 && blocks[t] == []))
  {
    t := EndsInFirstRun(reach, blocks, p, k, i);
    NotYet(reach, blocks, p, k, i, k, t);
    NotYet(reach, blocks, p, k, i, 0, t);
    NotYet(reach, blocks, p, k, i, k - 1, reach);
    FirstRun(reach, blocks, p, k, t);
    FirstRun(reach, blocks, p, 0, t);
    NameAtTheEnd(reach, blocks, p, k - 1);
    if k > 1 {
      NotEarlier(reach, blocks, p, k, i, t);
    }
  }

  // If the first pass stops in the same name, the second pass ends at the same place.
  lemma SameName(reach: nat, blocks: seq<Message>, p: Parser, k: nat, t: nat)
    requires Looping(reach, blocks, p) && k > 0 && t <= reach && RunStart(blocks, t) == 0
    requires !At(reach, blocks, p, k, t).endStream && !At(reach, blocks, p, 1, t).endStream
    requires At(reach, blocks, p, k, t).keyLength == 0 && !Pass(reach, blocks, p, k).keyReadDone
    requires Pass(reach, blocks, p, 1).keyLength == Pass(reach, blocks, p, k).keyLength
    requires !Pass(reach, blocks, p, 1).keyReadDone
    ensures At(reach, blocks, p, 1, t).keyLength == 0
  {
    FirstRun(reach, blocks, p, k, t);
    FirstRun(reach, blocks, p, 1, t);
  }

  // Otherwise it stops in a value, which the run and the empty block after it complete.
  lemma ValueThere(reach: nat, blocks: seq<Message>, p: Parser, t: nat)
    requires Looping(reach, blocks, p) && t <= reach && RunStart(blocks, t) == 0
    requires !At(reach, blocks, p, 1, t).endStream && Pass(reach, blocks, p, 1).keyReadDone
    ensures At(reach, blocks, p, 1, t).keyReadDone
  {
    FirstRun(reach, blocks, p, 1, t);
  }

  lemma FirstPassEnd(reach: nat, blocks: seq<Message>, p: Parser, k: nat)
    requires Looping(reach, blocks, p) && k > 1 && !At(reach, blocks, p, 0, reach).endStream
    requires !At(reach, blocks, p, k - 1, reach).endStream
    requires Pass(reach, blocks, p, k).keyLength != 0 && !Pass(reach, blocks, p, k).keyReadDone
    ensures 0 < RunStart(blocks, reach) && At(reach, blocks, p, k - 1, RunStart(blocks, reach)).keyLength == 0
    ensures At(reach, blocks, p, k - 1, RunStart(blocks, reach)).fields == Pass(reach, blocks, p, k).fields
    ensures At(reach, blocks, p, 0, RunStart(blocks, reach)).keyReadDone == Pass(reach, blocks, p, 1).keyReadDone
    ensures !Pass(reach, blocks, p, 1).keyReadDone ==>
              Pass(reach, blocks, p, 1).keyLength == Pass(reach, blocks, p, k).keyLength
  {
    NameAtTheEnd(reach, blocks, p, k - 1);
    AfterRun(reach, blocks, p, 0, reach);
  }

  lemma EndedBefore(reach: nat, blocks: seq<Message>, p: Parser, k: nat, i: nat, t: nat)
    requires Looping(reach, blocks, p) && k > 1 && EndsAt(reach, blocks, p, k, i) && t <= i
    ensures !At(reach, blocks, p, k, t).endStream && !At(reach, blocks, p, k - 1, reach).endStream
    ensures !At(reach, blocks, p, 0, reach).endStream
    ensures !At(reach, blocks, p, 1, t).endStream && !At(reach, blocks, p, 1, i + 1).endStream
  {
    NotYet(reach, blocks, p, k, i, k, t);
    NotYet(reach, blocks, p, k, i, k - 1, reach);
    NotYet(reach, blocks, p, k, i, 0, reach);
    NotYet(reach, blocks, p, k, i, 1, t);
    NotYet(reach, blocks, p, k, i, 1, i + 1);
  }

  // A value open at the end of the first pass takes the whole run, so nothing follows in it.
  lemma ValueCase(reach: nat, blocks: seq<Message>, p: Parser, k: nat, t: nat)
    requires Looping(reach, blocks, p) && k > 1 && t <= reach && RunStart(blocks, t) == 0
    requires !At(reach, blocks, p, k, t).endStream && !At(reach, blocks, p, 0, reach).endStream
    requires !At(reach, blocks, p, k - 1, reach).endStream
    requires Pass(reach, blocks, p, k).keyLength != 0 && !Pass(reach, blocks, p, k).keyReadDone
    requires Pass(reach, blocks, p, 1).keyReadDone
    ensures At(reach, blocks, p, k, t).fields != []
  {
    FirstPassEnd(reach, blocks, p, k);
    FirstRun(reach, blocks, p, k, t);
    ValueAtTheEnd(reach, blocks, p, k - 1);
  }

  lemma NameCase(reach: nat, blocks: seq<Message>, p: Parser, k: nat, t: nat)
    requires Looping(reach, blocks, p) && k > 1 && t <= reach && RunStart(blocks, t) == 0
    requires !At(reach, blocks, p, k, t).endStream && !At(reach, blocks, p, 0, reach).endStream
    requires !At(reach, blocks, p, k - 1, reach).endStream && !At(reach, blocks, p, 1, t).endStream
    requires Pass(reach, blocks, p, k).keyLength != 0 && !Pass(reach, blocks, p, k).keyReadDone
    requires At(reach, blocks, p, k, t).keyLength == 0 && !Pass(reach, blocks, p, 1).keyReadDone
    ensures At(reach, blocks, p, 1, t).keyLength == 0
  {
    FirstPassEnd(reach, blocks, p, k);
    SameName(reach, blocks, p, k, t);
  }

  lemma NotEarlier(reach: nat, blocks: seq<Message>, p: Parser, k: nat, i: nat, t: nat)
    requires Looping(reach, blocks, p) && k > 0 && EndsAt(reach, blocks, p, k, i)
    requires At(reach, blocks, p, k, i).fields == [] && blocks[i] == Ones()
    requires t <= i && RunStart(blocks, t) == 0 && (t == i || (t == i - 1 && blocks[t] == []))
    requires At(reach, blocks, p, k, t).keyLength == 0
    requires Pass(reach, blocks, p, k).keyLength != 0 && !Pass(reach, blocks, p, k).keyReadDone
    ensures k == 1
  {
    if k > 1 {
      EndedBefore(reach, blocks, p, k, i, t);
      if Pass(reach, blocks, p, 1).keyReadDone {
        ValueCase(reach, blocks, p, k, t);
        ValueThere(reach, blocks, p, t);
      } else {
        NameCase(reach, blocks, p, k, t);
      }
      EndsHere(reach, blocks, p, 1, t, i);
      assert false;
    }
  }

  /* ---------- counting short blocks ---------- */

  function Shorts(ms: seq<Message>): nat {
    if ms == [] then 0 else Shorts(Front(ms)) + if |Last(ms)| < BLOCK_SIZE then 1 else 0
  }

  lemma {:induction false} ShortsConcat(a: seq<Message>, b: seq<Message>)
    ensures Shorts(a + b) == Shorts(a) + Shorts(b)
  {
    if b == [] {
      assert a + b == a;
    } else {
      assert Front(a + b) == a + Front(b);
      ShortsConcat(a, Front(b));
    }
  }

  // Two short blocks for every field, one for every batch.
  function Reported(events: seq<Event>): nat {
    if events == [] then 0 else Reported(Front(events)) + 2 * |EventFields(Last(events))| + 1
  }

  function Weight(q: Parser): nat {
    Reported(q.events) + 2 * |q.fields| + if q.keyReadDone then 1 else 0
  }

  lemma StepWeight(q: Parser, m: Message)
    requires Tidy(q) && !Step(TrailersSection, q, m).endStream
    ensures Weight(Step(TrailersSection, q, m)) == Weight(q) + if |m| < BLOCK_SIZE then 1 else 0
  {
    assert Front(q.events + [EncodeTrailers(q.fields)]) == q.events;
  }

  // Until the stream ends, what the parser has reported or holds is told by the short blocks read.
  lemma {:induction false} RunWeight(q: Parser, ms: seq<Message>)
    requires Tidy(q) && !Run(TrailersSection, q, ms).endStream
    ensures Weight(Run(TrailersSection, q, ms)) == Weight(q) + Shorts(ms)
  {
    if ms != [] {
      var front := Run(TrailersSection, q, Front(ms));
      StepMonotone(TrailersSection, front, Last(ms));
      RunWeight(q, Front(ms));
      RunTidy(q, Front(ms));
      StepWeight(front, Last(ms));
    }
  }

  lemma StringShorts(s: Bytes)
    ensures Shorts(StringBlocks(s)) == 1
    decreases |s|
  {
    if |s| < BLOCK_SIZE {
      assert Front([s]) == [];
    } else {
      StringShorts(s[BLOCK_SIZE..]);
      assert Front([s[..BLOCK_SIZE]]) == [];
      ShortsConcat([s[..BLOCK_SIZE]], StringBlocks(s[BLOCK_SIZE..]));
    }
  }

  lemma {:induction false} MapShorts(fields: FieldMap)
    ensures Shorts(MapBlocks(fields)) == 2 * |fields|
  {
    if fields != [] {
      var f := Last(fields);
      MapShorts(Front(fields));
      StringShorts(Stored(f.name));
      StringShorts(Stored(f.value));
      ShortsConcat(StringBlocks(Stored(f.name)), StringBlocks(Stored(f.value)));
      ShortsConcat(MapBlocks(Front(fields)), FieldBlocks(f));
    }
  }

  lemma {:induction false} BatchesShorts(batches: seq<FieldMap>, events: seq<Event>)
    ensures Reported(events + TrailerEvents(batches)) == Reported(events) + Shorts(BatchesBlocks(batches, false))
  {
    if batches == [] {
      assert events + TrailerEvents(batches) == events;
    } else {
      var b := Last(batches);
      BatchesShorts(Front(batches), events);
      TrailerEventsSnoc(events, batches);
      assert Front(events + TrailerEvents(Front(batches)) + [EncodeTrailers(b)])
          == events + TrailerEvents(Front(batches));
      MapShorts(b);
      assert Front([Delimiter(false)]) == [];
      ShortsConcat(MapBlocks(b), [Delimiter(false)]);
      ShortsConcat(BatchesBlocks(Front(batches), false), BatchBlocks(b, false));
    }
  }

  // The short blocks read in one pass and up to block i of the next.
  lemma SecondPassWeight(reach: nat, blocks: seq<Message>, p: Parser, i: nat)
    requires Looping(reach, blocks, p) && i <= reach && !At(reach, blocks, p, 1, i).endStream
    ensures Weight(At(reach, blocks, p, 1, i)) == Weight(p) + Shorts(blocks[..reach]) + Shorts(blocks[..i])
  {
    NotYet(reach, blocks, p, 1, i, 0, reach);
    PassTidy(reach, blocks, p, 1);
    RunWeight(p, blocks[..reach]);
    RunWeight(Pass(reach, blocks, p, 1), blocks[..i]);
  }

  lemma {:induction false} FirstRunShorts(blocks: seq<Message>, t: nat)
    requires t <= |blocks| && RunStart(blocks, t) == 0
    ensures Shorts(blocks[..t]) == 0
  {
    if t > 0 {
      assert Front(blocks[..t]) == blocks[..t - 1];
      FirstRunShorts(blocks, t - 1);
    }
  }

  lemma AtMostOneShort(blocks: seq<Message>, t: nat, i: nat)
    requires t <= i <= |blocks| && RunStart(blocks, t) == 0 && (t == i || t == i - 1)
    ensures Shorts(blocks[..i]) <= 1
  {
    FirstRunShorts(blocks, t);
    if t < i {
      assert Front(blocks[..i]) == blocks[..t];
    }
  }

  // Beyond the reach the section still holds its last delimiter, and the short block before it.
  lemma TailShorts(batches: seq<FieldMap>, reach: nat)
    requires batches != [] && 0 < reach <= |BatchesBlocks(batches, false)|
    requires |BatchesBlocks(batches, false)[reach - 1]| == BLOCK_SIZE
    ensures Shorts(BatchesBlocks(batches, false)) >= Shorts(BatchesBlocks(batches, false)[..reach]) + 2
  {
    var all := BatchesBlocks(batches, false);
    var n := |all|;
    LastDelimiter(batches);
    assert all == all[..reach] + all[reach..];
    ShortsConcat(all[..reach], all[reach..]);
    var rest := all[reach..];
    assert Last(rest) == all[n - 1] && Front(rest) == all[reach..n - 1];
    assert Last(Front(rest)) == all[n - 2] == Last(Front(all));
  }

  // The second pass, ended where it can, has met too few short blocks for all the batches.
  lemma TooFew(reach: nat, trailers: seq<FieldMap>, p: Parser, i: nat, t: nat)
    requires trailers != [] && reach <= |BatchesBlocks(trailers, false)| && i <= reach
    requires var blocks := BatchesBlocks(trailers, false) + [Ones()];
             && Looping(reach, blocks, p) && RunStart(blocks, reach) < reach
             && t <= i && RunStart(blocks, t) == 0 && (t == i || (t == i - 1 && blocks[t] == []))
             && !At(reach, blocks, p, 1, i).endStream
    ensures var q := At(reach, BatchesBlocks(trailers, false) + [Ones()], p, 1, i);
            q.fields != [] || q.events != p.events + TrailerEvents(trailers)
  {
    var all := BatchesBlocks(trailers, false);
    var blocks := all + [Ones()];
    SecondPassWeight(reach, blocks, p, i);
    AtTidy(reach, blocks, p, 1, i);
    BatchesShorts(trailers, p.events);
    AtMostOneShort(blocks, t, i);
    assert blocks[..reach] == all[..reach];
    TailShorts(trailers, reach);
  }

  lemma LoopsOverBatches(reach: nat, trailers: seq<FieldMap>, p: Parser)
    requires BetweenFields(p) && p.fields == [] && !p.endStream && 3 * LONGEST < reach
    requires reach < |BatchesBlocks(trailers, false) + [Ones()]|
    ensures Looping(reach, BatchesBlocks(trailers, false) + [Ones()], p)
  {
    var all := BatchesBlocks(trailers, false);
    BatchesAreBounded(trailers);
    forall e | 0 <= e <= reach ensures e - RunStart(all + [Ones()], e) <= LONGEST {
      RunStartConcat(all, [Ones()], e);
    }
  }

  // A section longer than the reach never comes back as it was written: the loop goes round for
  // ever, or the callbacks it has made when it ends are others.
  lemma TooLong(reach: nat, trailers: seq<FieldMap>, p: Parser, k: nat, i: nat)
    requires trailers != [] && BetweenFields(p) && p.fields == [] && !p.endStream && 3 * LONGEST < reach && k > 0
    requires reach < |BatchesBlocks(trailers, false) + [Ones()]|
    requires EndsAt(reach, BatchesBlocks(trailers, false) + [Ones()], p, k, i)
    ensures At(reach, BatchesBlocks(trailers, false) + [Ones()], p, k, i + 1).events
         != p.events + (TrailerEvents(trailers) + [EncodeTrailers([])])
  {
    var blocks, expected := BatchesBlocks(trailers, false) + [Ones()], p.events + TrailerEvents(trailers);
    LoopsOverBatches(reach, trailers, p);
    AtNext(reach, blocks, p, k, i);
    EndBlock(At(reach, blocks, p, k, i), blocks[i]);
    Assoc(p.events, TrailerEvents(trailers), [EncodeTrailers([])]);
    if At(reach, blocks, p, k, i + 1).events == expected + [EncodeTrailers([])] {
      SameLast(At(reach, blocks, p, k, i).events, EncodeTrailers(At(reach, blocks, p, k, i).fields),
               expected, EncodeTrailers([]));
      var t := EndsInSecondPass(reach, blocks, p, k, i);
      TooFew(reach, trailers, p, i, t);
      assert false;
    }
  }

  lemma SameLast<T>(a: seq<T>, x: T, b: seq<T>, y: T)
    requires a + [x] == b + [y]
    ensures a == b && x == y
  {
    assert Front(a + [x]) == a && Front(b + [y]) == b;
    assert Last(a + [x]) == x && Last(b + [y]) == y;
  }
}
