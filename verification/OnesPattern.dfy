/**
 The static block of 64 bytes 0xFF that consumers compare with. Each constructor looks at a flag,
 sets it, and only then fills the block, so that a consumer can be built before the block is.
 The other modules take the block as filled.
 */
module OnesPattern {
  import opened Blocks

  // The next access of a constructor. `filled` says that it filled the block itself.
  datatype Builder =
    | LoadFlag
    | StoreFlag
    | Fill(next: nat)
    | Built(filled: bool)

  datatype State = State(flag: bool, pattern: Bytes, builders: map<nat, Builder>) {
    function Goto(id: nat, b: Builder): State {
      this.(builders := builders[id := b])
    }
  }

  ghost predicate Initial(s: State) {
    && !s.flag && s.pattern == seq(BLOCK_SIZE, i => 0)
    && forall id :: id in s.builders ==> s.builders[id] == LoadFlag
  }

  // One access of the constructor that the scheduler picked.
  function Next(s: State, id: nat): State {
    if id !in s.builders then s else
    match s.builders[id]
    case LoadFlag => s.Goto(id, if s.flag then Built(false) else StoreFlag)
    case StoreFlag => s.(flag := true).Goto(id, Fill(0))
    case Fill(i) =>
      if i < |s.pattern| then s.(pattern := s.pattern[i := 0xFF]).Goto(id, Fill(i + 1)) else s.Goto(id, Built(true))
    case Built(_) => s
  }

  function After(s: State, schedule: seq<nat>): State {
    if schedule == [] then s else Next(After(s, Front(schedule)), Last(schedule))
  }

  // Bytes that a constructor has filled.
  function FilledBy(b: Builder): nat {
    match b
    case Fill(i) => i
    case Built(filled) => if filled then BLOCK_SIZE else 0
    case _ => 0
  }

  ghost predicate Reached(s: State, k: nat) {
    exists id :: id in s.builders && k < FilledBy(s.builders[id])
  }

  ghost predicate Inv(s: State) {
    && |s.pattern| == BLOCK_SIZE
    && (forall id :: id in s.builders ==> FilledBy(s.builders[id]) <= BLOCK_SIZE)
    && (forall k :: 0 <= k < BLOCK_SIZE ==> s.pattern[k] == if Reached(s, k) then 0xFF else 0)
  }

  lemma OthersReached(s: State, s': State, id: nat, k: nat)
    requires id in s.builders && id in s'.builders && s'.builders == s.builders[id := s'.builders[id]]
    requires k < FilledBy(s'.builders[id]) <==> k < FilledBy(s.builders[id])
    ensures Reached(s', k) <==> Reached(s, k)
  {
    if Reached(s, k) {
      var other :| other in s.builders && k < FilledBy(s.builders[other]);
      assert other in s'.builders && k < FilledBy(s'.builders[other]);
    }
  }

  lemma StepKeeps(s: State, id: nat)
    requires Inv(s)
    ensures Inv(Next(s, id))
    ensures forall k :: 0 <= k < BLOCK_SIZE && s.pattern[k] == 0xFF ==> Next(s, id).pattern[k] == 0xFF
  {
    var s' := Next(s, id);
    if id in s.builders {
      forall k | 0 <= k < BLOCK_SIZE ensures s'.pattern[k] == if Reached(s', k) then 0xFF else 0 {
        if s.builders[id] == Fill(k) {
          assert k < FilledBy(s'.builders[id]);
        } else {
          OthersReached(s, s', id, k);
        }
      }
    }
  }

  lemma {:induction false} EveryRun(s: State, schedule: seq<nat>)
    requires Initial(s)
    ensures Inv(After(s, schedule))
  {
    if schedule != [] {
      EveryRun(s, Front(schedule));
      StepKeeps(After(s, Front(schedule)), Last(schedule));
    }
  }

  // After any accesses of any number of constructors the block is the end-of-stream block if and
  // only if some constructor has filled it to the end.
  lemma FilledIff(s: State, schedule: seq<nat>)
    requires Initial(s)
    ensures var s' := After(s, schedule);
            s'.pattern == Ones() <==> exists id :: id in s'.builders && FilledBy(s'.builders[id]) == BLOCK_SIZE
  {
    EveryRun(s, schedule);
    var s' := After(s, schedule);
    if s'.pattern == Ones() {
      assert s'.pattern[BLOCK_SIZE - 1] == 0xFF;
      var id :| id in s'.builders && BLOCK_SIZE - 1 < FilledBy(s'.builders[id]);
    }
    if id :| id in s'.builders && FilledBy(s'.builders[id]) == BLOCK_SIZE {
      forall k | 0 <= k < BLOCK_SIZE ensures s'.pattern[k] == 0xFF {
        assert Reached(s', k);
      }
    }
  }

  // And then it stays so.
  lemma {:induction false} FilledForGood(s: State, schedule: seq<nat>, more: seq<nat>)
    requires Initial(s) && After(s, schedule).pattern == Ones()
    ensures After(s, schedule + more).pattern == Ones()
  {
    if more == [] {
      assert schedule + more == schedule;
    } else {
      assert Front(schedule + more) == schedule + Front(more);
      FilledForGood(s, schedule, Front(more));
      EveryRun(s, schedule + Front(more));
      StepKeeps(After(s, schedule + Front(more)), Last(more));
    }
  }

  // In between a second consumer is built, with a block of zeros to compare with: it would take
  // the end of the stream for payload, and 64 zero bytes for the end of the stream.
  lemma BuiltTooEarly(s: State)
    requires Initial(s) && s.builders == map[0 := LoadFlag, 1 := LoadFlag]
    ensures var s' := After(s, [0, 0, 1]);
            && 1 in s'.builders && s'.builders[1] == Built(false)
            && s'.pattern == seq(BLOCK_SIZE, i => 0) != Ones()
  {
    AfterThree(s, 0, 0, 1);
    assert s.pattern[0] != Ones()[0];
  }

  lemma AfterThree(s: State, a: nat, b: nat, c: nat)
    ensures After(s, [a, b, c]) == Next(Next(Next(s, a), b), c)
  {
    assert Front([a, b, c]) == [a, b] && Front([a, b]) == [a];
    assert After(s, [a]) == Next(After(s, Front([a])), a) == Next(s, a);
  }
}
