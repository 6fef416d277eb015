/**
 Every run of the coalescing protocol, with any answers of the origin, has streaming runs of its
 entries that fit it, so that what is said of all such runs is said of some.
 */
module EndToEndRuns {
  import opened Blocks
  import opened BlockCodec
  import opened BlockCodecExact
  import opened EntryProgram
  import opened FinishedEntry
  import opened LruSpec
  import opened Coalescing
  import opened CoalescingInvariant
  import opened CoalescingTheorems
  import opened EndToEnd
  import Streaming
  import StreamingRuns
  import StreamingProgress

  function Repeat(a: Streaming.Actor, k: nat): seq<Streaming.Actor> {
    seq(k, i => a)
  }

  // Every reader with a number below n has k turns.
  function Rounds(n: nat, k: nat): seq<Streaming.Actor> {
    if n == 0 then [] else Rounds(n - 1, k) + Repeat(Streaming.Consumer(n - 1), k)
  }

  lemma {:induction false} RepeatTurns(a: Streaming.Actor, k: nat)
    ensures StreamingProgress.Turns(Repeat(a, k), a) == k
  {
    if k > 0 {
      assert Front(Repeat(a, k)) == Repeat(a, k - 1);
      RepeatTurns(a, k - 1);
    }
  }

  lemma {:induction false} TurnsOfBoth(a: seq<Streaming.Actor>, b: seq<Streaming.Actor>, actor: Streaming.Actor)
    ensures StreamingProgress.Turns(a + b, actor)
         == StreamingProgress.Turns(a, actor) + StreamingProgress.Turns(b, actor)
  {
    if b == [] {
      assert a + b == a;
    } else {
      assert Front(a + b) == a + Front(b);
      TurnsOfBoth(a, Front(b), actor);
    }
  }

  lemma {:induction false} RoundsTurns(n: nat, k: nat, id: nat)
    requires id < n
    ensures StreamingProgress.Turns(Rounds(n, k), Streaming.Consumer(id)) >= k
  {
    TurnsOfBoth(Rounds(n - 1, k), Repeat(Streaming.Consumer(n - 1), k), Streaming.Consumer(id));
    if id < n - 1 {
      RoundsTurns(n - 1, k, id);
    } else {
      RepeatTurns(Streaming.Consumer(id), k);
    }
  }

  // Readers that start with these parsers.
  function ReadersOf(starts: map<Req, Parser>): map<nat, Streaming.Reader> {
    map r | r in starts :: Streaming.Reader(Streaming.Begin, 0, 0, 0, 0, 0, seq(BLOCK_SIZE, i => 0), starts[r])
  }

  function RunFor(capacity: nat, answer: Response, starts: map<Req, Parser>, n: nat): EntryRun {
    EntryRun(Streaming.State(Streaming.Memory(capacity, [], [], [], UINT32_MAX, UINT32_MAX),
                             Streaming.Writer(0, Streaming.CheckFull), ReadersOf(starts)),
             Repeat(Streaming.Producer, StreamingProgress.WriterBound(SectionsOf(answer))),
             Rounds(n, StreamingProgress.Bound(SectionsOf(answer))))
  }

  function WorldFor(capacity: nat, answers: GroupId -> Response, starts: map<Req, Parser>, n: nat): World {
    World(capacity, answers, (e: GroupId) => RunFor(capacity, answers(e), starts, n))
  }

  ghost predicate Answers(capacity: nat, answers: GroupId -> Response) {
    capacity > 0 && forall e ::
      WellOrdered(answers(e)) && Storable(answers(e)) && Fits(capacity, answers(e))
  }

  ghost predicate StartsOk(starts: map<Req, Parser>, n: nat) {
    forall r :: r in starts ==> r < n && starts[r].Valid()
  }

  lemma WorldForIsOk(capacity: nat, answers: GroupId -> Response, starts: map<Req, Parser>, n: nat)
    requires Answers(capacity, answers) && StartsOk(starts, n)
    ensures WorldOk(WorldFor(capacity, answers, starts, n))
  {
    var w := WorldFor(capacity, answers, starts, n);
    forall e ensures Streaming.Initial(capacity, w.runs(e).start) && Fair(answers(e), w.runs(e)) {
      RepeatTurns(Streaming.Producer, StreamingProgress.WriterBound(SectionsOf(answers(e))));
      forall id | id in w.runs(e).start.readers
        ensures StreamingProgress.Turns(w.runs(e).more, Streaming.Consumer(id))
             >= StreamingProgress.Bound(SectionsOf(answers(e)))
      {
        RoundsTurns(n, StreamingProgress.Bound(SectionsOf(answers(e))), id);
      }
    }
  }

  lemma StreamHappens(w: World, e: GroupId, r: Req, p: Parser)
    requires WorldOk(w) && Ready(p) && r in w.runs(e).start.readers && w.runs(e).start.readers[r].parser == p
    ensures Streamed(w, e, r, p, StreamingRuns.Served(p, w.answers(e)))
  {
    var run := w.runs(e);
    StreamingProgress.EveryoneFinishes(w.answers(e), w.capacity, run.start, run.schedule, run.more, r);
  }

  ghost predicate Extends(starts: map<Req, Parser>, starts': map<Req, Parser>) {
    forall r :: r in starts ==> r in starts' && starts'[r] == starts[r]
  }

  ghost predicate Begins(run: EntryRun, starts: map<Req, Parser>) {
    forall r :: r in starts ==> r in run.start.readers && run.start.readers[r].parser == starts[r]
  }

  // In the runs of this world at least these readers start like this.
  ghost predicate Fed(w: World, capacity: nat, answers: GroupId -> Response, starts: map<Req, Parser>) {
    && WorldOk(w) && w.capacity == capacity && w.answers == answers
    && forall e :: Begins(w.runs(e), starts)
  }

  // In every such world the run delivers like this.
  ghost predicate Planned(
    capacity: nat, answers: GroupId -> Response, s0: State, actions: seq<Action>, starts: map<Req, Parser>,
    ds: seq<Delivery>)
  {
    forall w :: Fed(w, capacity, answers, starts) ==> Delivers(w, s0, actions, ds)
  }

  lemma WorldForIsFed(capacity: nat, answers: GroupId -> Response, starts: map<Req, Parser>, n: nat)
    requires Answers(capacity, answers) && StartsOk(starts, n)
    ensures Fed(WorldFor(capacity, answers, starts, n), capacity, answers, starts)
  {
    WorldForIsOk(capacity, answers, starts, n);
  }

  lemma PlanIsReady(
    capacity: nat, answers: GroupId -> Response, s0: State, actions: seq<Action>, starts: map<Req, Parser>, n: nat,
    ds: seq<Delivery>)
    requires Answers(capacity, answers) && StartsOk(starts, n) && Initial(s0) && Feasible(s0, actions)
    requires Planned(capacity, answers, s0, actions, starts, ds)
    ensures Inv(After(s0, actions)) && |ds| == |actions| + 1 && AllReady(Last(ds))
  {
    WorldForIsFed(capacity, answers, starts, n);
    RunDelivers(WorldFor(capacity, answers, starts, n), s0, actions, ds);
  }

  // The next step delivers like this in every such world.
  ghost predicate StepPlanned(
    capacity: nat, answers: GroupId -> Response, s: State, a: Action, starts: map<Req, Parser>, d: Delivery,
    d': Delivery)
  {
    forall w :: Fed(w, capacity, answers, starts) ==> DeliveryStep(w, s, a, d, d')
  }

  lemma PlanConsumer(
    capacity: nat, answers: GroupId -> Response, s: State, a: Action, starts: map<Req, Parser>, d: Delivery, c: Req)
    returns (starts': map<Req, Parser>, d': Delivery)
    requires AllReady(d) && ServiceOf(s, a).Some? && ServerOf(s, a) == Some(c)
    requires ServiceOf(s, a).value.req !in starts
    ensures starts' == starts[ServiceOf(s, a).value.req := d.ConsumerOf(c)]
    ensures StepPlanned(capacity, answers, s, a, starts', d, d')
  {
    var r, e := ServiceOf(s, a).value.req, ServiceOf(s, a).value.entry;
    var p := d.ConsumerOf(c);
    var q := StreamingRuns.Served(p, answers(e));
    starts' := starts[r := p];
    d' := Delivery(d.consumers[c := q], d.received[r := Since(q.events, |p.events|)]);
    forall w | Fed(w, capacity, answers, starts') ensures Streamed(w, e, r, p, q) {
      assert Begins(w.runs(e), starts') && r in starts';
      StreamHappens(w, e, r, p);
    }
  }

  // What has been served so far determines how each consumer starts to serve the next request.
  lemma PlanStep(
    capacity: nat, answers: GroupId -> Response, s: State, a: Action, starts: map<Req, Parser>, n: nat, d: Delivery)
    returns (starts': map<Req, Parser>, n': nat, d': Delivery)
    requires StartsOk(starts, n) && AllReady(d)
    requires ServiceOf(s, a).Some? ==> ServiceOf(s, a).value.req !in starts
    ensures StartsOk(starts', n') && Extends(starts, starts')
    ensures forall r :: r in starts' ==> r in starts || (ServiceOf(s, a).Some? && r == ServiceOf(s, a).value.req)
    ensures StepPlanned(capacity, answers, s, a, starts', d, d')
  {
    starts', n', d' := starts, n, d;
    if ServiceOf(s, a).Some? {
      var r, e := ServiceOf(s, a).value.req, ServiceOf(s, a).value.entry;
      if ServerOf(s, a).Some? {
        n' := if r < n then n else r + 1;
        starts', d' := PlanConsumer(capacity, answers, s, a, starts, d, ServerOf(s, a).value);
      } else {
        d' := d.(received := d.received[r := OriginEvents(answers(e))]);
      }
    }
  }

  lemma PlanGrows(
    capacity: nat, answers: GroupId -> Response, s0: State, actions: seq<Action>, starts: map<Req, Parser>,
    starts': map<Req, Parser>, ds: seq<Delivery>, d': Delivery)
    requires actions != [] && |ds| == |actions| && Extends(starts, starts')
    requires Planned(capacity, answers, s0, Front(actions), starts, ds)
    requires StepPlanned(capacity, answers, After(s0, Front(actions)), Last(actions), starts', Last(ds), d')
    ensures Planned(capacity, answers, s0, actions, starts', ds + [d'])
  {
    assert Front(ds + [d']) == ds;
    forall w | Fed(w, capacity, answers, starts') ensures Delivers(w, s0, actions, ds + [d']) {
      forall e ensures Begins(w.runs(e), starts) {
        assert Begins(w.runs(e), starts');
      }
      assert Fed(w, capacity, answers, starts);
    }
  }

  ghost predicate OnlyServed(starts: map<Req, Parser>, served: seq<Service>) {
    forall r :: r in starts ==> exists i :: 0 <= i < |served| && served[i].req == r
  }

  lemma StillOnlyServed(
    starts: map<Req, Parser>, starts': map<Req, Parser>, served: seq<Service>, more: Option<Service>)
    requires OnlyServed(starts, served)
    requires forall r :: r in starts' ==> r in starts || (more.Some? && r == more.value.req)
    ensures OnlyServed(starts', served + Listed(more))
  {
    var served' := served + Listed(more);
    forall r | r in starts' ensures exists i :: 0 <= i < |served'| && served'[i].req == r {
      if r in starts {
        var i :| 0 <= i < |served| && served[i].req == r;
        assert served'[i].req == r;
      } else {
        assert served'[|served|].req == r;
      }
    }
  }

  lemma {:induction false} RunsExist(capacity: nat, answers: GroupId -> Response, s0: State, actions: seq<Action>)
    returns (starts: map<Req, Parser>, n: nat, ds: seq<Delivery>)
    requires Answers(capacity, answers) && Initial(s0) && Feasible(s0, actions)
    ensures StartsOk(starts, n) && OnlyServed(starts, After(s0, actions).served)
    ensures Planned(capacity, answers, s0, actions, starts, ds)
  {
    if actions == [] {
      starts, n, ds := map[], 0, [NOTHING_YET];
    } else {
      var s, a := After(s0, Front(actions)), Last(actions);
      var before, m, front := RunsExist(capacity, answers, s0, Front(actions));
      PlanIsReady(capacity, answers, s0, Front(actions), before, m, front);
      StepLog(s, a);
      if ServiceOf(s, a).Some? {
        NotServedYet(s, a);
      }
      var d';
      starts, n, d' := PlanStep(capacity, answers, s, a, before, m, Last(front));
      StillOnlyServed(before, starts, s.served, ServiceOf(s, a));
      PlanGrows(capacity, answers, s0, actions, before, starts, front, d');
      ds := front + [d'];
    }
  }

  // For any answers of the origin and any run of the protocol there are streaming runs of the
  // entries, fair to everybody, in which the consumers serve as that run wants them to.
  lemma WorldExists(capacity: nat, answers: GroupId -> Response, s0: State, actions: seq<Action>)
    returns (w: World, ds: seq<Delivery>)
    requires Answers(capacity, answers) && Initial(s0) && Feasible(s0, actions)
    ensures w.capacity == capacity && w.answers == answers && WorldOk(w) && Delivers(w, s0, actions, ds)
  {
    var starts, n;
    starts, n, ds := RunsExist(capacity, answers, s0, actions);
    w := WorldFor(capacity, answers, starts, n);
    WorldForIsFed(capacity, answers, starts, n);
  }
}
