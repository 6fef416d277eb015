/**
 From the origin's answers to the callbacks of every request: the runs of the coalescing protocol
 joined with one streaming run per entry. Each filter has one consumer, which serves the requests
 that fall to it one after the other, from entries of several groups.
 */
module EndToEnd {
  import opened Blocks
  import opened BlockCodec
  import opened BlockCodecProofs
  import opened BlockCodecExact
  import opened EntryProgram
  import opened FinishedEntry
  import opened LruSpec
  import opened Coalescing
  import opened CoalescingInvariant
  import opened CoalescingSteps
  import opened CoalescingTheorems
  import opened CoalescingTimeouts
  import Streaming
  import StreamingRuns
  import StreamingProgress

  /* ---------- who serves whom ---------- */

  // The service that an action performs.
  function ServiceOf(s: State, a: Action): Option<Service> {
    match a
    case ResponseEnd(_, g) => Some(Service(g, g))
    case Advance(t, _) =>
      (match s.PcOf(t)
       case HitServe(r, e) => Some(Service(r, e))
       case Serve(r, e, _) => Some(Service(r, e))
       case ServeGroup(g) =>
         if s.GroupOf(g).waiting == [] then None else Some(Service(s.GroupOf(g).waiting[0], g))
       case _ => None)
    case _ => None
  }

  // The filter, named after its request, whose consumer performs the service. There is none for
  // the request that went to the origin: its own stream carries the response.
  function ServerOf(s: State, a: Action): Option<Req> {
    if !a.Advance? then None else
    match s.PcOf(a.thread)
    case HitServe(r, _) => Some(r)
    case Serve(r, _, attending) => if attending.Some? then attending else Some(r)
    case ServeGroup(g) => Some(g)
    case _ => None
  }

  function Listed(service: Option<Service>): seq<Service> {
    if service.Some? then [service.value] else []
  }

  lemma AdvanceLog(s: State, t: Thread, choice: Key)
    ensures AdvanceStep(s, t, choice).served == s.served + Listed(ServiceOf(s, Advance(t, choice)))
  {
    assert s.served + [] == s.served;
  }

  lemma StepLog(s: State, a: Action)
    ensures Next(s, a).served == s.served + Listed(ServiceOf(s, a))
  {
    if a.Advance? {
      AdvanceLog(s, a.thread, a.choice);
    } else {
      assert s.served + [] == s.served;
    }
  }

  // A request that joined another thread's group did not create the response it is served.
  lemma JoinedOther(s: State, t: Thread, r: Req, e: GroupId)
    requires Inv(s) && Awaits(s, t, r) && s.Home(r).response == Some(e)
    ensures r != e
  {
    assert GroupOk(s, s.requests[r].group);
    assert e in s.groups ==> GroupOk(s, e);
  }

  lemma HitIsOther(s: State, t: Thread, r: Req, e: GroupId)
    requires Inv(s) && s.PcOf(t) == HitServe(r, e)
    ensures r != e
  {
    assert ThreadOk(s, t);
  }

  lemma ListedIsOther(s: State, g: GroupId)
    requires Inv(s) && g in s.groups && s.groups[g].waiting != []
    ensures s.groups[g].waiting[0] != g
  {
    assert GroupOk(s, g);
  }

  // A consumer serves exactly the requests that did not go to the origin.
  lemma ServedByConsumer(s: State, a: Action)
    requires Inv(s) && Enabled(s, a) && ServiceOf(s, a).Some?
    ensures ServerOf(s, a).Some? <==> ServiceOf(s, a).value.req != ServiceOf(s, a).value.entry
  {
    if a.Advance? {
      assert ThreadOk(s, a.thread);
      match s.PcOf(a.thread)
      case HitServe(r, e) => HitIsOther(s, a.thread, r, e);
      case Serve(r, e, _) => JoinedOther(s, a.thread, r, e);
      case ServeGroup(g) => ListedIsOther(s, g);
      case _ =>
    }
  }

  // That consumer is one of the serving thread's own, so nobody else uses it meanwhile: the one of the
  // leader for a request in its list, the one of the filter that works off its deferred requests
  // for those, and otherwise the one of the request's own filter.
  ghost predicate RightConsumer(s: State, t: Thread, r: Req, c: Req) {
    && r in s.requests && s.requests[r].thread == t && c in s.requests && s.requests[c].thread == t
    && (s.requests[r].stage == InWaiting ==> c == s.requests[r].group)
    && (s.requests[r].stage != InWaiting ==>
          if exists g :: Leads(s, t, g) && LeaderRole(s, g) == WorkingOff
          then Leads(s, t, c) && LeaderRole(s, c) == WorkingOff else c == r)
  }

  lemma ListConsumer(s: State, t: Thread, g: GroupId)
    requires Inv(s) && s.PcOf(t) == ServeGroup(g) && s.GroupOf(g).waiting != []
    ensures RightConsumer(s, t, s.GroupOf(g).waiting[0], g)
  {
    assert ThreadOk(s, t) && GroupOk(s, g);
  }

  lemma OwnConsumer(s: State, t: Thread, r: Req)
    requires ThreadOk(s, t) && Carries(s.PcOf(t), r)
    requires s.PcOf(t).HitServe? || (s.PcOf(t).Serve? && s.PcOf(t).attending == None)
    ensures RightConsumer(s, t, r, r)
  {
  }

  lemma AttendingConsumer(s: State, t: Thread, r: Req, g: GroupId)
    requires ThreadOk(s, t) && GroupOk(s, g) && Carries(s.PcOf(t), r)
    requires s.PcOf(t).Serve? && s.PcOf(t).attending == Some(g)
    ensures RightConsumer(s, t, r, g)
  {
    assert Leads(s, t, g) && LeaderRole(s, g) == WorkingOff;
  }

  lemma ConsumerIsRight(s: State, a: Action)
    requires Inv(s) && Enabled(s, a) && ServiceOf(s, a).Some? && ServerOf(s, a).Some?
    ensures RightConsumer(s, ThreadOf(a), ServiceOf(s, a).value.req, ServerOf(s, a).value)
  {
    assert ThreadOk(s, a.thread);
    match s.PcOf(a.thread)
    case ServeGroup(g) => ListConsumer(s, a.thread, g);
    case HitServe(r, _) => OwnConsumer(s, a.thread, r);
    case Serve(r, _, None) => OwnConsumer(s, a.thread, r);
    case Serve(r, _, Some(g)) =>
      assert GroupOk(s, g);
      AttendingConsumer(s, a.thread, r, g);
  }

  /* ---------- one streaming run per entry ---------- */

  // The reader that serves request r from the entry is number r.
  datatype EntryRun = EntryRun(start: Streaming.State, schedule: seq<Streaming.Actor>, more: seq<Streaming.Actor>)

  // What the origin answers to the request that creates an entry, and how that entry is written and read.
  datatype World = World(capacity: nat, answers: GroupId -> Response, runs: GroupId -> EntryRun)

  // The producer has its turns, and after that every reader has its own.
  ghost predicate Fair(answer: Response, run: EntryRun) {
    && StreamingProgress.Turns(run.schedule, Streaming.Producer) >= StreamingProgress.WriterBound(SectionsOf(answer))
    && forall id :: id in run.start.readers ==>
         StreamingProgress.Turns(run.more, Streaming.Consumer(id)) >= StreamingProgress.Bound(SectionsOf(answer))
  }

  ghost predicate WorldOk(w: World) {
    w.capacity > 0 &&
    forall e ::
      && WellOrdered(w.answers(e)) && Storable(w.answers(e)) && Fits(w.capacity, w.answers(e))
      && Streaming.Initial(w.capacity, w.runs(e).start) && Fair(w.answers(e), w.runs(e))
  }

  // In the run of entry e the reader of request r starts with parser p and has parser q at the end.
  ghost predicate Streamed(w: World, e: GroupId, r: Req, p: Parser, q: Parser) {
    var run := w.runs(e);
    && r in run.start.readers && run.start.readers[r].parser == p && Streaming.ParsersValid(run.start)
    && var end := Streaming.Exec(Program(w.answers(e)), run.start, run.schedule + run.more);
       r in end.readers && end.readers[r].parser == q
  }

  // Nothing is half read, so that the consumer can serve.
  ghost predicate Ready(p: Parser) {
    p.(fields := [], endStream := false).AtRest()
  }

  lemma StreamGives(w: World, e: GroupId, r: Req, p: Parser, q: Parser)
    requires WorldOk(w) && Ready(p) && Streamed(w, e, r, p, q)
    ensures q == StreamingRuns.Served(p, w.answers(e)) && Ready(q)
  {
    var run := w.runs(e);
    StreamingProgress.EveryoneFinishes(w.answers(e), w.capacity, run.start, run.schedule, run.more, r);
  }

  /* ---------- the callbacks of a run ---------- */

  // The parser of each filter's consumer, and what each served request has received.
  datatype Delivery = Delivery(consumers: map<Req, Parser>, received: map<Req, seq<Event>>) {
    function ConsumerOf(c: Req): Parser {
      if c in consumers then consumers[c] else START
    }
  }

  const NOTHING_YET := Delivery(map[], map[])

  // An encoder call that the filter lets continue is a callback of the stream it belongs to; the
  // end of the encoding is none.
  function Continued(c: Call): seq<Event> {
    match c
    case CallHeaders(fields, end) => [EncodeHeaders(fields, end)]
    case CallData(chunk, end) => [EncodeData(chunk, end)]
    case CallTrailers(fields) => [EncodeTrailers(fields)]
    case CallComplete => []
  }

  // What these calls give the stream of the request that went to the origin.
  function AllContinued(calls: seq<Call>): seq<Event> {
    if calls == [] then [] else AllContinued(Front(calls)) + Continued(Last(calls))
  }

  // The origin's response as the stream of the request that asked for it receives it.
  function OriginEvents(r: Response): seq<Event> {
    AllContinued(ResponseCalls(r))
  }

  lemma {:induction false} ContinuedConcat(a: seq<Call>, b: seq<Call>)
    ensures AllContinued(a + b) == AllContinued(a) + AllContinued(b)
  {
    if b == [] {
      assert a + b == a;
    } else {
      assert Front(a + b) == a + Front(b) && Last(a + b) == Last(b);
      ContinuedConcat(a, Front(b));
      Assoc(AllContinued(a), AllContinued(Front(b)), Continued(Last(b)));
    }
  }

  lemma {:induction false} HeadersContinue(batches: seq<FieldMap>, end: bool)
    ensures AllContinued(HeaderCalls(batches, end)) == HeaderEvents(batches, end)
  {
    if batches != [] {
      assert Front(HeaderCalls(batches, end)) == HeaderCalls(Front(batches), false);
      HeadersContinue(Front(batches), false);
      HeaderEventsSnoc([], batches, end);
    }
  }

  lemma {:induction false} DataContinues(chunks: seq<Bytes>, end: bool)
    ensures AllContinued(DataCalls(chunks, end)) == DataEvents(chunks, end)
  {
    if chunks != [] {
      assert Front(DataCalls(chunks, end)) == DataCalls(Front(chunks), false);
      DataContinues(Front(chunks), false);
    }
  }

  lemma {:induction false} TrailersContinue(batches: seq<FieldMap>)
    ensures AllContinued(TrailerCalls(batches)) == TrailerEvents(batches)
  {
    if batches != [] {
      assert Front(TrailerCalls(batches)) == TrailerCalls(Front(batches));
      TrailersContinue(Front(batches));
      TrailerEventsSnoc([], batches);
    }
  }

  lemma ThreeContinue(hs: seq<Call>, ds: seq<Call>, ts: seq<Call>)
    ensures AllContinued(hs + ds + ts + [CallComplete]) == AllContinued(hs) + AllContinued(ds) + AllContinued(ts)
  {
    assert Front(hs + ds + ts + [CallComplete]) == hs + ds + ts;
    ContinuedConcat(hs + ds, ts);
    ContinuedConcat(hs, ds);
  }

  // Every call is continued, in order, whatever it is.
  lemma OriginReceives(r: Response)
    ensures OriginEvents(r) == HeaderEvents(r.headers, r.chunks == [] && r.trailers == [])
                               + DataEvents(r.chunks, r.trailers == []) + TrailerEvents(r.trailers)
  {
    var end := r.chunks == [] && r.trailers == [];
    ThreeContinue(HeaderCalls(r.headers, end), DataCalls(r.chunks, r.trailers == []), TrailerCalls(r.trailers));
    HeadersContinue(r.headers, end);
    DataContinues(r.chunks, r.trailers == []);
    TrailersContinue(r.trailers);
  }

  // The request that went to the origin and those served from the entry get the same response, but
  // for the one empty trailer map that consumers add after trailers.
  lemma SameResponse(r: Response)
    ensures ResponseEvents(r) == OriginEvents(r) + if r.trailers == [] then [] else [EncodeTrailers([])]
  {
    OriginReceives(r);
  }

  // The callbacks made after the first n.
  function Since(events: seq<Event>, n: nat): seq<Event> {
    if n <= |events| then events[n..] else []
  }

  // Consumer c serves request r from entry e.
  ghost predicate ConsumerServes(w: World, e: GroupId, r: Req, c: Req, d: Delivery, d': Delivery) {
    var p, q := d.ConsumerOf(c), d'.ConsumerOf(c);
    && Streamed(w, e, r, p, q)
    && d'.consumers == d.consumers[c := q]
    && d'.received == d.received[r := Since(q.events, |p.events|)]
  }

  ghost predicate DeliveryStep(w: World, s: State, a: Action, d: Delivery, d': Delivery) {
    match ServiceOf(s, a)
    case None => d' == d
    case Some(Service(r, e)) =>
      match ServerOf(s, a)
      case None => d' == d.(received := d.received[r := OriginEvents(w.answers(e))])
      case Some(c) => ConsumerServes(w, e, r, c, d, d')
  }

  // ds[i] is what has been delivered after i actions.
  ghost predicate Delivers(w: World, s0: State, actions: seq<Action>, ds: seq<Delivery>) {
    |ds| == |actions| + 1 &&
    if actions == [] then ds == [NOTHING_YET]
    else
      && Delivers(w, s0, Front(actions), Front(ds))
      && DeliveryStep(w, After(s0, Front(actions)), Last(actions), Last(Front(ds)), Last(ds))
  }

  // What a service owes to its request.
  function Owed(w: World, service: Service): seq<Event> {
    if service.req == service.entry then OriginEvents(w.answers(service.entry))
    else ResponseEvents(w.answers(service.entry))
  }

  ghost predicate GotOwed(w: World, d: Delivery, service: Service) {
    service.req in d.received && d.received[service.req] == Owed(w, service)
  }

  ghost predicate AllReady(d: Delivery) {
    forall c :: Ready(d.ConsumerOf(c))
  }

  // Every consumer is ready, and every service so far has delivered what it owes.
  ghost predicate DeliveryOk(w: World, served: seq<Service>, d: Delivery) {
    AllReady(d) && forall i :: 0 <= i < |served| ==> GotOwed(w, d, served[i])
  }

  lemma ConsumerDelivers(w: World, e: GroupId, r: Req, c: Req, d: Delivery, d': Delivery)
    requires WorldOk(w) && AllReady(d) && ConsumerServes(w, e, r, c, d, d')
    ensures AllReady(d') && r in d'.received && d'.received[r] == ResponseEvents(w.answers(e))
  {
    var p, q := d.ConsumerOf(c), d'.ConsumerOf(c);
    StreamGives(w, e, r, p, q);
    SinceAppended(p.events, ResponseEvents(w.answers(e)));
    forall k ensures Ready(d'.ConsumerOf(k)) {
      assert k != c ==> d'.ConsumerOf(k) == d.ConsumerOf(k);
    }
  }

  lemma SinceAppended(events: seq<Event>, more: seq<Event>)
    ensures Since(events + more, |events|) == more
  {
  }

  // The origin's own stream touches no consumer.
  lemma OriginDelivers(w: World, g: GroupId, d: Delivery, d': Delivery)
    requires AllReady(d) && d' == d.(received := d.received[g := OriginEvents(w.answers(g))])
    ensures AllReady(d') && GotOwed(w, d', Service(g, g))
  {
    forall k ensures Ready(d'.ConsumerOf(k)) {
      assert d'.ConsumerOf(k) == d.ConsumerOf(k);
    }
  }

  // Whatever has been received stays, but for the served request.
  ghost predicate OthersKeep(d: Delivery, d': Delivery, r: Req) {
    forall other :: other != r && other in d.received ==>
      other in d'.received && d'.received[other] == d.received[other]
  }

  lemma ServiceDelivers(w: World, s: State, a: Action, d: Delivery, d': Delivery)
    requires WorldOk(w) && AllReady(d) && DeliveryStep(w, s, a, d, d') && ServiceOf(s, a).Some?
    requires ServerOf(s, a).Some? <==> ServiceOf(s, a).value.req != ServiceOf(s, a).value.entry
    ensures AllReady(d') && GotOwed(w, d', ServiceOf(s, a).value)
    ensures OthersKeep(d, d', ServiceOf(s, a).value.req)
  {
    var r, e := ServiceOf(s, a).value.req, ServiceOf(s, a).value.entry;
    match ServerOf(s, a)
    case None => OriginDelivers(w, e, d, d');
    case Some(c) => ConsumerDelivers(w, e, r, c, d, d');
  }

  // The log names no request twice.
  lemma OneMoreDelivered(w: World, served: seq<Service>, service: Service, d: Delivery, d': Delivery)
    requires DeliveryOk(w, served, d) && AllReady(d') && GotOwed(w, d', service)
    requires forall i :: 0 <= i < |served| ==> served[i].req != service.req
    requires OthersKeep(d, d', service.req)
    ensures DeliveryOk(w, served + [service], d')
  {
  }

  lemma NotServedYet(s: State, a: Action)
    requires Inv(s) && Enabled(s, a) && ServiceOf(s, a).Some?
    ensures forall i :: 0 <= i < |s.served| ==> s.served[i].req != ServiceOf(s, a).value.req
  {
    StepLog(s, a);
    StepKeeps(s, a);
    var served := Next(s, a).served;
    assert served[|s.served|] == ServiceOf(s, a).value;
    forall i | 0 <= i < |s.served| ensures s.served[i].req != ServiceOf(s, a).value.req {
      assert served[i] == s.served[i];
    }
  }

  lemma StepDelivers(w: World, s: State, a: Action, d: Delivery, d': Delivery)
    requires WorldOk(w) && Inv(s) && Enabled(s, a) && DeliveryOk(w, s.served, d) && DeliveryStep(w, s, a, d, d')
    ensures DeliveryOk(w, Next(s, a).served, d')
  {
    StepLog(s, a);
    if ServiceOf(s, a).Some? {
      NotServedYet(s, a);
      ServedByConsumer(s, a);
      ServiceDelivers(w, s, a, d, d');
      OneMoreDelivered(w, s.served, ServiceOf(s, a).value, d, d');
    }
  }

  lemma {:induction false} RunDelivers(w: World, s0: State, actions: seq<Action>, ds: seq<Delivery>)
    requires WorldOk(w) && Initial(s0) && Feasible(s0, actions) && Delivers(w, s0, actions, ds)
    ensures Inv(After(s0, actions)) && DeliveryOk(w, After(s0, actions).served, Last(ds))
  {
    if actions == [] {
      InitialOk(s0);
    } else {
      RunDelivers(w, s0, Front(actions), Front(ds));
      StepKeeps(After(s0, Front(actions)), Last(actions));
      StepDelivers(w, After(s0, Front(actions)), Last(actions), Last(Front(ds)), Last(ds));
    }
  }

  // In every run each request that has been served, by whichever consumer and after whatever that
  // consumer had served before, has received exactly the response of its own group.
  lemma ServedReceive(w: World, s0: State, actions: seq<Action>, ds: seq<Delivery>, i: nat)
    requires WorldOk(w) && Initial(s0) && Feasible(s0, actions) && Delivers(w, s0, actions, ds)
    requires i < |After(s0, actions).served|
    ensures var s := After(s0, actions); var service := s.served[i];
            && service.req in s.requests && s.Home(service.req).response == Some(service.entry)
            && service.req in Last(ds).received && Last(ds).received[service.req] == Owed(w, service)
  {
    RunDelivers(w, s0, actions, ds);
    Reaches(s0, actions);
    ServedFromOwnGroup(After(s0, actions), i);
    assert GotOwed(w, Last(ds), After(s0, actions).served[i]);
  }

  // A run that can go no further has given every request whose group's response was announced before
  // its time was up the whole response of its own group.
  lemma EveryoneReceives(w: World, s0: State, actions: seq<Action>, ds: seq<Delivery>, r: Req)
    requires WorldOk(w) && Initial(s0) && Feasible(s0, actions) && Delivers(w, s0, actions, ds)
    requires InTime(s0, actions, r) && Quiescent(After(s0, actions)) && r in After(s0, actions).requests
    ensures var s := After(s0, actions);
            && s.Home(r).response.Some? && r in Last(ds).received
            && Last(ds).received[r] == Owed(w, Service(r, s.Home(r).response.value))
  {
    var s := After(s0, actions);
    EveryoneIsServed(s0, actions, r);
    var i: nat :| i < |s.served| && s.served[i].req == r;
    ServedReceive(w, s0, actions, ds, i);
  }
}
