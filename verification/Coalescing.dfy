/**
 Request coalescing as a transition system: any number of worker threads, keys and
 requests. A thread runs one handler at a time; handlers of different threads
 interleave wherever one of them takes or releases a lock.
 */
module Coalescing {
  import opened LruSpec

  type Thread = nat
  type Req = nat

  // A group is named after the request that created it, and so is the entry that request produces.
  type GroupId = Req

  datatype EntryStatus = NoEntry | Writing | Complete

  // A deferred request and the group it coalesced into.
  datatype Other = Other(req: Req, group: GroupId)

  datatype Group = Group(
    key: Key, leader: Thread, waiting: seq<Req>, response: Option<GroupId>, others: seq<Other>, entry: EntryStatus)

  // Where a request is. Handling: its thread's current handler is working for it.
  datatype Stage =
    | Handling
    | InWaiting
    | Deferred(host: GroupId)
    | AtOrigin
    | Served(entry: GroupId)
    | TimedOut

  datatype Request = Request(thread: Thread, key: Key, group: GroupId, stage: Stage)

  datatype Service = Service(req: Req, entry: GroupId)

  // The next step of the handler that a thread is running. `attending` is the group whose
  // deferred requests the thread is working off, if it is doing that.
  datatype Pc =
    | Idle
    | Register(req: Req)
    | QueryCache(req: Req)
    | HitNotify(req: Req, entry: GroupId)
    | HitServe(req: Req, entry: GroupId)
    | Classify(req: Req)
    | TestLeads(req: Req)
    | WaitOnCv(req: Req, attending: Option<GroupId>)
    | CvPassed(req: Req, attending: Option<GroupId>)
    | Serve(req: Req, entry: GroupId, attending: Option<GroupId>)
    | InsertEntry(group: GroupId)
    | Notify(group: GroupId)
    | Detach(group: GroupId)
    | ServeGroup(group: GroupId)
    | Leave(group: GroupId)
    | HandOver(group: GroupId)
    | Attend(group: GroupId)
    | Release

  datatype State = State(
    capacity: nat,
    cache: seq<Slot<GroupId>>,
    attached: map<Key, GroupId>,
    leads: map<Thread, map<Key, GroupId>>,
    groups: map<GroupId, Group>,
    requests: map<Req, Request>,
    pcs: map<Thread, Pc>,
    served: seq<Service>)
  {
    function PcOf(t: Thread): Pc {
      if t in pcs then pcs[t] else Idle
    }

    function LeadsOf(t: Thread): map<Key, GroupId> {
      if t in leads then leads[t] else map[]
    }

    function GroupOf(g: GroupId): Group {
      if g in groups then groups[g] else Group("", 0, [], None, [], NoEntry)
    }

    function RequestOf(r: Req): Request {
      if r in requests then requests[r] else Request(0, "", r, Handling)
    }

    // The group that a request belongs to.
    function Home(r: Req): Group {
      GroupOf(RequestOf(r).group)
    }

    function Goto(t: Thread, pc: Pc): State {
      this.(pcs := pcs[t := pc])
    }

    function WithGroup(g: GroupId, group: Group): State {
      this.(groups := groups[g := group])
    }

    function WithStage(r: Req, stage: Stage): State {
      this.(requests := requests[r := RequestOf(r).(stage := stage)])
    }

    function Serving(r: Req, entry: GroupId): State {
      WithStage(r, Served(entry)).(served := served + [Service(r, entry)])
    }
  }

  ghost predicate Initial(s: State) {
    s.cache == [] && s.attached == map[] && s.leads == map[] && s.groups == map[] && s.requests == map[]
    && s.pcs == map[] && s.served == []
  }

  /* ---------- the handlers, one lock-protected step at a time ---------- */

  datatype Action =
    | Arrive(thread: Thread, req: Req, key: Key)
    | FirstHeaders(thread: Thread, group: GroupId, cacheable: bool)
    | ResponseEnd(thread: Thread, group: GroupId)
    // choice: which of its groups the thread's map of led groups happens to list first
    | Advance(thread: Thread, choice: Key)
    | Timeout(thread: Thread)

  // The thread that performs the action.
  function ThreadOf(a: Action): Thread {
    match a
    case Arrive(t, _, _) => t
    case FirstHeaders(t, _, _) => t
    case ResponseEnd(t, _) => t
    case Advance(t, _) => t
    case Timeout(t) => t
  }

  // A thread that can only wait: on the condition variable, or polling an unfinished entry.
  predicate Blocked(s: State, t: Thread) {
    match s.PcOf(t)
    case WaitOnCv(r, _) => s.Home(r).response == None
    case Serve(_, e, _) => s.GroupOf(e).entry != Complete
    case HitServe(_, e) => s.GroupOf(e).entry != Complete
    case _ => false
  }

  // The step begins with the first group the thread leads.
  predicate NeedsChoice(s: State, t: Thread) {
    || (s.PcOf(t).TestLeads? && t in s.leads)
    || (s.PcOf(t).HandOver? && s.LeadsOf(t) != map[])
  }

  // A group whose leader's origin request is in flight.
  predicate InFlight(s: State, t: Thread, g: GroupId) {
    g in s.groups && s.groups[g].leader == t && g in s.requests && s.requests[g].stage == AtOrigin
  }

  predicate Enabled(s: State, a: Action) {
    match a
    case Arrive(t, r, _) => s.PcOf(t) == Idle && r !in s.requests
    case FirstHeaders(t, g, _) => s.PcOf(t) == Idle && InFlight(s, t, g) && s.groups[g].response == None
    case ResponseEnd(t, g) => s.PcOf(t) == Idle && InFlight(s, t, g) && s.groups[g].response != None
    case Advance(t, choice) =>
      s.PcOf(t) != Idle && !Blocked(s, t) && (NeedsChoice(s, t) ==> choice in s.LeadsOf(t))
    case Timeout(t) => s.PcOf(t).WaitOnCv?
  }

  // The thread goes on with the deferred requests, or its handler returns.
  function Resume(attending: Option<GroupId>): Pc {
    match attending
    case None => Idle
    case Some(g) => Attend(g)
  }

  // Joins the group attached under the key, or creates and attaches one.
  function ArriveStep(s: State, t: Thread, r: Req, key: Key): State {
    if key in s.attached then
      s.(requests := s.requests[r := Request(t, key, s.attached[key], Handling)]).Goto(t, Classify(r))
    else
      s.(requests := s.requests[r := Request(t, key, r, Handling)],
         groups := s.groups[r := Group(key, t, [], None, [], NoEntry)],
         attached := s.attached[key := r]).Goto(t, Register(r))
  }

  function RegisterStep(s: State, t: Thread, r: Req): State {
    s.(leads := s.leads[t := s.LeadsOf(t)[s.GroupOf(r).key := r]]).Goto(t, QueryCache(r))
  }

  function QueryCacheStep(s: State, t: Thread, r: Req): State {
    var key := s.GroupOf(r).key;
    match Find(s.cache, key)
    case Some(e) => s.(cache := At(s.cache, key)).Goto(t, HitNotify(r, e))
    case None => s.WithGroup(r, s.GroupOf(r).(entry := Writing)).WithStage(r, AtOrigin).Goto(t, Idle)
  }

  // A group's shared response is announced to the threads that wait for it.
  function NotifyStep(s: State, t: Thread, g: GroupId, e: GroupId, pc: Pc): State {
    s.WithGroup(g, s.GroupOf(g).(response := Some(e))).Goto(t, pc)
  }

  // Only the leader thread appends to the group's list.
  function ClassifyStep(s: State, t: Thread, r: Req): State {
    var g := s.RequestOf(r).group;
    if s.GroupOf(g).leader == t then
      s.WithGroup(g, s.GroupOf(g).(waiting := s.GroupOf(g).waiting + [r])).WithStage(r, InWaiting).Goto(t, Idle)
    else s.Goto(t, TestLeads(r))
  }

  // A thread that leads some group must not wait; it defers the request.
  function TestLeadsStep(s: State, t: Thread, r: Req, choice: Key): State {
    if t in s.leads && choice in s.leads[t] then
      var h := s.leads[t][choice];
      var others := s.GroupOf(h).others + [Other(r, s.RequestOf(r).group)];
      s.WithGroup(h, s.GroupOf(h).(others := others)).WithStage(r, Deferred(h)).Goto(t, Idle)
    else s.Goto(t, WaitOnCv(r, None))
  }

  function CvPassedStep(s: State, t: Thread, r: Req, attending: Option<GroupId>): State {
    match s.Home(r).response
    case Some(e) => s.Goto(t, Serve(r, e, attending))
    case None => s.WithStage(r, TimedOut).Goto(t, Resume(attending))
  }

  function InsertStep(s: State, t: Thread, g: GroupId): State {
    s.(cache := Insert(s.capacity, s.cache, s.GroupOf(g).key, g)).Goto(t, Notify(g))
  }

  function DetachStep(s: State, t: Thread, g: GroupId): State {
    s.(attached := s.attached - {s.GroupOf(g).key}).Goto(t, ServeGroup(g))
  }

  // One waiting request is served from the entry of the group's own producer.
  function ServeGroupStep(s: State, t: Thread, g: GroupId): State {
    var group := s.GroupOf(g);
    if group.waiting == [] then s.Goto(t, Leave(g))
    else s.WithGroup(g, group.(waiting := group.waiting[1..])).Serving(group.waiting[0], g)
  }

  function LeaveStep(s: State, t: Thread, g: GroupId): State {
    var group := s.GroupOf(g);
    s.(leads := s.leads[t := s.LeadsOf(t) - {group.key}])
     .Goto(t, if group.others == [] then Release else HandOver(g))
  }

  function Moved(request: Request, from: GroupId, to: GroupId): Request {
    if request.stage == Deferred(from) then request.(stage := Deferred(to)) else request
  }

  // While the thread leads another group, that group takes over the deferred requests.
  function HandOverStep(s: State, t: Thread, g: GroupId, choice: Key): State {
    if choice in s.LeadsOf(t) then
      var h := s.LeadsOf(t)[choice];
      if h == g then s else
      s.(groups := s.groups[h := s.GroupOf(h).(others := s.GroupOf(h).others + s.GroupOf(g).others)]
                           [g := s.GroupOf(g).(others := [])],
         requests := map r | r in s.requests :: Moved(s.requests[r], g, h)).Goto(t, Idle)
    else s.Goto(t, Attend(g))
  }

  function AttendStep(s: State, t: Thread, g: GroupId): State {
    var group := s.GroupOf(g);
    if group.others == [] then s.Goto(t, Release)
    else
      var o := group.others[0];
      s.WithGroup(g, group.(others := group.others[1..])).WithStage(o.req, Handling)
       .Goto(t, WaitOnCv(o.req, Some(g)))
  }

  function ReleaseStep(s: State, t: Thread): State {
    (if s.LeadsOf(t) == map[] then s.(leads := s.leads - {t}) else s).Goto(t, Idle)
  }

  function AdvanceStep(s: State, t: Thread, choice: Key): State {
    match s.PcOf(t)
    case Idle => s
    case Register(r) => RegisterStep(s, t, r)
    case QueryCache(r) => QueryCacheStep(s, t, r)
    case HitNotify(r, e) => NotifyStep(s, t, r, e, HitServe(r, e))
    case HitServe(r, e) => s.Serving(r, e).Goto(t, Detach(r))
    case Classify(r) => ClassifyStep(s, t, r)
    case TestLeads(r) => TestLeadsStep(s, t, r, choice)
    case WaitOnCv(r, attending) => s.Goto(t, CvPassed(r, attending))
    case CvPassed(r, attending) => CvPassedStep(s, t, r, attending)
    case Serve(r, e, attending) => s.Serving(r, e).Goto(t, Resume(attending))
    case InsertEntry(g) => InsertStep(s, t, g)
    case Notify(g) => NotifyStep(s, t, g, g, Idle)
    case Detach(g) => DetachStep(s, t, g)
    case ServeGroup(g) => ServeGroupStep(s, t, g)
    case Leave(g) => LeaveStep(s, t, g)
    case HandOver(g) => HandOverStep(s, t, g, choice)
    case Attend(g) => AttendStep(s, t, g)
    case Release => ReleaseStep(s, t)
  }

  // The producer's entry is finished; the leader's own stream has carried the response.
  function ResponseEndStep(s: State, t: Thread, g: GroupId): State {
    s.WithGroup(g, s.GroupOf(g).(entry := Complete)).Serving(g, g).Goto(t, Detach(g))
  }

  function Next(s: State, a: Action): State {
    match a
    case Arrive(t, r, key) => ArriveStep(s, t, r, key)
    case FirstHeaders(t, g, cacheable) => s.Goto(t, if cacheable then InsertEntry(g) else Notify(g))
    case ResponseEnd(t, g) => ResponseEndStep(s, t, g)
    case Advance(t, choice) => AdvanceStep(s, t, choice)
    case Timeout(t) =>
      if s.PcOf(t).WaitOnCv? then s.Goto(t, CvPassed(s.PcOf(t).req, s.PcOf(t).attending)) else s
  }
}
