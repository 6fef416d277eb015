/** The inductive invariant of the coalescing protocol. */
module CoalescingInvariant {
  import opened LruSpec
  import opened Coalescing

  // What the handler that a leader thread is running has to do with one of its groups.
  datatype Role = Bystander | Creating | Asking | Detaching | Emptying | Leaving | WorkingOff

  function RoleOf(p: Pc, g: GroupId): Role {
    match p
    case Register(r) => if r == g then Creating else Bystander
    case QueryCache(r) => if r == g then Asking else Bystander
    case HitNotify(r, _) => if r == g then Asking else Bystander
    case HitServe(r, _) => if r == g then Asking else Bystander
    case Detach(h) => if h == g then Detaching else Bystander
    case ServeGroup(h) => if h == g then Emptying else Bystander
    case Leave(h) => if h == g then Role.Leaving else Bystander
    case HandOver(h) => if h == g then WorkingOff else Bystander
    case Attend(h) => if h == g then WorkingOff else Bystander
    case WaitOnCv(_, attending) => if attending == Some(g) then WorkingOff else Bystander
    case CvPassed(_, attending) => if attending == Some(g) then WorkingOff else Bystander
    case Serve(_, _, attending) => if attending == Some(g) then WorkingOff else Bystander
    case _ => Bystander
  }

  // The role of the group's own leader.
  function LeaderRole(s: State, g: GroupId): Role {
    RoleOf(s.PcOf(s.GroupOf(g).leader), g)
  }

  predicate HasRequest(p: Pc) {
    p.Register? || p.QueryCache? || p.HitNotify? || p.HitServe? || p.Classify? || p.TestLeads?
    || p.WaitOnCv? || p.CvPassed? || p.Serve?
  }

  // The handler is working for this request.
  predicate Carries(p: Pc, r: Req) {
    HasRequest(p) && p.req == r
  }

  predicate Attached(s: State, g: GroupId) {
    s.GroupOf(g).key in s.attached && s.attached[s.GroupOf(g).key] == g
  }

  // The group is in the table of groups led by its leader thread.
  predicate Registered(s: State, g: GroupId) {
    var group := s.GroupOf(g);
    group.leader in s.leads && group.key in s.leads[group.leader] && s.leads[group.leader][group.key] == g
  }

  predicate Distinct<T(==)>(l: seq<T>) {
    forall i, j :: 0 <= i < j < |l| ==> l[i] != l[j]
  }

  predicate DistinctReqs(l: seq<Other>) {
    forall i, j :: 0 <= i < j < |l| ==> l[i].req != l[j].req
  }

  /* ---------- groups ---------- */

  // Attached from its creation until its response is complete, or a hit has been served.
  ghost predicate LifeOk(s: State, g: GroupId) {
    var group, role := s.GroupOf(g), LeaderRole(s, g);
    && (Attached(s, g) <==> role == Creating || role == Asking || role == Detaching || group.entry == Writing)
    && (Registered(s, g) <==> (Attached(s, g) && role != Creating) || role == Emptying || role == Leaving)
    && g in s.requests && s.requests[g].group == g && s.requests[g].thread == group.leader
    && s.requests[g].key == group.key
    && (group.entry == Writing <==> s.requests[g].stage == AtOrigin)
    && s.requests[g].stage != InWaiting && !s.requests[g].stage.Deferred?
  }

  // A detached group has its response; an entry is the response of the group that made it,
  // and any other response is a finished entry for the same key.
  ghost predicate ResponseOk(s: State, g: GroupId) {
    var group := s.GroupOf(g);
    && (group.response == None ==> Attached(s, g))
    && (group.entry == Complete ==> group.response == Some(g))
    && (group.entry == Writing && group.response.Some? ==> group.response == Some(g))
    && (group.response.Some? ==>
          var e := group.response.value;
          && e in s.groups && s.groups[e].key == group.key
          && if e == g then group.entry != NoEntry else s.groups[e].entry == Complete)
  }

  ghost predicate WaitingOk(s: State, g: GroupId) {
    var group, role := s.GroupOf(g), LeaderRole(s, g);
    && (group.waiting != [] ==>
          group.entry == Writing || (group.entry == Complete && (role == Detaching || role == Emptying)))
    && Distinct(group.waiting)
    && (forall i :: 0 <= i < |group.waiting| ==>
          && group.waiting[i] in s.requests
          && s.requests[group.waiting[i]] == Request(group.leader, group.key, g, InWaiting))
  }

  ghost predicate OtherOk(s: State, g: GroupId, o: Other) {
    && o.group in s.groups && s.groups[o.group].leader != s.GroupOf(g).leader && o.req in s.requests
    && s.requests[o.req] == Request(s.GroupOf(g).leader, s.groups[o.group].key, o.group, Deferred(g))
  }

  ghost predicate OthersOk(s: State, g: GroupId) {
    var group := s.GroupOf(g);
    && (group.others != [] ==> group.entry != NoEntry && (Registered(s, g) || LeaderRole(s, g) == WorkingOff))
    && DistinctReqs(group.others)
    && (forall i :: 0 <= i < |group.others| ==> OtherOk(s, g, group.others[i]))
  }

  ghost predicate GroupOk(s: State, g: GroupId) {
    LifeOk(s, g) && ResponseOk(s, g) && WaitingOk(s, g) && OthersOk(s, g)
  }

  /* ---------- threads ---------- */

  // The thread is in the leader table exactly when it leads some group.
  predicate LeadsSome(s: State, t: Thread) {
    t in s.leads ==> s.leads[t] != map[]
  }

  predicate LeadsNone(s: State, t: Thread) {
    t in s.leads && s.leads[t] == map[]
  }

  predicate Parked(s: State, t: Thread, attending: Option<GroupId>) {
    match attending
    case None => t !in s.leads
    case Some(g) => LeadsNone(s, t) && Leads(s, t, g)
  }

  predicate Leads(s: State, t: Thread, g: GroupId) {
    g in s.groups && s.groups[g].leader == t
  }

  // A group nobody but its first request has touched.
  predicate Untouched(s: State, t: Thread, g: GroupId) {
    Leads(s, t, g) && s.groups[g].entry == NoEntry && s.groups[g].waiting == [] && s.groups[g].others == []
  }

  predicate Finished(s: State, g: GroupId, e: GroupId) {
    g in s.groups && e in s.groups && s.groups[e].entry == Complete && s.groups[e].key == s.groups[g].key
  }

  ghost predicate Handles(s: State, t: Thread, r: Req) {
    && r in s.requests && s.requests[r].thread == t && s.requests[r].stage == Handling
    && s.requests[r].group in s.groups && s.groups[s.requests[r].group].key == s.requests[r].key
  }

  // The request waits for a group that some other thread leads.
  ghost predicate Awaits(s: State, t: Thread, r: Req) {
    Handles(s, t, r) && s.groups[s.requests[r].group].leader != t
  }

  ghost predicate ThreadOk(s: State, t: Thread) {
    match s.PcOf(t)
    case Idle => LeadsSome(s, t)
    case Register(r) => LeadsSome(s, t) && Handles(s, t, r) && Untouched(s, t, r) && s.groups[r].response == None
    case QueryCache(r) => LeadsSome(s, t) && Handles(s, t, r) && Untouched(s, t, r) && s.groups[r].response == None
    case HitNotify(r, e) =>
      && LeadsSome(s, t) && Handles(s, t, r) && Untouched(s, t, r) && s.groups[r].response == None
      && Finished(s, r, e)
    case HitServe(r, e) =>
      && LeadsSome(s, t) && Handles(s, t, r) && Untouched(s, t, r) && s.groups[r].response == Some(e)
      && Finished(s, r, e)
    case Classify(r) =>
      && LeadsSome(s, t) && Handles(s, t, r)
      && (s.Home(r).leader == t ==> s.Home(r).entry == Writing)
    case TestLeads(r) => LeadsSome(s, t) && Awaits(s, t, r)
    case WaitOnCv(r, attending) => Parked(s, t, attending) && Awaits(s, t, r)
    case CvPassed(r, attending) => Parked(s, t, attending) && Awaits(s, t, r)
    case Serve(r, e, attending) => Parked(s, t, attending) && Awaits(s, t, r) && s.Home(r).response == Some(e)
    case InsertEntry(g) =>
      LeadsSome(s, t) && Leads(s, t, g) && s.groups[g].entry == Writing && s.groups[g].response == None
    case Notify(g) =>
      LeadsSome(s, t) && Leads(s, t, g) && s.groups[g].entry == Writing && s.groups[g].response == None
    case Detach(g) => LeadsSome(s, t) && Leads(s, t, g) && s.groups[g].entry != Writing && s.groups[g].response.Some?
    case ServeGroup(g) => LeadsSome(s, t) && Leads(s, t, g) && s.groups[g].entry != Writing
    case Leave(g) => LeadsSome(s, t) && Leads(s, t, g) && s.groups[g].waiting == [] && s.groups[g].entry != Writing
    case HandOver(g) => t in s.leads && Leads(s, t, g) && s.groups[g].entry != Writing && s.groups[g].others != []
    case Attend(g) => LeadsNone(s, t) && Leads(s, t, g)
    case Release => t in s.leads
  }

  /* ---------- requests, tables, cache, log ---------- */

  ghost predicate RequestOk(s: State, r: Req) {
    r in s.requests && s.requests[r].group in s.groups && s.requests[r].key == s.groups[s.requests[r].group].key &&
    match s.requests[r].stage
    case Handling => Carries(s.PcOf(s.requests[r].thread), r)
    case InWaiting => r in s.Home(r).waiting
    case Deferred(h) => h in s.groups && Other(r, s.requests[r].group) in s.groups[h].others
    case AtOrigin => s.requests[r].group == r
    case Served(e) => s.Home(r).response == Some(e) && s.GroupOf(e).entry == Complete && Service(r, e) in s.served
    case TimedOut => true
  }

  ghost predicate AttachedOk(s: State, key: Key) {
    key in s.attached ==> s.attached[key] in s.groups && s.groups[s.attached[key]].key == key
  }

  ghost predicate LedOk(s: State, t: Thread, key: Key) {
    t in s.leads && key in s.leads[t] ==> Leads(s, t, s.leads[t][key]) && s.groups[s.leads[t][key]].key == key
  }

  // The cache holds entries under the keys of the groups that made them.
  ghost predicate SlotOk(s: State, slot: Slot<GroupId>) {
    slot.value in s.groups && s.groups[slot.value].key == slot.key && s.groups[slot.value].entry != NoEntry
  }

  ghost predicate ServiceOk(s: State, i: nat) {
    i < |s.served| ==> s.served[i].req in s.requests && s.requests[s.served[i].req].stage == Served(s.served[i].entry)
  }

  ghost predicate ServedOnce(s: State) {
    && (forall i, j :: 0 <= i < j < |s.served| ==> s.served[i].req != s.served[j].req)
    && (forall i :: ServiceOk(s, i))
  }

  ghost predicate TablesOk(s: State) {
    && (forall key :: AttachedOk(s, key))
    && (forall t, key :: LedOk(s, t, key))
    && (forall slot :: slot in s.cache ==> SlotOk(s, slot))
  }

  ghost predicate Inv(s: State) {
    && (forall g :: g in s.groups ==> GroupOk(s, g))
    && (forall t :: ThreadOk(s, t))
    && (forall r :: r in s.requests ==> RequestOk(s, r))
    && TablesOk(s) && ServedOnce(s)
  }

  lemma InitialOk(s: State)
    requires Initial(s)
    ensures Inv(s)
  {
  }
}
