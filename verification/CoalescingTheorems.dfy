/** What holds in every reachable state of the coalescing protocol. */
module CoalescingTheorems {
  import opened LruSpec
  import opened Coalescing
  import opened CoalescingInvariant
  import opened CoalescingFrame
  import opened CoalescingSteps

  function After(s: State, actions: seq<Action>): State {
    if actions == [] then s else Next(After(s, actions[..|actions| - 1]), actions[|actions| - 1])
  }

  // Every action is enabled when its turn comes.
  predicate Feasible(s: State, actions: seq<Action>) {
    actions == [] ||
    var front := actions[..|actions| - 1];
    Feasible(s, front) && Enabled(After(s, front), actions[|actions| - 1])
  }

  ghost predicate Reachable(s: State) {
    exists s0, actions :: Initial(s0) && Feasible(s0, actions) && After(s0, actions) == s
  }

  lemma {:induction false} EveryRunKeeps(s: State, actions: seq<Action>)
    requires Inv(s) && Feasible(s, actions)
    ensures Inv(After(s, actions))
  {
    if actions != [] {
      EveryRunKeeps(s, actions[..|actions| - 1]);
      StepKeeps(After(s, actions[..|actions| - 1]), actions[|actions| - 1]);
    }
  }

  lemma ReachableOk(s: State)
    requires Reachable(s)
    ensures Inv(s)
  {
    var s0, actions :| Initial(s0) && Feasible(s0, actions) && After(s0, actions) == s;
    InitialOk(s0);
    EveryRunKeeps(s0, actions);
  }

  /* ---------- deadlock freedom ---------- */

  // The group whose leader a blocked thread waits for.
  function WaitsFor(s: State, t: Thread): GroupId {
    match s.PcOf(t)
    case WaitOnCv(r, _) => s.RequestOf(r).group
    case Serve(_, e, _) => e
    case HitServe(_, e) => e
    case _ => 0
  }

  // A step other than taking in a new request or giving up waiting.
  predicate IsProgress(a: Action) {
    !a.Arrive? && !a.Timeout?
  }

  // Serving a cache hit never means polling a writer.
  lemma HitsAreFinished(s: State, t: Thread)
    requires Reachable(s) && s.PcOf(t).HitServe?
    ensures !Blocked(s, t)
  {
    ReachableOk(s);
    assert ThreadOk(s, t);
  }

  // Some leader's origin request or handler answers every blocked thread.
  lemma AttachedLeaderRuns(s: State, g: GroupId)
    requires Inv(s) && g in s.groups && Attached(s, g)
    ensures !Blocked(s, s.groups[g].leader)
  {
    var t := s.groups[g].leader;
    assert GroupOk(s, g) && ThreadOk(s, t);
  }

  lemma WaiterOnAttached(s: State, t: Thread, r: Req)
    requires Inv(s) && Awaits(s, t, r) && s.Home(r).response == None
    ensures s.requests[r].group in s.groups && Attached(s, s.requests[r].group)
  {
    assert GroupOk(s, s.requests[r].group);
  }

  // A poller's entry is its group's own, still being written.
  lemma PollerOnAttached(s: State, t: Thread, r: Req, e: GroupId)
    requires Inv(s) && Awaits(s, t, r) && s.Home(r).response == Some(e) && s.GroupOf(e).entry != Complete
    ensures e == s.requests[r].group && Attached(s, e)
  {
    assert GroupOk(s, s.requests[r].group);
  }

  lemma BlockedOnAttached(s: State, t: Thread)
    requires Inv(s) && Blocked(s, t)
    ensures WaitsFor(s, t) in s.groups && Attached(s, WaitsFor(s, t)) && s.groups[WaitsFor(s, t)].leader != t
  {
    assert ThreadOk(s, t);
    match s.PcOf(t)
    case WaitOnCv(r, _) => WaiterOnAttached(s, t, r);
    case Serve(r, e, _) => PollerOnAttached(s, t, r, e);
  }

  // begin() has an element where it is used.
  lemma HasChoice(s: State, t: Thread)
    requires ThreadOk(s, t) && NeedsChoice(s, t)
    ensures s.LeadsOf(t) != map[]
  {
  }

  // A running handler has a next step.
  lemma HandlerMoves(s: State, t: Thread) returns (a: Action)
    requires ThreadOk(s, t) && s.PcOf(t) != Idle && !Blocked(s, t)
    ensures Enabled(s, a) && IsProgress(a) && ThreadOf(a) == t
  {
    a := Advance(t, "");
    if NeedsChoice(s, t) {
      HasChoice(s, t);
      var choice :| choice in s.LeadsOf(t);
      a := Advance(t, choice);
    }
  }

  // The leader of an attached group can always go on: with its handler, or with the response.
  lemma LeaderMoves(s: State, g: GroupId) returns (a: Action)
    requires Inv(s) && g in s.groups && Attached(s, g)
    ensures Enabled(s, a) && IsProgress(a) && ThreadOf(a) == s.groups[g].leader
  {
    var t := s.groups[g].leader;
    AttachedLeaderRuns(s, g);
    assert GroupOk(s, g);
    if s.PcOf(t) != Idle {
      a := HandlerMoves(s, t);
    } else if s.groups[g].response == None {
      a := FirstHeaders(t, g, true);
    } else {
      a := ResponseEnd(t, g);
    }
  }

  // Whoever a blocked thread waits for is not blocked itself and has a step to make,
  // so no chain of waiting threads is longer than one.
  lemma DeadlockFreedom(s: State, t: Thread) returns (a: Action)
    requires Reachable(s) && Blocked(s, t)
    ensures WaitsFor(s, t) in s.groups
    ensures var leader := s.groups[WaitsFor(s, t)].leader;
            leader != t && !Blocked(s, leader) && ThreadOf(a) == leader && Enabled(s, a) && IsProgress(a)
  {
    ReachableOk(s);
    BlockedOnAttached(s, t);
    AttachedLeaderRuns(s, WaitsFor(s, t));
    a := LeaderMoves(s, WaitsFor(s, t));
  }

  /* ---------- every request in exactly one place ---------- */

  predicate InListOf(s: State, r: Req, g: GroupId) {
    g in s.groups && r in s.groups[g].waiting
  }

  predicate DeferredAt(s: State, r: Req, g: GroupId) {
    g in s.groups && exists i :: 0 <= i < |s.groups[g].others| && s.groups[g].others[i].req == r
  }

  // The first request of a group, whose origin request is in flight.
  predicate Leading(s: State, r: Req) {
    r in s.groups && s.groups[r].entry == Writing
  }

  predicate InLog(s: State, r: Req) {
    exists i :: 0 <= i < |s.served| && s.served[i].req == r
  }

  // Where a request is in the lists, the handlers and the log is told by its one stage;
  // so it is in exactly one place, on one thread or in one group.
  ghost predicate PlaceTells(s: State, r: Req) {
    && r in s.requests
    && var request := s.requests[r];
    && (forall t :: Carries(s.PcOf(t), r) <==> request.stage == Handling && t == request.thread)
    && (forall g :: InListOf(s, r, g) <==> request.stage == InWaiting && g == request.group)
    && (forall g :: DeferredAt(s, r, g) <==> request.stage == Deferred(g))
    && (Leading(s, r) <==> request.stage == AtOrigin)
    && (InLog(s, r) <==> request.stage.Served?)
  }

  lemma CarriedTells(s: State, r: Req, t: Thread)
    requires Inv(s) && r in s.requests
    ensures Carries(s.PcOf(t), r) <==> s.requests[r].stage == Handling && t == s.requests[r].thread
  {
    assert ThreadOk(s, t) && RequestOk(s, r);
    CarriedIsHandled(s, r, t);
  }

  lemma CarriedIsHandled(s: State, r: Req, t: Thread)
    requires ThreadOk(s, t) && RequestOk(s, r)
    ensures Carries(s.PcOf(t), r) <==> s.requests[r].stage == Handling && t == s.requests[r].thread
  {
  }

  lemma WaitingTells(s: State, r: Req, g: GroupId)
    requires Inv(s) && r in s.requests
    ensures InListOf(s, r, g) <==> s.requests[r].stage == InWaiting && g == s.requests[r].group
  {
    assert RequestOk(s, r);
    if InListOf(s, r, g) {
      var i :| 0 <= i < |s.groups[g].waiting| && s.groups[g].waiting[i] == r;
      assert GroupOk(s, g);
    }
  }

  lemma DeferredTells(s: State, r: Req, g: GroupId)
    requires Inv(s) && r in s.requests
    ensures DeferredAt(s, r, g) <==> s.requests[r].stage == Deferred(g)
  {
    assert RequestOk(s, r);
    if DeferredAt(s, r, g) {
      var i :| 0 <= i < |s.groups[g].others| && s.groups[g].others[i].req == r;
      assert GroupOk(s, g) && OtherOk(s, g, s.groups[g].others[i]);
    }
    if s.requests[r].stage == Deferred(g) {
      var i :| 0 <= i < |s.groups[g].others| && s.groups[g].others[i] == Other(r, s.requests[r].group);
    }
  }

  lemma LogTells(s: State, r: Req)
    requires Inv(s) && r in s.requests
    ensures InLog(s, r) <==> s.requests[r].stage.Served?
  {
    assert RequestOk(s, r);
    if InLog(s, r) {
      var i :| 0 <= i < |s.served| && s.served[i].req == r;
      assert ServiceOk(s, i);
    }
    if s.requests[r].stage.Served? {
      var i :| 0 <= i < |s.served| && s.served[i] == Service(r, s.requests[r].stage.entry);
    }
  }

  lemma LeadingTells(s: State, r: Req)
    requires Inv(s) && r in s.requests
    ensures Leading(s, r) <==> s.requests[r].stage == AtOrigin
  {
    assert RequestOk(s, r);
    if r in s.groups {
      assert GroupOk(s, r);
    }
  }

  lemma ExactlyOnePlace(s: State, r: Req)
    requires Reachable(s) && r in s.requests
    ensures PlaceTells(s, r)
  {
    ReachableOk(s);
    forall t ensures Carries(s.PcOf(t), r) <==> s.requests[r].stage == Handling && t == s.requests[r].thread {
      CarriedTells(s, r, t);
    }
    forall g ensures InListOf(s, r, g) <==> s.requests[r].stage == InWaiting && g == s.requests[r].group {
      WaitingTells(s, r, g);
    }
    forall g ensures DeferredAt(s, r, g) <==> s.requests[r].stage == Deferred(g) {
      DeferredTells(s, r, g);
    }
    LeadingTells(s, r);
    LogTells(s, r);
  }

  // Nor is it twice in that place.
  lemma NoDuplicates(s: State)
    requires Reachable(s)
    ensures forall g :: g in s.groups ==> Distinct(s.groups[g].waiting) && DistinctReqs(s.groups[g].others)
    ensures forall i, j :: 0 <= i < j < |s.served| ==> s.served[i].req != s.served[j].req
  {
    ReachableOk(s);
    forall g | g in s.groups ensures Distinct(s.groups[g].waiting) && DistinctReqs(s.groups[g].others) {
      assert GroupOk(s, g);
    }
  }

  // Every service is from the response of the request's own group, a finished entry for the request's key.
  lemma ServedFromOwnGroup(s: State, i: nat)
    requires Reachable(s) && i < |s.served|
    ensures var r, e := s.served[i].req, s.served[i].entry;
            && r in s.requests && s.requests[r].group in s.groups && e in s.groups
            && s.Home(r).response == Some(e) && s.groups[e].entry == Complete && s.groups[e].key == s.requests[r].key
  {
    ReachableOk(s);
    assert ServiceOk(s, i);
    var r := s.served[i].req;
    assert RequestOk(s, r);
    assert GroupOk(s, s.requests[r].group);
  }

  /* ---------- the cache and the groups ---------- */

  // A cached entry that is not finished belongs to the group attached under its key.
  lemma CacheAgrees(s: State, slot: Slot<GroupId>)
    requires Reachable(s) && slot in s.cache
    ensures slot.value in s.groups && s.groups[slot.value].key == slot.key
    ensures s.groups[slot.value].entry != Complete ==> slot.key in s.attached && s.attached[slot.key] == slot.value
  {
    ReachableOk(s);
    assert SlotOk(s, slot);
    assert GroupOk(s, slot.value);
  }

  // At most one origin request is in flight for a key.
  lemma SingleFlight(s: State, g: GroupId, h: GroupId)
    requires Reachable(s) && g in s.groups && h in s.groups && s.groups[g].key == s.groups[h].key
    requires s.groups[g].entry == Writing && s.groups[h].entry == Writing
    ensures g == h
  {
    ReachableOk(s);
    assert GroupOk(s, g) && GroupOk(s, h);
  }

  /* ---------- the leader table ---------- */

  // Between handlers a thread is in the table exactly when it leads an attached group, and
  // the table lists exactly the attached groups it leads.
  lemma LeaderTable(s: State, t: Thread)
    requires Reachable(s) && s.PcOf(t) == Idle
    ensures t in s.leads <==> exists g :: Leads(s, t, g) && Attached(s, g)
    ensures forall g :: Leads(s, t, g) ==> (Registered(s, g) <==> Attached(s, g))
  {
    ReachableOk(s);
    assert ThreadOk(s, t);
    forall g | Leads(s, t, g) ensures Registered(s, g) <==> Attached(s, g) {
      assert GroupOk(s, g);
    }
    if t in s.leads {
      var key :| key in s.leads[t];
      assert LedOk(s, t, key);
      assert Leads(s, t, s.leads[t][key]) && Registered(s, s.leads[t][key]);
    }
  }

  lemma ListedGroup(s: State, t: Thread, key: Key, g: GroupId)
    requires LedOk(s, t, key) && key in s.LeadsOf(t) && g == s.LeadsOf(t)[key]
    ensures Leads(s, t, g) && Registered(s, g)
  {
  }

  lemma RegisteredIsAttached(s: State, t: Thread, g: GroupId)
    requires GroupOk(s, g) && Leads(s, t, g) && Registered(s, g) && NeedsChoice(s, t)
    ensures Attached(s, g)
  {
  }

  lemma ListedIsAttached(s: State, t: Thread, key: Key)
    requires Inv(s) && NeedsChoice(s, t) && key in s.LeadsOf(t)
    ensures Leads(s, t, s.LeadsOf(t)[key]) && Attached(s, s.LeadsOf(t)[key])
  {
    var g := s.LeadsOf(t)[key];
    ListedGroup(s, t, key, g);
    RegisteredIsAttached(s, t, g);
  }

  // Wherever the first group of the table is used, there is one; and it is attached.
  lemma BeginHasAnElement(s: State, t: Thread)
    requires Reachable(s) && NeedsChoice(s, t)
    ensures s.LeadsOf(t) != map[]
    ensures forall key :: key in s.LeadsOf(t) ==> Leads(s, t, s.LeadsOf(t)[key]) && Attached(s, s.LeadsOf(t)[key])
  {
    ReachableOk(s);
    forall key | key in s.LeadsOf(t) ensures Leads(s, t, s.LeadsOf(t)[key]) && Attached(s, s.LeadsOf(t)[key]) {
      ListedIsAttached(s, t, key);
    }
    assert ThreadOk(s, t);
  }

  // A group whose leader had a cache hit has nobody in its lists, so the entry that was
  // never made is never served.
  lemma HitPathListsAreEmpty(s: State, g: GroupId)
    requires Reachable(s) && g in s.groups && s.groups[g].entry == NoEntry
    ensures s.groups[g].waiting == [] && s.groups[g].others == []
  {
    ReachableOk(s);
    assert GroupOk(s, g);
  }

  // When a leader serves its group's list, its own producer's entry is finished.
  lemma ListIsServedFinished(s: State, t: Thread, g: GroupId)
    requires Reachable(s) && s.PcOf(t) == ServeGroup(g) && s.GroupOf(g).waiting != []
    ensures s.GroupOf(g).entry == Complete && s.GroupOf(g).response == Some(g)
  {
    ReachableOk(s);
    assert ThreadOk(s, t) && GroupOk(s, g);
  }

  /* ---------- what one step can change ---------- */

  // The steps before a group is closed.
  predicate Serving(p: Pc) {
    p.InsertEntry? || p.Notify? || p.ServeGroup?
  }

  predicate Starting(p: Pc) {
    p.Register? || p.QueryCache? || p.HitNotify? || p.HitServe?
  }

  // The step leaves the map of attached groups as it is, and the cache unless it queries or inserts.
  ghost predicate KeepsTables(s: State, t: Thread, choice: Key) {
    var s' := AdvanceStep(s, t, choice);
    && s'.attached == s.attached && s'.capacity == s.capacity
    && (s.PcOf(t).QueryCache? || s.PcOf(t).InsertEntry? || s'.cache == s.cache)
    && !s'.PcOf(t).InsertEntry?
  }

  lemma StartingKeepsTables(s: State, t: Thread, choice: Key)
    requires Starting(s.PcOf(t))
    ensures KeepsTables(s, t, choice)
  {
  }

  lemma ServingKeepsTables(s: State, t: Thread, choice: Key)
    requires Serving(s.PcOf(t))
    ensures KeepsTables(s, t, choice)
  {
  }

  lemma ClassifyingKeepsTables(s: State, t: Thread, choice: Key)
    requires s.PcOf(t).Classify? || s.PcOf(t).TestLeads?
    ensures KeepsTables(s, t, choice)
  {
  }

  lemma WaitingKeepsTables(s: State, t: Thread, choice: Key)
    requires s.PcOf(t).WaitOnCv? || s.PcOf(t).CvPassed? || s.PcOf(t).Serve?
    ensures KeepsTables(s, t, choice)
  {
  }

  lemma EndingKeepsTables(s: State, t: Thread, choice: Key)
    requires s.PcOf(t).Leave? || s.PcOf(t).HandOver? || s.PcOf(t).Attend? || s.PcOf(t).Release? || s.PcOf(t).Idle?
    ensures KeepsTables(s, t, choice)
  {
  }

  lemma AdvanceKeepsTables(s: State, t: Thread, choice: Key)
    ensures s.PcOf(t).Detach? || KeepsTables(s, t, choice)
  {
    var p := s.PcOf(t);
    if Starting(p) {
      StartingKeepsTables(s, t, choice);
    } else if Serving(p) {
      ServingKeepsTables(s, t, choice);
    } else if p.Classify? || p.TestLeads? {
      ClassifyingKeepsTables(s, t, choice);
    } else if HasRequest(p) {
      WaitingKeepsTables(s, t, choice);
    } else if !p.Detach? {
      EndingKeepsTables(s, t, choice);
    }
  }

  // The only steps that touch the map of attached groups.
  lemma AttachedChanges(s: State, a: Action)
    requires Enabled(s, a)
    ensures || Next(s, a).attached == s.attached
            || (a.Arrive? && a.key !in s.attached && Next(s, a).attached == s.attached[a.key := a.req])
            || (a.Advance? && s.PcOf(a.thread).Detach?
                && Next(s, a).attached == s.attached - {s.GroupOf(s.PcOf(a.thread).group).key})
  {
    if a.Advance? {
      AdvanceKeepsTables(s, a.thread, a.choice);
    }
  }

  // A group's response is set at most once.
  lemma ResponseIsFinal(s: State, a: Action, g: GroupId)
    requires Reachable(s) && Enabled(s, a) && g in s.groups && s.groups[g].response.Some?
    ensures g in Next(s, a).groups && Next(s, a).groups[g].response == s.groups[g].response
  {
    ReachableOk(s);
    StepKeeps(s, a);
  }

  // Only its leader touches a group or takes it off the map; once off, it never comes back.
  lemma OnlyTheLeaderActs(s: State, a: Action, g: GroupId)
    requires Reachable(s) && Enabled(s, a) && g in s.groups && ThreadOf(a) != s.groups[g].leader
    ensures g in Next(s, a).groups && Next(s, a).groups[g] == s.groups[g]
    ensures Attached(Next(s, a), g) <==> Attached(s, g)
  {
    ReachableOk(s);
    StepKeeps(s, a);
  }

  lemma DetachedForGood(s: State, a: Action, g: GroupId)
    requires Reachable(s) && Enabled(s, a) && g in s.groups && !Attached(s, g)
    ensures g in Next(s, a).groups && !Attached(Next(s, a), g)
  {
    ReachableOk(s);
    StepKeeps(s, a);
    AttachedChanges(s, a);
    assert GroupOk(s, g);
  }

  lemma DetachedByItsLeader(s: State, a: Action, g: GroupId)
    requires Reachable(s) && Enabled(s, a) && g in s.groups && Attached(s, g) && !Attached(Next(s, a), g)
    ensures a.Advance? && a.thread == s.groups[g].leader && s.PcOf(a.thread) == Detach(g)
    ensures s.groups[g].response.Some?
  {
    ReachableOk(s);
    StepKeeps(s, a);
    AttachedChanges(s, a);
    assert ThreadOk(s, ThreadOf(a)) && GroupOk(s, g);
    if a.Advance? && s.PcOf(a.thread).Detach? {
      assert GroupOk(s, s.PcOf(a.thread).group);
    }
  }

  /* ---------- runs that come to rest ---------- */

  ghost predicate Quiescent(s: State) {
    forall a :: Enabled(s, a) ==> !IsProgress(a)
  }

  predicate Settled(s: State, r: Req) {
    r in s.requests && (s.requests[r].stage.Served? || s.requests[r].stage == TimedOut)
  }

  // At rest every thread is idle: nothing is left but to take in new requests.
  lemma QuietThread(s: State, t: Thread)
    requires Inv(s) && Quiescent(s)
    ensures s.PcOf(t) == Idle
  {
    if s.PcOf(t) != Idle {
      var a: Action;
      if Blocked(s, t) {
        BlockedOnAttached(s, t);
        a := LeaderMoves(s, WaitsFor(s, t));
      } else {
        a := HandlerMoves(s, t);
      }
    }
  }

  lemma QuietGroup(s: State, g: GroupId)
    requires Inv(s) && Quiescent(s) && g in s.groups
    ensures s.groups[g].waiting == [] && s.groups[g].others == [] && s.groups[g].entry != Writing
  {
    QuietThread(s, s.groups[g].leader);
    assert GroupOk(s, g);
    if Attached(s, g) {
      var a := LeaderMoves(s, g);
    }
  }

  lemma NobodyHandles(s: State, r: Req)
    requires Inv(s) && r in s.requests && s.PcOf(s.requests[r].thread) == Idle
    ensures s.requests[r].stage != Handling
  {
    assert RequestOk(s, r);
  }

  lemma NobodyLists(s: State, r: Req, g: GroupId)
    requires Inv(s) && r in s.requests && (g in s.groups ==> s.groups[g].waiting == [] && s.groups[g].others == [])
    ensures s.requests[r].stage == InWaiting ==> g != s.requests[r].group
    ensures s.requests[r].stage != Deferred(g)
  {
    WaitingTells(s, r, g);
    DeferredTells(s, r, g);
  }

  // A run that can make no more progress has settled every request.
  lemma EverythingSettles(s: State, r: Req)
    requires Reachable(s) && Quiescent(s) && r in s.requests
    ensures Settled(s, r)
  {
    ReachableOk(s);
    QuietThread(s, s.requests[r].thread);
    NobodyHandles(s, r);
    forall g
      ensures g in s.groups ==> s.groups[g].waiting == [] && s.groups[g].others == [] && s.groups[g].entry != Writing
    {
      if g in s.groups {
        QuietGroup(s, g);
      }
    }
    NobodyLists(s, r, s.requests[r].group);
    if s.requests[r].stage.Deferred? {
      NobodyLists(s, r, s.requests[r].stage.host);
    }
    LeadingTells(s, r);
  }

  /* ---------- the cache is an LRU cache ---------- */

  // What a step asks of the cache.
  function CacheOp(s: State, a: Action): seq<Op<GroupId>> {
    if !a.Advance? then [] else
    match s.PcOf(a.thread)
    case QueryCache(r) => [Lookup(s.GroupOf(r).key)]
    case InsertEntry(g) => [Store(s.GroupOf(g).key, g)]
    case _ => []
  }

  function CacheOps(s: State, actions: seq<Action>): seq<Op<GroupId>> {
    if actions == [] then [] else
    var front := actions[..|actions| - 1];
    CacheOps(s, front) + CacheOp(After(s, front), actions[|actions| - 1])
  }

  lemma CacheStep(s: State, a: Action)
    requires Enabled(s, a)
    ensures Next(s, a).capacity == s.capacity
    ensures Next(s, a).cache ==
            if CacheOp(s, a) == [] then s.cache else Apply(s.capacity, s.cache, CacheOp(s, a)[0])
  {
    if a.Advance? {
      AdvanceKeepsTables(s, a.thread, a.choice);
    }
  }

  // So whatever holds of every trace of the LRU cache holds of the cache in every run.
  lemma {:induction false} CacheFollowsLru(s0: State, actions: seq<Action>)
    requires Initial(s0) && Feasible(s0, actions)
    ensures After(s0, actions).capacity == s0.capacity
    ensures After(s0, actions).cache == Run(s0.capacity, CacheOps(s0, actions))
  {
    if actions != [] {
      var front, a := actions[..|actions| - 1], actions[|actions| - 1];
      CacheFollowsLru(s0, front);
      CacheStep(After(s0, front), a);
      OneMoreOp(s0.capacity, CacheOps(s0, front), CacheOp(After(s0, front), a));
    }
  }

  lemma OneMoreOp(capacity: nat, ops: seq<Op<GroupId>>, more: seq<Op<GroupId>>)
    requires |more| <= 1
    ensures Run(capacity, ops + more) ==
            if more == [] then Run(capacity, ops) else Apply(capacity, Run(capacity, ops), more[0])
  {
    if more == [] {
      assert ops + more == ops;
    } else {
      assert (ops + more)[..|ops|] == ops;
    }
  }
}
