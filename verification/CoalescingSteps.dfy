/** Every step of every handler keeps the invariant. */
module CoalescingSteps {
  import opened LruSpec
  import opened Coalescing
  import opened CoalescingInvariant
  import opened CoalescingFrame

  // A request that coalesced into a group of somebody else created none itself.
  lemma CreatedNoGroup(s: State, r: Req)
    requires Inv(s) && r in s.requests && s.requests[r].group != r
    ensures r !in s.groups
  {
  }

  lemma AwaitsOthers(s: State, t: Thread, r: Req)
    requires Inv(s) && Awaits(s, t, r)
    ensures r !in s.groups
  {
  }

  lemma CacheOfThread(s: State, cache: seq<Slot<GroupId>>, t: Thread)
    requires ThreadOk(s, t)
    ensures ThreadOk(s.(cache := cache), t)
  {
  }

  lemma CacheOfGroup(s: State, cache: seq<Slot<GroupId>>, g: GroupId)
    requires GroupOk(s, g)
    ensures GroupOk(s.(cache := cache), g)
  {
    forall i | 0 <= i < |s.GroupOf(g).others| ensures OtherOk(s.(cache := cache), g, s.GroupOf(g).others[i]) {
      assert OtherOk(s, g, s.GroupOf(g).others[i]);
    }
  }

  lemma CacheOfTables(s: State, cache: seq<Slot<GroupId>>)
    requires TablesOk(s) && forall slot :: slot in cache ==> SlotOk(s, slot)
    ensures TablesOk(s.(cache := cache))
  {
    var s' := s.(cache := cache);
    forall key ensures AttachedOk(s', key) {
      assert AttachedOk(s, key);
    }
    forall t, key ensures LedOk(s', t, key) {
      assert LedOk(s, t, key);
    }
    forall slot | slot in cache ensures SlotOk(s', slot) {
      assert SlotOk(s, slot);
    }
  }

  lemma CacheOfRequest(s: State, cache: seq<Slot<GroupId>>, r: Req)
    requires RequestOk(s, r)
    ensures RequestOk(s.(cache := cache), r)
  {
  }

  lemma CacheIsLocal(s: State, s': State, cache: seq<Slot<GroupId>>, t: Thread)
    requires Local(s, s', t)
    ensures Local(s, s'.(cache := cache), t)
  {
  }

  lemma CacheKeeps(s: State, cache: seq<Slot<GroupId>>)
    requires Inv(s) && forall slot :: slot in cache ==> SlotOk(s, slot)
    ensures Inv(s.(cache := cache))
  {
    forall g | g in s.groups ensures GroupOk(s.(cache := cache), g) {
      CacheOfGroup(s, cache, g);
    }
    forall t ensures ThreadOk(s.(cache := cache), t) {
      CacheOfThread(s, cache, t);
    }
    forall r | r in s.requests ensures RequestOk(s.(cache := cache), r) {
      CacheOfRequest(s, cache, r);
    }
    CacheOfTables(s, cache);
    LogKept(s, s.(cache := cache));
  }

  /* ---------- the cache ---------- */

  // A cache hit of the leader of a new group is a finished entry: an unfinished one
  // would belong to the group attached under the key, which has no entry yet.
  lemma HitIsFinished(s: State, t: Thread, r: Req, e: GroupId)
    requires Inv(s) && s.PcOf(t) == QueryCache(r) && Find(s.cache, s.GroupOf(r).key) == Some(e)
    ensures Finished(s, r, e)
  {
    FindIff(s.cache, s.GroupOf(r).key);
    assert ThreadOk(s, t) && SlotOk(s, Slot(s.GroupOf(r).key, e));
    assert LifeOk(s, r) && LifeOk(s, e) by {
      assert GroupOk(s, r) && GroupOk(s, e);
    }
  }

  lemma {:induction false} WithoutKeepsSlots(l: seq<Slot<GroupId>>, key: Key, slot: Slot<GroupId>)
    requires slot in Without(l, key)
    ensures slot in l
  {
    if l[0].key == key || slot != l[0] {
      WithoutKeepsSlots(l[1..], key, slot);
    }
  }

  lemma AtKeepsSlots(l: seq<Slot<GroupId>>, key: Key)
    ensures forall slot :: slot in At(l, key) ==> slot in l
  {
    FindIff(l, key);
    forall slot | slot in Without(l, key) ensures slot in l {
      WithoutKeepsSlots(l, key, slot);
    }
  }

  lemma InsertKeepsSlots(capacity: nat, l: seq<Slot<GroupId>>, key: Key, g: GroupId)
    ensures forall slot :: slot in Insert(capacity, l, key, g) ==> slot == Slot(key, g) || slot in l
  {
    forall slot | slot in Without(l, key) ensures slot in l {
      WithoutKeepsSlots(l, key, slot);
    }
  }

  lemma HitMovesOn(s: State, t: Thread, r: Req, e: GroupId)
    requires ThreadOk(s, t) && s.PcOf(t) == QueryCache(r) && Finished(s, r, e)
    ensures MovesOn(s, t, HitNotify(r, e))
  {
  }

  lemma HitKeeps(s: State, t: Thread, r: Req, e: GroupId)
    requires Inv(s) && s.PcOf(t) == QueryCache(r) && Find(s.cache, s.GroupOf(r).key) == Some(e)
    ensures Inv(QueryCacheStep(s, t, r)) && Local(s, QueryCacheStep(s, t, r), t)
  {
    var s', key := s.Goto(t, HitNotify(r, e)), s.GroupOf(r).key;
    HitIsFinished(s, t, r, e);
    HitMovesOn(s, t, r, e);
    GotoKeeps(s, t, HitNotify(r, e));
    AtKeepsSlots(s.cache, key);
    forall slot | slot in At(s.cache, key) ensures SlotOk(s', slot) {
      assert SlotOk(s, slot);
    }
    CacheKeeps(s', At(s.cache, key));
    CacheIsLocal(s, s', At(s.cache, key), t);
  }

  lemma MissGroup(s: State, s': State, t: Thread, r: Req)
    requires GroupOk(s, r) && ThreadOk(s, t) && s.PcOf(t) == QueryCache(r) && ServedOnce(s)
    requires s' == s.WithGroup(r, s.GroupOf(r).(entry := Writing)).WithStage(r, AtOrigin).Goto(t, Idle)
    ensures GroupOk(s', r) && Change(s, s', t, r, r) && ThreadOk(s', t) && RequestOk(s', r) && ServedOnce(s')
  {
    LogKept(s, s');
  }

  lemma MissKeeps(s: State, t: Thread, r: Req)
    requires Inv(s) && s.PcOf(t) == QueryCache(r) && Find(s.cache, s.GroupOf(r).key) == None
    ensures Inv(QueryCacheStep(s, t, r)) && Local(s, QueryCacheStep(s, t, r), t)
  {
    var s' := s.WithGroup(r, s.GroupOf(r).(entry := Writing)).WithStage(r, AtOrigin).Goto(t, Idle);
    assert ThreadOk(s, t) && GroupOk(s, r);
    MissGroup(s, s', t, r);
    ChangeKeeps(s, s', t, r, r);
  }

  lemma InsertMovesOn(s: State, t: Thread, g: GroupId)
    requires ThreadOk(s, t) && s.PcOf(t) == InsertEntry(g)
    ensures MovesOn(s, t, Notify(g))
  {
  }

  lemma InsertKeeps(s: State, t: Thread, g: GroupId)
    requires Inv(s) && s.PcOf(t) == InsertEntry(g)
    ensures Inv(InsertStep(s, t, g)) && Local(s, InsertStep(s, t, g), t)
  {
    var s', key := s.Goto(t, Notify(g)), s.GroupOf(g).key;
    assert ThreadOk(s, t);
    InsertMovesOn(s, t, g);
    GotoKeeps(s, t, Notify(g));
    InsertKeepsSlots(s.capacity, s.cache, key, g);
    forall slot | slot in Insert(s.capacity, s.cache, key, g) ensures SlotOk(s', slot) {
      assert slot == Slot(key, g) || SlotOk(s, slot);
    }
    CacheKeeps(s', Insert(s.capacity, s.cache, key, g));
    CacheIsLocal(s, s', Insert(s.capacity, s.cache, key, g), t);
  }

  /* ---------- responses ---------- */

  lemma HitNotifyGroup(s: State, s': State, t: Thread, r: Req, e: GroupId)
    requires GroupOk(s, r) && Untouched(s, t, r) && s.PcOf(t) == HitNotify(r, e) && s.groups[r].response == None
    requires Finished(s, r, e) && s' == NotifyStep(s, t, r, e, HitServe(r, e))
    requires ThreadOk(s, t) && RequestOk(s, r) && ServedOnce(s)
    ensures GroupOk(s', r) && Change(s, s', t, r, r) && ThreadOk(s', t) && RequestOk(s', r) && ServedOnce(s')
  {
    LogKept(s, s');
  }

  lemma HitNotifyKeeps(s: State, t: Thread, r: Req, e: GroupId)
    requires Inv(s) && s.PcOf(t) == HitNotify(r, e)
    ensures Inv(NotifyStep(s, t, r, e, HitServe(r, e))) && Local(s, NotifyStep(s, t, r, e, HitServe(r, e)), t)
  {
    var s' := NotifyStep(s, t, r, e, HitServe(r, e));
    assert ThreadOk(s, t) && GroupOk(s, r) && RequestOk(s, r);
    HitNotifyGroup(s, s', t, r, e);
    ChangeKeeps(s, s', t, r, r);
  }

  lemma NotifyGroup(s: State, s': State, t: Thread, g: GroupId)
    requires GroupOk(s, g) && Leads(s, t, g) && s.PcOf(t) == Notify(g)
    requires s.groups[g].entry == Writing && s.groups[g].response == None && s' == NotifyStep(s, t, g, g, Idle)
    requires ThreadOk(s, t) && RequestOk(s, g) && ServedOnce(s)
    ensures GroupOk(s', g) && Change(s, s', t, g, g) && ThreadOk(s', t) && RequestOk(s', g) && ServedOnce(s')
  {
    LogKept(s, s');
    forall i | 0 <= i < |s.groups[g].others| ensures OtherOk(s', g, s.groups[g].others[i]) {
      assert OtherOk(s, g, s.groups[g].others[i]);
    }
  }

  lemma NotifyKeeps(s: State, t: Thread, g: GroupId)
    requires Inv(s) && s.PcOf(t) == Notify(g)
    ensures Inv(NotifyStep(s, t, g, g, Idle)) && Local(s, NotifyStep(s, t, g, g, Idle), t)
  {
    var s' := NotifyStep(s, t, g, g, Idle);
    assert ThreadOk(s, t) && GroupOk(s, g) && RequestOk(s, g);
    NotifyGroup(s, s', t, g);
    ChangeKeeps(s, s', t, g, g);
  }

  lemma ResponseEndGroup(s: State, s': State, t: Thread, g: GroupId)
    requires GroupOk(s, g) && s.PcOf(t) == Idle && InFlight(s, t, g) && s.groups[g].response == Some(g)
    requires s' == ResponseEndStep(s, t, g)
    ensures GroupOk(s', g)
  {
    forall i | 0 <= i < |s.groups[g].others| ensures OtherOk(s', g, s.groups[g].others[i]) {
      assert OtherOk(s, g, s.groups[g].others[i]);
    }
  }

  lemma ResponseEndChange(s: State, s': State, t: Thread, g: GroupId)
    requires GroupOk(s, g) && s.PcOf(t) == Idle && InFlight(s, t, g) && s.groups[g].response == Some(g)
    requires LeadsSome(s, t) && ServedOnce(s) && s' == ResponseEndStep(s, t, g)
    ensures Change(s, s', t, g, g) && ThreadOk(s', t) && RequestOk(s', g) && ServedOnce(s')
  {
    LogExtended(s, s', g, g);
  }

  lemma ResponseEndKeeps(s: State, t: Thread, g: GroupId)
    requires Inv(s) && Enabled(s, ResponseEnd(t, g))
    ensures Inv(ResponseEndStep(s, t, g)) && Local(s, ResponseEndStep(s, t, g), t)
  {
    var s' := ResponseEndStep(s, t, g);
    assert ThreadOk(s, t) && GroupOk(s, g);
    ResponseEndGroup(s, s', t, g);
    ResponseEndChange(s, s', t, g);
    ChangeKeeps(s, s', t, g, g);
  }

  lemma HitServeGroup(s: State, s': State, t: Thread, r: Req, e: GroupId)
    requires GroupOk(s, r) && ThreadOk(s, t) && s.PcOf(t) == HitServe(r, e)
    requires ServedOnce(s) && s' == s.Serving(r, e).Goto(t, Detach(r))
    ensures GroupOk(s', r) && Change(s, s', t, r, r) && ThreadOk(s', t) && RequestOk(s', r) && ServedOnce(s')
  {
    LogExtended(s, s', r, e);
  }

  lemma HitServeKeeps(s: State, t: Thread, r: Req, e: GroupId)
    requires Inv(s) && s.PcOf(t) == HitServe(r, e)
    ensures Inv(s.Serving(r, e).Goto(t, Detach(r))) && Local(s, s.Serving(r, e).Goto(t, Detach(r)), t)
  {
    var s' := s.Serving(r, e).Goto(t, Detach(r));
    assert ThreadOk(s, t) && GroupOk(s, r);
    HitServeGroup(s, s', t, r, e);
    ChangeKeeps(s, s', t, r, r);
  }

  /* ---------- classification ---------- */

  lemma AppendedGroup(s: State, s': State, t: Thread, g: GroupId, r: Req)
    requires GroupOk(s, g) && ThreadOk(s, t) && Leads(s, t, g) && s.PcOf(t) == Classify(r)
    requires s.RequestOf(r).group == g && r !in s.groups && s' == ClassifyStep(s, t, r)
    ensures GroupOk(s', g) && Change(s, s', t, g, r) && ThreadOk(s', t) && RequestOk(s', r)
  {
    assert r !in s.groups[g].waiting;
    forall i | 0 <= i < |s.groups[g].others| ensures OtherOk(s', g, s.groups[g].others[i]) {
      assert OtherOk(s, g, s.groups[g].others[i]);
    }
  }

  // The leader's later request for the key joins the list of its group.
  lemma ClassifyKeeps(s: State, t: Thread, r: Req)
    requires Inv(s) && s.PcOf(t) == Classify(r)
    ensures Inv(ClassifyStep(s, t, r)) && Local(s, ClassifyStep(s, t, r), t)
  {
    if s.Home(r).leader == t {
      OwnGroupKeeps(s, t, r);
    } else {
      ClassifiedMovesOn(s, t, r);
      GotoKeeps(s, t, TestLeads(r));
    }
  }

  lemma OwnGroupKeeps(s: State, t: Thread, r: Req)
    requires Inv(s) && s.PcOf(t) == Classify(r) && s.Home(r).leader == t
    ensures Inv(ClassifyStep(s, t, r)) && Local(s, ClassifyStep(s, t, r), t)
  {
    var s', g := ClassifyStep(s, t, r), s.RequestOf(r).group;
    assert ThreadOk(s, t) && GroupOk(s, g);
    CreatedNoGroup(s, r);
    AppendedGroup(s, s', t, g, r);
    LogKept(s, s');
    ChangeKeeps(s, s', t, g, r);
  }

  lemma ClassifiedMovesOn(s: State, t: Thread, r: Req)
    requires ThreadOk(s, t) && s.PcOf(t) == Classify(r) && s.Home(r).leader != t
    ensures MovesOn(s, t, TestLeads(r))
  {
  }

  // The group that the thread's table lists under a key, while the thread is classifying.
  lemma LedGroup(s: State, t: Thread, key: Key)
    requires LedOk(s, t, key) && t in s.leads && key in s.leads[t]
    ensures Leads(s, t, s.leads[t][key]) && Registered(s, s.leads[t][key])
  {
  }

  lemma HostIsWriting(s: State, t: Thread, r: Req, h: GroupId)
    requires GroupOk(s, h) && Leads(s, t, h) && Registered(s, h) && s.PcOf(t) == TestLeads(r)
    ensures s.groups[h].entry == Writing
  {
  }

  lemma DeferringHost(s: State, t: Thread, r: Req, choice: Key)
    requires Inv(s) && s.PcOf(t) == TestLeads(r) && t in s.leads && choice in s.leads[t]
    ensures var h := s.leads[t][choice];
            Leads(s, t, h) && GroupOk(s, h) && Registered(s, h) && s.groups[h].entry == Writing
  {
    LedGroup(s, t, choice);
    HostIsWriting(s, t, r, s.leads[t][choice]);
  }

  lemma DeferredGroup(s: State, s': State, t: Thread, h: GroupId, r: Req, choice: Key)
    requires GroupOk(s, h) && ThreadOk(s, t) && s.PcOf(t) == TestLeads(r) && t in s.leads && choice in s.leads[t]
    requires h == s.leads[t][choice] && Leads(s, t, h) && Registered(s, h) && s.groups[h].entry == Writing
    requires r !in s.groups && s' == TestLeadsStep(s, t, r, choice)
    ensures GroupOk(s', h) && Change(s, s', t, h, r) && ThreadOk(s', t) && RequestOk(s', r)
  {
    var others := s.groups[h].others;
    forall i | 0 <= i < |others| ensures OtherOk(s', h, others[i]) && others[i].req != r {
      assert OtherOk(s, h, others[i]);
    }
  }

  lemma TestLeadsKeeps(s: State, t: Thread, r: Req, choice: Key)
    requires Inv(s) && s.PcOf(t) == TestLeads(r) && (t in s.leads ==> choice in s.leads[t])
    ensures Inv(TestLeadsStep(s, t, r, choice)) && Local(s, TestLeadsStep(s, t, r, choice), t)
  {
    var s' := TestLeadsStep(s, t, r, choice);
    assert ThreadOk(s, t);
    if t in s.leads {
      DeferringHost(s, t, r, choice);
      AwaitsOthers(s, t, r);
      DeferredGroup(s, s', t, s.leads[t][choice], r, choice);
      LogKept(s, s');
      ChangeKeeps(s, s', t, s.leads[t][choice], r);
    } else {
      NonLeaderMovesOn(s, t, r);
      GotoKeeps(s, t, WaitOnCv(r, None));
    }
  }

  lemma NonLeaderMovesOn(s: State, t: Thread, r: Req)
    requires ThreadOk(s, t) && s.PcOf(t) == TestLeads(r) && t !in s.leads
    ensures MovesOn(s, t, WaitOnCv(r, None))
  {
  }

  /* ---------- waiting on the condition variable ---------- */

  lemma WakeMovesOn(s: State, t: Thread, r: Req, attending: Option<GroupId>)
    requires ThreadOk(s, t) && s.PcOf(t) == WaitOnCv(r, attending)
    ensures MovesOn(s, t, CvPassed(r, attending))
  {
  }

  // Whether notified or timed out.
  lemma WakeKeeps(s: State, t: Thread, r: Req, attending: Option<GroupId>)
    requires Inv(s) && s.PcOf(t) == WaitOnCv(r, attending)
    ensures Inv(s.Goto(t, CvPassed(r, attending))) && Local(s, s.Goto(t, CvPassed(r, attending)), t)
  {
    WakeMovesOn(s, t, r, attending);
    GotoKeeps(s, t, CvPassed(r, attending));
  }

  // What ends the wait for r, other than its stage, is no business of any group.
  lemma EndWait(s: State, s': State, t: Thread, r: Req, attending: Option<GroupId>, stage: Stage)
    requires ThreadOk(s, t) && Parked(s, t, attending) && Awaits(s, t, r) && r !in s.groups
    requires s.PcOf(t) == CvPassed(r, attending) || (exists e :: s.PcOf(t) == Serve(r, e, attending))
    requires s.served <= s'.served
    requires s' == s.WithStage(r, stage).(served := s'.served).Goto(t, Resume(attending))
    ensures Change(s, s', t, r, r) && ThreadOk(s', t)
  {
  }

  lemma TimedOutChange(s: State, s': State, t: Thread, r: Req, attending: Option<GroupId>)
    requires ThreadOk(s, t) && ServedOnce(s) && r !in s.groups
    requires s.PcOf(t) == CvPassed(r, attending) && s.Home(r).response == None
    requires s' == CvPassedStep(s, t, r, attending)
    ensures Change(s, s', t, r, r) && ThreadOk(s', t) && RequestOk(s', r) && ServedOnce(s') && s'.cache == s.cache
  {
    EndWait(s, s', t, r, attending, TimedOut);
    LogKept(s, s');
  }

  lemma TimedOutKeeps(s: State, t: Thread, r: Req, attending: Option<GroupId>)
    requires Inv(s) && s.PcOf(t) == CvPassed(r, attending) && s.Home(r).response == None
    ensures Inv(CvPassedStep(s, t, r, attending)) && Local(s, CvPassedStep(s, t, r, attending), t)
  {
    var s' := CvPassedStep(s, t, r, attending);
    assert ThreadOk(s, t);
    AwaitsOthers(s, t, r);
    TimedOutChange(s, s', t, r, attending);
    ChangeKeeps(s, s', t, r, r);
  }

  lemma AnsweredMovesOn(s: State, t: Thread, r: Req, e: GroupId, attending: Option<GroupId>)
    requires ThreadOk(s, t) && s.PcOf(t) == CvPassed(r, attending) && s.Home(r).response == Some(e)
    ensures MovesOn(s, t, Serve(r, e, attending))
  {
  }

  lemma CvPassedKeeps(s: State, t: Thread, r: Req, attending: Option<GroupId>)
    requires Inv(s) && s.PcOf(t) == CvPassed(r, attending)
    ensures Inv(CvPassedStep(s, t, r, attending)) && Local(s, CvPassedStep(s, t, r, attending), t)
  {
    match s.Home(r).response
    case None => TimedOutKeeps(s, t, r, attending);
    case Some(e) =>
      AnsweredMovesOn(s, t, r, e, attending);
      GotoKeeps(s, t, Serve(r, e, attending));
  }

  lemma ServedAwaiter(s: State, s': State, t: Thread, r: Req, e: GroupId, attending: Option<GroupId>)
    requires ThreadOk(s, t) && ServedOnce(s) && s.PcOf(t) == Serve(r, e, attending) && s.GroupOf(e).entry == Complete
    requires r !in s.groups && s' == s.Serving(r, e).Goto(t, Resume(attending))
    ensures Change(s, s', t, r, r) && ThreadOk(s', t) && RequestOk(s', r) && ServedOnce(s')
  {
    EndWait(s, s', t, r, attending, Served(e));
    LogExtended(s, s', r, e);
  }

  lemma AwaiterCreatedNoGroup(s: State, t: Thread, r: Req, e: GroupId, attending: Option<GroupId>)
    requires Inv(s) && s.PcOf(t) == Serve(r, e, attending)
    ensures ThreadOk(s, t) && r !in s.groups
  {
    assert ThreadOk(s, t);
    AwaitsOthers(s, t, r);
  }

  lemma ServeKeeps(s: State, t: Thread, r: Req, e: GroupId, attending: Option<GroupId>)
    requires Inv(s) && s.PcOf(t) == Serve(r, e, attending) && s.GroupOf(e).entry == Complete
    ensures Inv(s.Serving(r, e).Goto(t, Resume(attending))) && Local(s, s.Serving(r, e).Goto(t, Resume(attending)), t)
  {
    var s' := s.Serving(r, e).Goto(t, Resume(attending));
    AwaiterCreatedNoGroup(s, t, r, e, attending);
    ServedAwaiter(s, s', t, r, e, attending);
    ChangeKeeps(s, s', t, r, r);
  }

  /* ---------- the end of a group ---------- */

  lemma DetachedGroup(s: State, s': State, t: Thread, g: GroupId)
    requires GroupOk(s, g) && ThreadOk(s, t) && s.PcOf(t) == Detach(g) && s' == DetachStep(s, t, g)
    ensures GroupOk(s', g) && ThreadOk(s', t)
  {
    forall i | 0 <= i < |s.groups[g].others| ensures OtherOk(s', g, s.groups[g].others[i]) {
      assert OtherOk(s, g, s.groups[g].others[i]);
    }
  }

  lemma DetachIsLocal(s: State, s': State, t: Thread, g: GroupId)
    requires s.PcOf(t) == Detach(g) && Leads(s, t, g) && Attached(s, g) && s' == DetachStep(s, t, g)
    ensures Local(s, s', t) && RecordsKeep(s, s', t, g) && ListsKeep(s, s', g)
  {
  }

  lemma DetachLeaves(s: State, s': State, t: Thread, g: GroupId, h: GroupId)
    requires s.PcOf(t) == Detach(g) && Leads(s, t, g) && Attached(s, g) && s' == DetachStep(s, t, g)
    requires Leads(s', t, h) && h != g
    ensures Untouching(s, s', t, h)
  {
  }

  lemma DetachKeeps(s: State, t: Thread, g: GroupId)
    requires Inv(s) && s.PcOf(t) == Detach(g)
    ensures Inv(DetachStep(s, t, g)) && Local(s, DetachStep(s, t, g), t)
  {
    var s' := DetachStep(s, t, g);
    assert ThreadOk(s, t) && GroupOk(s, g) && RequestOk(s, g);
    DetachedGroup(s, s', t, g);
    DetachIsLocal(s, s', t, g);
    forall h | Leads(s', t, h) && h != g ensures Untouching(s, s', t, h) {
      DetachLeaves(s, s', t, g, h);
    }
    GroupsBut(s, s', t, g);
    RequestsBut(s, s', t, g);
    DetachTables(s, s', t, g);
    LogKept(s, s');
    Assemble(s, s', t);
  }

  lemma DetachTables(s: State, s': State, t: Thread, g: GroupId)
    requires TablesOk(s) && s' == DetachStep(s, t, g)
    ensures OwnTables(s', t)
  {
    forall key ensures LedOk(s', t, key) && AttachedOk(s', key) {
      assert LedOk(s, t, key) && AttachedOk(s, key);
    }
    forall slot | slot in s'.cache ensures SlotOk(s', slot) {
      assert SlotOk(s, slot);
    }
  }

  lemma EmptiedGroup(s: State, s': State, t: Thread, g: GroupId)
    requires GroupOk(s, g) && ThreadOk(s, t) && s.PcOf(t) == ServeGroup(g) && s.groups[g].waiting == []
    requires RequestOk(s, g) && s' == s.Goto(t, Leave(g))
    ensures GroupOk(s', g) && Change(s, s', t, g, g) && ThreadOk(s', t) && RequestOk(s', g)
  {
    forall i | 0 <= i < |s.groups[g].others| ensures OtherOk(s', g, s.groups[g].others[i]) {
      assert OtherOk(s, g, s.groups[g].others[i]);
    }
  }

  lemma ServedFirst(s: State, s': State, t: Thread, g: GroupId, r: Req)
    requires GroupOk(s, g) && ThreadOk(s, t) && s.PcOf(t) == ServeGroup(g)
    requires s.groups[g].waiting != [] && r == s.groups[g].waiting[0] && r !in s.groups
    requires ServedOnce(s) && s' == ServeGroupStep(s, t, g)
    ensures GroupOk(s', g) && Change(s, s', t, g, r) && ThreadOk(s', t) && RequestOk(s', r) && ServedOnce(s')
  {
    LogExtended(s, s', r, g);
    var waiting, rest := s.groups[g].waiting, s'.groups[g].waiting;
    assert forall i :: 0 <= i < |rest| ==> rest[i] == waiting[i + 1];
    assert waiting == [r] + rest;
    forall i | 0 <= i < |s.groups[g].others| ensures OtherOk(s', g, s.groups[g].others[i]) {
      assert OtherOk(s, g, s.groups[g].others[i]);
    }
  }

  lemma WaitingCreatedNoGroup(s: State, g: GroupId)
    requires Inv(s) && g in s.groups && s.groups[g].waiting != []
    ensures var r := s.groups[g].waiting[0];
            r in s.requests && s.requests[r].stage == InWaiting && r !in s.groups
  {
    assert GroupOk(s, g);
  }

  lemma ServeFirstKeeps(s: State, t: Thread, g: GroupId)
    requires Inv(s) && s.PcOf(t) == ServeGroup(g) && s.GroupOf(g).waiting != []
    ensures Inv(ServeGroupStep(s, t, g)) && Local(s, ServeGroupStep(s, t, g), t)
  {
    var s' := ServeGroupStep(s, t, g);
    var r := s.GroupOf(g).waiting[0];
    assert ThreadOk(s, t) && GroupOk(s, g);
    WaitingCreatedNoGroup(s, g);
    ServedFirst(s, s', t, g, r);
    ChangeKeeps(s, s', t, g, r);
  }

  lemma ServeGroupKeeps(s: State, t: Thread, g: GroupId)
    requires Inv(s) && s.PcOf(t) == ServeGroup(g)
    ensures Inv(ServeGroupStep(s, t, g)) && Local(s, ServeGroupStep(s, t, g), t)
  {
    if s.GroupOf(g).waiting == [] {
      var s' := ServeGroupStep(s, t, g);
      assert ThreadOk(s, t) && GroupOk(s, g) && RequestOk(s, g);
      EmptiedGroup(s, s', t, g);
      LogKept(s, s');
      ChangeKeeps(s, s', t, g, g);
    } else {
      ServeFirstKeeps(s, t, g);
    }
  }

  lemma LeftGroup(s: State, s': State, t: Thread, g: GroupId)
    requires GroupOk(s, g) && ThreadOk(s, t) && s.PcOf(t) == Leave(g) && s' == LeaveStep(s, t, g)
    ensures GroupOk(s', g) && ThreadOk(s', t)
  {
    forall i | 0 <= i < |s.groups[g].others| ensures OtherOk(s', g, s.groups[g].others[i]) {
      assert OtherOk(s, g, s.groups[g].others[i]);
    }
  }

  lemma LeaveIsLocal(s: State, s': State, t: Thread, g: GroupId)
    requires s.PcOf(t) == Leave(g) && Leads(s, t, g) && Registered(s, g) && s' == LeaveStep(s, t, g)
    ensures Local(s, s', t) && RecordsKeep(s, s', t, g) && ListsKeep(s, s', g)
  {
  }

  lemma LeaveLeaves(s: State, s': State, t: Thread, g: GroupId, h: GroupId)
    requires s.PcOf(t) == Leave(g) && Leads(s, t, g) && Registered(s, g) && s' == LeaveStep(s, t, g)
    requires Leads(s', t, h) && h != g
    ensures Untouching(s, s', t, h)
  {
  }

  lemma TableRows(s: State, s': State, t: Thread)
    requires TablesOk(s) && Local(s, s', t) && s'.attached == s.attached && s'.cache == s.cache
    requires forall key :: key in s'.LeadsOf(t) ==> key in s.LeadsOf(t) && s'.LeadsOf(t)[key] == s.LeadsOf(t)[key]
    ensures OwnTables(s', t)
  {
    forall key ensures LedOk(s', t, key) {
      assert LedOk(s, t, key);
      assert key in s'.LeadsOf(t) ==> key in s.LeadsOf(t);
    }
    forall key ensures AttachedOk(s', key) {
      assert AttachedOk(s, key);
    }
    forall slot | slot in s'.cache ensures SlotOk(s', slot) {
      assert SlotOk(s, slot);
    }
  }

  lemma LeaveKeeps(s: State, t: Thread, g: GroupId)
    requires Inv(s) && s.PcOf(t) == Leave(g)
    ensures Inv(LeaveStep(s, t, g)) && Local(s, LeaveStep(s, t, g), t)
  {
    var s' := LeaveStep(s, t, g);
    assert ThreadOk(s, t) && GroupOk(s, g) && RequestOk(s, g);
    LeftGroup(s, s', t, g);
    LeaveIsLocal(s, s', t, g);
    forall h | Leads(s', t, h) && h != g ensures Untouching(s, s', t, h) {
      LeaveLeaves(s, s', t, g, h);
    }
    GroupsBut(s, s', t, g);
    RequestsBut(s, s', t, g);
    TableRows(s, s', t);
    LogKept(s, s');
    Assemble(s, s', t);
  }

  lemma ReleaseIsLocal(s: State, s': State, t: Thread)
    requires t in s.leads && s' == s.(leads := s.leads - {t}, pcs := s.pcs[t := Idle])
    ensures Local(s, s', t)
  {
  }

  lemma ReleasedThread(s: State, t: Thread)
    ensures ThreadOk(ReleaseStep(s, t), t)
  {
  }

  lemma ReleaseLeaves(s: State, s': State, t: Thread, h: GroupId)
    requires s.PcOf(t) == Release && s' == ReleaseStep(s, t) && Leads(s', t, h)
    ensures Untouching(s, s', t, h)
  {
  }

  lemma ReleaseKeeps(s: State, t: Thread)
    requires Inv(s) && s.PcOf(t) == Release
    ensures Inv(ReleaseStep(s, t)) && Local(s, ReleaseStep(s, t), t)
  {
    var s' := ReleaseStep(s, t);
    assert ThreadOk(s, t);
    if s.LeadsOf(t) == map[] {
      ReleaseIsLocal(s, s', t);
    } else {
      GotoIsLocal(s, t, Idle);
    }
    ReleasedThread(s, t);
    forall r | r in s.requests && s.requests[r].thread == t ensures RequestOk(s', r) {
      BystanderRequest(s, s', t, r);
    }
    forall h | Leads(s', t, h) ensures Untouching(s, s', t, h) {
      ReleaseLeaves(s, s', t, h);
    }
    GroupsKept(s, s', t);
    TableRows(s, s', t);
    LogKept(s, s');
    Assemble(s, s', t);
  }

  /* ---------- deferred requests ---------- */

  lemma NothingDeferred(s: State, s': State, t: Thread, g: GroupId)
    requires GroupOk(s, g) && ThreadOk(s, t) && s.PcOf(t) == Attend(g) && s.groups[g].others == []
    requires RequestOk(s, g) && s' == s.Goto(t, Release)
    ensures GroupOk(s', g) && Change(s, s', t, g, g) && ThreadOk(s', t) && RequestOk(s', g)
  {
    assert s'.groups == s.groups && s'.requests == s.requests;
  }

  lemma AttendedFirst(s: State, s': State, t: Thread, g: GroupId, r: Req)
    requires GroupOk(s, g) && ThreadOk(s, t) && s.PcOf(t) == Attend(g)
    requires s.groups[g].others != [] && r == s.groups[g].others[0].req && r !in s.groups
    requires ServedOnce(s) && s' == AttendStep(s, t, g)
    ensures GroupOk(s', g) && Change(s, s', t, g, r) && ThreadOk(s', t) && RequestOk(s', r) && ServedOnce(s')
  {
    LogKept(s, s');
    assert OtherOk(s, g, s.groups[g].others[0]);
    RestIsOk(s, s', t, g, r);
  }

  lemma RestIsOk(s: State, s': State, t: Thread, g: GroupId, r: Req)
    requires g in s.groups && OthersOk(s, g) && s.groups[g].others != [] && r == s.groups[g].others[0].req
    requires s' == AttendStep(s, t, g) && s.PcOf(t) == Attend(g)
    ensures g in s'.groups && DistinctReqs(s'.groups[g].others)
    ensures s.groups[g].others == [s.groups[g].others[0]] + s'.groups[g].others
    ensures forall i :: 0 <= i < |s'.groups[g].others| ==>
              OtherOk(s', g, s'.groups[g].others[i]) && s'.groups[g].others[i].req != r
  {
    var others, rest := s.groups[g].others, s'.groups[g].others;
    forall i | 0 <= i < |rest| ensures OtherOk(s', g, rest[i]) && rest[i].req != r {
      assert OtherOk(s, g, others[i + 1]);
    }
  }

  lemma DeferredCreatedNoGroup(s: State, g: GroupId)
    requires Inv(s) && g in s.groups && s.groups[g].others != []
    ensures s.groups[g].others[0].req !in s.groups
  {
    var r := s.groups[g].others[0].req;
    assert GroupOk(s, g) && OtherOk(s, g, s.groups[g].others[0]);
    assert r in s.groups ==> LifeOk(s, r);
  }

  lemma AttendKeeps(s: State, t: Thread, g: GroupId)
    requires Inv(s) && s.PcOf(t) == Attend(g)
    ensures Inv(AttendStep(s, t, g)) && Local(s, AttendStep(s, t, g), t)
  {
    var s' := AttendStep(s, t, g);
    if s.GroupOf(g).others == [] {
      assert ThreadOk(s, t) && GroupOk(s, g) && RequestOk(s, g);
      NothingDeferred(s, s', t, g);
      LogKept(s, s');
      ChangeKeeps(s, s', t, g, g);
    } else {
      AttendFirstKeeps(s, t, g, s.GroupOf(g).others[0].req);
    }
  }

  lemma AttendFirstKeeps(s: State, t: Thread, g: GroupId, r: Req)
    requires Inv(s) && s.PcOf(t) == Attend(g) && s.GroupOf(g).others != [] && s.GroupOf(g).others[0].req == r
    ensures Inv(AttendStep(s, t, g)) && Local(s, AttendStep(s, t, g), t)
  {
    assert ThreadOk(s, t) && GroupOk(s, g);
    DeferredCreatedNoGroup(s, g);
    AttendedFirst(s, AttendStep(s, t, g), t, g, r);
    ChangeKeeps(s, AttendStep(s, t, g), t, g, r);
  }

  lemma AttendMovesOn(s: State, t: Thread, g: GroupId)
    requires ThreadOk(s, t) && s.PcOf(t) == HandOver(g) && s.LeadsOf(t) == map[]
    ensures MovesOn(s, t, Attend(g))
  {
  }

  // The splice: what one group deferred is deferred by the other now.
  ghost predicate Spliced(s: State, s': State, t: Thread, g: GroupId, h: GroupId) {
    && s.PcOf(t) == HandOver(g) && Leads(s, t, g) && Leads(s, t, h) && h != g
    && s' == s.(groups := s.groups[h := s.groups[h].(others := s.groups[h].others + s.groups[g].others)]
                                  [g := s.groups[g].(others := [])],
                requests := map r | r in s.requests :: Moved(s.requests[r], g, h)).Goto(t, Idle)
  }

  lemma SplicedInto(s: State, s': State, t: Thread, g: GroupId, h: GroupId)
    requires Spliced(s, s', t, g, h) && GroupOk(s, g) && GroupOk(s, h) && Registered(s, h)
    ensures GroupOk(s', h)
  {
    var a, b := s.groups[h].others, s.groups[g].others;
    forall i | 0 <= i < |a + b| ensures OtherOk(s', h, (a + b)[i]) {
      assert if i < |a| then OtherOk(s, h, a[i]) else OtherOk(s, g, b[i - |a|]);
    }
    forall i, j | 0 <= i < j < |a + b| ensures (a + b)[i].req != (a + b)[j].req {
      assert if i < |a| then OtherOk(s, h, a[i]) else OtherOk(s, g, b[i - |a|]);
      assert if j < |a| then OtherOk(s, h, a[j]) else OtherOk(s, g, b[j - |a|]);
    }
  }

  lemma SplicedFrom(s: State, s': State, t: Thread, g: GroupId, h: GroupId)
    requires Spliced(s, s', t, g, h) && GroupOk(s, g) && s.groups[g].entry != Writing
    ensures GroupOk(s', g)
  {
  }

  lemma SplicedRecords(s: State, s': State, t: Thread, g: GroupId, h: GroupId)
    requires Spliced(s, s', t, g, h)
    requires forall r :: r in s.requests && s.requests[r].stage == Deferred(g) ==> s.requests[r].thread == t
    ensures s'.requests.Keys == s.requests.Keys
    ensures forall r :: r in s.requests ==>
              && s'.requests[r] == s.requests[r].(stage := s'.requests[r].stage)
              && (s.requests[r].thread != t ==> s'.requests[r] == s.requests[r])
  {
  }

  lemma SplicedTables(s: State, s': State, t: Thread, g: GroupId, h: GroupId)
    requires Spliced(s, s', t, g, h)
    ensures s'.groups.Keys == s.groups.Keys && s'.attached == s.attached && s'.leads == s.leads
    ensures forall k :: k in s.groups ==>
              Grows(s.groups[k], s'.groups[k]) && (s.groups[k].leader != t ==> s'.groups[k] == s.groups[k])
    ensures forall u :: u != t ==> s'.PcOf(u) == s.PcOf(u)
    ensures s'.served == s.served
  {
  }

  lemma SpliceIsLocal(s: State, s': State, t: Thread, g: GroupId, h: GroupId)
    requires Spliced(s, s', t, g, h)
    requires forall r :: r in s.requests && s.requests[r].stage == Deferred(g) ==> s.requests[r].thread == t
    ensures Local(s, s', t)
  {
    SplicedRecords(s, s', t, g, h);
    SplicedTables(s, s', t, g, h);
    LocalByTables(s, s', t);
  }

  lemma LocalByTables(s: State, s': State, t: Thread)
    requires s'.requests.Keys == s.requests.Keys
    requires forall r :: r in s.requests ==>
               && s'.requests[r] == s.requests[r].(stage := s'.requests[r].stage)
               && (s.requests[r].thread != t ==> s'.requests[r] == s.requests[r])
    requires s'.groups.Keys == s.groups.Keys && s'.attached == s.attached && s'.leads == s.leads
    requires forall k :: k in s.groups ==>
               Grows(s.groups[k], s'.groups[k]) && (s.groups[k].leader != t ==> s'.groups[k] == s.groups[k])
    requires forall u :: u != t ==> s'.PcOf(u) == s.PcOf(u)
    requires s'.served == s.served
    ensures Local(s, s', t)
  {
    assert forall r :: r in s'.requests <==> r in s.requests;
    assert forall k :: k in s'.groups <==> k in s.groups;
  }

  lemma SpliceLeaves(s: State, s': State, t: Thread, g: GroupId, h: GroupId, k: GroupId)
    requires Spliced(s, s', t, g, h) && Leads(s, t, k) && k != g && k != h && GroupOk(s, k)
    ensures Untouching(s, s', t, k)
  {
  }

  // A deferred request is on the thread that leads its host.
  lemma DeferredThread(s: State, g: GroupId, r: Req)
    requires Inv(s) && g in s.groups && r in s.requests && s.requests[r].stage == Deferred(g)
    ensures s.requests[r].thread == s.groups[g].leader
  {
    assert RequestOk(s, r);
    var i :| 0 <= i < |s.groups[g].others| && s.groups[g].others[i] == Other(r, s.requests[r].group);
    assert GroupOk(s, g) && OtherOk(s, g, s.groups[g].others[i]);
  }

  lemma SplicedRequest(s: State, s': State, t: Thread, g: GroupId, h: GroupId, r: Req)
    requires Spliced(s, s', t, g, h) && r in s.requests && RequestOk(s, r) && s.requests[r].thread == t
    ensures RequestOk(s', r)
  {
    var o := Other(r, s.requests[r].group);
    assert o in s.groups[g].others ==> o in s'.groups[h].others;
    assert o in s.groups[h].others ==> o in s'.groups[h].others;
  }

  lemma SpliceGroups(s: State, s': State, t: Thread, g: GroupId, h: GroupId)
    requires Inv(s) && Spliced(s, s', t, g, h) && Local(s, s', t) && Registered(s, h) && s.groups[g].entry != Writing
    ensures OwnGroups(s', t)
  {
    assert GroupOk(s, g) && GroupOk(s, h);
    SplicedTables(s, s', t, g, h);
    SplicedFrom(s, s', t, g, h);
    SplicedInto(s, s', t, g, h);
    forall k | Leads(s', t, k) ensures GroupOk(s', k) {
      assert GroupOk(s, k);
      if k != g && k != h {
        SpliceLeaves(s, s', t, g, h, k);
        BystanderGroup(s, s', t, k);
      }
    }
  }

  lemma SpliceKeeps(s: State, s': State, t: Thread, g: GroupId, h: GroupId)
    requires Inv(s) && Spliced(s, s', t, g, h) && Registered(s, h) && s.groups[g].entry != Writing && t in s.leads
    ensures Inv(s') && Local(s, s', t)
  {
    forall r | r in s.requests && s.requests[r].stage == Deferred(g) ensures s.requests[r].thread == t {
      DeferredThread(s, g, r);
    }
    SpliceIsLocal(s, s', t, g, h);
    SpliceGroups(s, s', t, g, h);
    SpliceRequests(s, s', t, g, h);
    TablesKept(s, s', t);
    Assemble(s, s', t);
  }

  lemma SpliceRequests(s: State, s': State, t: Thread, g: GroupId, h: GroupId)
    requires Inv(s) && Spliced(s, s', t, g, h)
    ensures OwnRequests(s', t) && ServedOnce(s')
  {
    forall r | r in s'.requests && s'.requests[r].thread == t ensures RequestOk(s', r) {
      SplicedRequest(s, s', t, g, h, r);
    }
    LogKept(s, s');
  }

  lemma HandOverKeeps(s: State, t: Thread, g: GroupId, choice: Key)
    requires Inv(s) && s.PcOf(t) == HandOver(g) && (s.LeadsOf(t) != map[] ==> choice in s.LeadsOf(t))
    ensures Inv(HandOverStep(s, t, g, choice)) && Local(s, HandOverStep(s, t, g, choice), t)
  {
    assert ThreadOk(s, t);
    if s.LeadsOf(t) == map[] {
      AttendMovesOn(s, t, g);
      GotoKeeps(s, t, Attend(g));
    } else {
      var h := s.LeadsOf(t)[choice];
      assert LedOk(s, t, choice) && GroupOk(s, g);
      SpliceKeeps(s, HandOverStep(s, t, g, choice), t, g, h);
    }
  }

  /* ---------- a request arrives ---------- */

  lemma JoinIsLocal(s: State, s': State, t: Thread, r: Req, key: Key)
    requires s.PcOf(t) == Idle && r !in s.requests && key in s.attached && s' == ArriveStep(s, t, r, key)
    ensures Local(s, s', t) && RecordsKeep(s, s', t, r) && ListsKeep(s, s', r)
  {
  }

  lemma JoinLeaves(s: State, s': State, t: Thread, r: Req, key: Key, h: GroupId)
    requires s.PcOf(t) == Idle && r !in s.requests && key in s.attached && s' == ArriveStep(s, t, r, key)
    requires Leads(s', t, h)
    ensures Untouching(s, s', t, h)
  {
  }

  lemma JoinedThread(s: State, s': State, t: Thread, r: Req, key: Key)
    requires s.PcOf(t) == Idle && r !in s.requests && key in s.attached && s' == ArriveStep(s, t, r, key)
    requires ThreadOk(s, t) && AttachedOk(s, key) && GroupOk(s, s.attached[key])
    ensures ThreadOk(s', t) && RequestOk(s', r)
  {
  }

  lemma JoinKeeps(s: State, t: Thread, r: Req, key: Key)
    requires Inv(s) && s.PcOf(t) == Idle && r !in s.requests && key in s.attached
    ensures Inv(ArriveStep(s, t, r, key)) && Local(s, ArriveStep(s, t, r, key), t)
  {
    var s' := ArriveStep(s, t, r, key);
    assert ThreadOk(s, t) && AttachedOk(s, key);
    JoinIsLocal(s, s', t, r, key);
    forall h | Leads(s', t, h) ensures Untouching(s, s', t, h) {
      JoinLeaves(s, s', t, r, key, h);
    }
    JoinedThread(s, s', t, r, key);
    GroupsKept(s, s', t);
    RequestsBut(s, s', t, r);
    TablesKept(s, s', t);
    LogKept(s, s');
    Assemble(s, s', t);
  }

  lemma CreateIsLocal(s: State, s': State, t: Thread, r: Req, key: Key)
    requires s.PcOf(t) == Idle && r !in s.requests && r !in s.groups && key !in s.attached
    requires s' == ArriveStep(s, t, r, key)
    ensures Local(s, s', t)
  {
  }

  lemma CreateRecords(s: State, s': State, t: Thread, r: Req, key: Key)
    requires s.PcOf(t) == Idle && r !in s.requests && r !in s.groups && key !in s.attached
    requires s' == ArriveStep(s, t, r, key)
    ensures RecordsKeep(s, s', t, r) && ListsKeep(s, s', r)
  {
  }

  lemma CreateLeaves(s: State, s': State, t: Thread, r: Req, key: Key, h: GroupId)
    requires s.PcOf(t) == Idle && r !in s.requests && r !in s.groups && key !in s.attached
    requires s' == ArriveStep(s, t, r, key)
    requires Leads(s', t, h) && h != r
    ensures Untouching(s, s', t, h)
  {
  }

  lemma CreatedGroup(s: State, s': State, t: Thread, r: Req, key: Key)
    requires ThreadOk(s, t) && LedOk(s, t, key) && s.PcOf(t) == Idle && r !in s.requests && r !in s.groups
    requires key !in s.attached && s' == ArriveStep(s, t, r, key)
    ensures GroupOk(s', r) && ThreadOk(s', t) && RequestOk(s', r)
  {
  }

  lemma CreateKeeps(s: State, t: Thread, r: Req, key: Key)
    requires Inv(s) && s.PcOf(t) == Idle && r !in s.requests && key !in s.attached
    ensures Inv(ArriveStep(s, t, r, key)) && Local(s, ArriveStep(s, t, r, key), t)
  {
    var s' := ArriveStep(s, t, r, key);
    assert ThreadOk(s, t) && LedOk(s, t, key);
    assert r !in s.groups;
    CreateIsLocal(s, s', t, r, key);
    CreateRecords(s, s', t, r, key);
    forall h | Leads(s', t, h) && h != r ensures Untouching(s, s', t, h) {
      CreateLeaves(s, s', t, r, key, h);
    }
    CreatedGroup(s, s', t, r, key);
    GroupsBut(s, s', t, r);
    RequestsBut(s, s', t, r);
    CreateTables(s, s', t, r, key);
    LogKept(s, s');
    Assemble(s, s', t);
  }

  lemma CreateTables(s: State, s': State, t: Thread, r: Req, key: Key)
    requires TablesOk(s) && r !in s.groups && key !in s.attached && s' == ArriveStep(s, t, r, key)
    ensures OwnTables(s', t)
  {
    forall k ensures LedOk(s', t, k) && AttachedOk(s', k) {
      assert LedOk(s, t, k) && AttachedOk(s, k);
    }
    forall slot | slot in s'.cache ensures SlotOk(s', slot) {
      assert SlotOk(s, slot);
    }
  }

  lemma RegisterIsLocal(s: State, s': State, t: Thread, r: Req)
    requires s.PcOf(t) == Register(r) && Leads(s, t, r) && r in s.requests && s' == RegisterStep(s, t, r)
    requires forall h :: Leads(s, t, h) && h != r && Registered(s, h) ==> s.groups[h].key != s.groups[r].key
    ensures Local(s, s', t) && RecordsKeep(s, s', t, r) && ListsKeep(s, s', r)
  {
  }

  lemma RegisterLeaves(s: State, s': State, t: Thread, r: Req, h: GroupId)
    requires s.PcOf(t) == Register(r) && Leads(s, t, r) && r in s.requests && s' == RegisterStep(s, t, r)
    requires forall h :: Leads(s, t, h) && h != r && Registered(s, h) ==> s.groups[h].key != s.groups[r].key
    requires Leads(s', t, h) && h != r
    ensures Untouching(s, s', t, h)
  {
  }

  lemma RegisteredGroup(s: State, s': State, t: Thread, r: Req)
    requires GroupOk(s, r) && ThreadOk(s, t) && s.PcOf(t) == Register(r) && s' == RegisterStep(s, t, r)
    ensures GroupOk(s', r) && ThreadOk(s', t) && RequestOk(s', r)
  {
    assert s.groups[r].key in s'.leads[t];
  }

  // No other group of the thread is in its table under the same key.
  lemma KeyIsFree(s: State, t: Thread, r: Req, h: GroupId)
    requires Inv(s) && s.PcOf(t) == Register(r) && Leads(s, t, h) && h != r && Registered(s, h)
    ensures s.groups[h].key != s.GroupOf(r).key
  {
    assert ThreadOk(s, t) && GroupOk(s, r) && GroupOk(s, h);
  }

  lemma RegisterKeeps(s: State, t: Thread, r: Req)
    requires Inv(s) && s.PcOf(t) == Register(r)
    ensures Inv(RegisterStep(s, t, r)) && Local(s, RegisterStep(s, t, r), t)
  {
    var s' := RegisterStep(s, t, r);
    assert ThreadOk(s, t) && GroupOk(s, r);
    forall h | Leads(s, t, h) && h != r && Registered(s, h) ensures s.groups[h].key != s.groups[r].key {
      KeyIsFree(s, t, r, h);
    }
    RegisterIsLocal(s, s', t, r);
    forall h | Leads(s', t, h) && h != r ensures Untouching(s, s', t, h) {
      RegisterLeaves(s, s', t, r, h);
    }
    RegisteredGroup(s, s', t, r);
    GroupsBut(s, s', t, r);
    RequestsBut(s, s', t, r);
    RegisterTables(s, s', t, r);
    LogKept(s, s');
    Assemble(s, s', t);
  }

  lemma RegisterTables(s: State, s': State, t: Thread, r: Req)
    requires TablesOk(s) && Leads(s, t, r) && s' == RegisterStep(s, t, r)
    ensures OwnTables(s', t)
  {
    forall k ensures LedOk(s', t, k) && AttachedOk(s', k) {
      assert LedOk(s, t, k) && AttachedOk(s, k);
    }
    forall slot | slot in s'.cache ensures SlotOk(s', slot) {
      assert SlotOk(s, slot);
    }
  }

  /* ---------- every step ---------- */

  lemma FirstHeadersMovesOn(s: State, t: Thread, g: GroupId, cacheable: bool)
    requires ThreadOk(s, t) && GroupOk(s, g) && Enabled(s, FirstHeaders(t, g, cacheable))
    ensures MovesOn(s, t, if cacheable then InsertEntry(g) else Notify(g))
  {
  }

  lemma RequestStepKeeps(s: State, t: Thread, choice: Key)
    requires Inv(s) && Enabled(s, Advance(t, choice)) && HasRequest(s.PcOf(t))
    ensures Inv(AdvanceStep(s, t, choice)) && Local(s, AdvanceStep(s, t, choice), t)
  {
    match s.PcOf(t)
    case Register(r) => RegisterKeeps(s, t, r);
    case QueryCache(r) =>
      match Find(s.cache, s.GroupOf(r).key) {
        case Some(e) => HitKeeps(s, t, r, e);
        case None => MissKeeps(s, t, r);
      }
    case HitNotify(r, e) => HitNotifyKeeps(s, t, r, e);
    case HitServe(r, e) => HitServeKeeps(s, t, r, e);
    case Classify(r) => ClassifyKeeps(s, t, r);
    case TestLeads(r) => TestLeadsKeeps(s, t, r, choice);
    case WaitOnCv(r, attending) => WakeKeeps(s, t, r, attending);
    case CvPassed(r, attending) => CvPassedKeeps(s, t, r, attending);
    case Serve(r, e, attending) => ServeKeeps(s, t, r, e, attending);
  }

  lemma AnnouncingStepKeeps(s: State, t: Thread, choice: Key)
    requires Inv(s) && (s.PcOf(t).InsertEntry? || s.PcOf(t).Notify?)
    ensures Inv(AdvanceStep(s, t, choice)) && Local(s, AdvanceStep(s, t, choice), t)
  {
    match s.PcOf(t)
    case InsertEntry(g) =>
      assert AdvanceStep(s, t, choice) == InsertStep(s, t, g);
      InsertKeeps(s, t, g);
    case Notify(g) =>
      assert AdvanceStep(s, t, choice) == NotifyStep(s, t, g, g, Idle);
      NotifyKeeps(s, t, g);
  }

  lemma ClosingStepKeeps(s: State, t: Thread, choice: Key)
    requires Inv(s) && (s.PcOf(t).Detach? || s.PcOf(t).ServeGroup?)
    ensures Inv(AdvanceStep(s, t, choice)) && Local(s, AdvanceStep(s, t, choice), t)
  {
    match s.PcOf(t)
    case Detach(g) =>
      assert AdvanceStep(s, t, choice) == DetachStep(s, t, g);
      DetachKeeps(s, t, g);
    case ServeGroup(g) =>
      assert AdvanceStep(s, t, choice) == ServeGroupStep(s, t, g);
      ServeGroupKeeps(s, t, g);
  }

  lemma EndingStepKeeps(s: State, t: Thread, choice: Key)
    requires Inv(s) && (s.PcOf(t).Leave? || s.PcOf(t).Release?)
    ensures Inv(AdvanceStep(s, t, choice)) && Local(s, AdvanceStep(s, t, choice), t)
  {
    match s.PcOf(t)
    case Leave(g) =>
      assert AdvanceStep(s, t, choice) == LeaveStep(s, t, g);
      LeaveKeeps(s, t, g);
    case Release =>
      assert AdvanceStep(s, t, choice) == ReleaseStep(s, t);
      ReleaseKeeps(s, t);
  }

  lemma DeferredStepKeeps(s: State, t: Thread, choice: Key)
    requires Inv(s) && Enabled(s, Advance(t, choice)) && (s.PcOf(t).HandOver? || s.PcOf(t).Attend?)
    ensures Inv(AdvanceStep(s, t, choice)) && Local(s, AdvanceStep(s, t, choice), t)
  {
    match s.PcOf(t)
    case HandOver(g) =>
      assert AdvanceStep(s, t, choice) == HandOverStep(s, t, g, choice);
      HandOverKeeps(s, t, g, choice);
    case Attend(g) =>
      assert AdvanceStep(s, t, choice) == AttendStep(s, t, g);
      AttendKeeps(s, t, g);
  }

  lemma StepKeeps(s: State, a: Action)
    requires Inv(s) && Enabled(s, a)
    ensures Inv(Next(s, a)) && Local(s, Next(s, a), ThreadOf(a))
  {
    match a
    case Arrive(t, r, key) =>
      if key in s.attached {
        JoinKeeps(s, t, r, key);
      } else {
        CreateKeeps(s, t, r, key);
      }
    case FirstHeaders(t, g, cacheable) =>
      assert ThreadOk(s, t) && GroupOk(s, g);
      FirstHeadersMovesOn(s, t, g, cacheable);
      GotoKeeps(s, t, if cacheable then InsertEntry(g) else Notify(g));
    case ResponseEnd(t, g) => ResponseEndKeeps(s, t, g);
    case Advance(t, choice) =>
      if HasRequest(s.PcOf(t)) {
        RequestStepKeeps(s, t, choice);
      } else if s.PcOf(t).Leave? || s.PcOf(t).Release? {
        EndingStepKeeps(s, t, choice);
      } else if s.PcOf(t).HandOver? || s.PcOf(t).Attend? {
        DeferredStepKeeps(s, t, choice);
      } else if s.PcOf(t).Detach? || s.PcOf(t).ServeGroup? {
        ClosingStepKeeps(s, t, choice);
      } else {
        AnnouncingStepKeeps(s, t, choice);
      }
    case Timeout(t) => WakeKeeps(s, t, s.PcOf(t).req, s.PcOf(t).attending);
  }
}
