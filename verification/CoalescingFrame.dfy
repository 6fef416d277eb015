/** A step of one thread leaves everything that belongs to other threads as it is. */
module CoalescingFrame {
  import opened LruSpec
  import opened Coalescing
  import opened CoalescingInvariant

  // Responses and entries only make progress.
  predicate Grows(group: Group, group': Group) {
    && group'.key == group.key && group'.leader == group.leader
    && (group.response.Some? ==> group'.response == group.response)
    && (group.entry == Writing ==> group'.entry != NoEntry)
    && (group.entry == Complete ==> group'.entry == Complete)
  }

  // The step changes only groups led by t and requests on t, and touches no tables of other threads.
  ghost predicate Local(s: State, s': State, t: Thread) {
    && (forall g :: g in s.groups ==> g in s'.groups && Grows(s.groups[g], s'.groups[g]))
    && (forall g :: g in s.groups && s.groups[g].leader != t ==>
          s'.groups[g] == s.groups[g] && (Attached(s', g) <==> Attached(s, g)))
    && (forall g :: g in s'.groups && g !in s.groups ==> s'.groups[g].leader == t)
    && (forall r :: r in s.requests && s.requests[r].thread != t ==>
          r in s'.requests && s'.requests[r] == s.requests[r])
    && (forall r :: r in s'.requests && s'.requests[r].thread != t ==>
          r in s.requests && s'.requests[r] == s.requests[r])
    && (forall r :: r in s.requests ==>
          r in s'.requests && s'.requests[r] == s.requests[r].(stage := s'.requests[r].stage))
    && (forall u :: u != t ==> s'.PcOf(u) == s.PcOf(u))
    && (forall u :: u != t ==> (u in s'.leads <==> u in s.leads) && (u in s.leads ==> s'.leads[u] == s.leads[u]))
    && s.served <= s'.served
  }

  lemma OtherThread(s: State, s': State, t: Thread, u: Thread)
    requires Local(s, s', t) && u != t && ThreadOk(s, u)
    ensures ThreadOk(s', u)
  {
  }

  lemma OtherGroup(s: State, s': State, t: Thread, g: GroupId)
    requires Local(s, s', t) && g in s.groups && s.groups[g].leader != t && GroupOk(s, g)
    ensures GroupOk(s', g)
  {
  }

  lemma OtherRequest(s: State, s': State, t: Thread, r: Req)
    requires Local(s, s', t) && r in s.requests && s.requests[r].thread != t && RequestOk(s, r)
    requires GroupOk(s, s.requests[r].group)
    requires s.requests[r].stage.Deferred? ==> GroupOk(s, s.requests[r].stage.host)
    ensures RequestOk(s', r)
  {
  }

  // The invariant as far as it concerns thread t, and the tables shared by all.
  ghost predicate OwnGroups(s: State, t: Thread) {
    forall g :: Leads(s, t, g) ==> GroupOk(s, g)
  }

  ghost predicate OwnRequests(s: State, t: Thread) {
    forall r :: r in s.requests && s.requests[r].thread == t ==> RequestOk(s, r)
  }

  ghost predicate OwnTables(s: State, t: Thread) {
    && (forall key :: LedOk(s, t, key))
    && (forall key :: AttachedOk(s, key))
    && (forall slot :: slot in s.cache ==> SlotOk(s, slot))
  }

  ghost predicate Own(s: State, t: Thread) {
    OwnGroups(s, t) && ThreadOk(s, t) && OwnRequests(s, t) && OwnTables(s, t) && ServedOnce(s)
  }

  lemma Assemble(s: State, s': State, t: Thread)
    requires Inv(s) && Local(s, s', t) && Own(s', t)
    ensures Inv(s')
  {
    forall g | g in s'.groups ensures GroupOk(s', g) {
      if s'.groups[g].leader != t {
        OtherGroup(s, s', t, g);
      } else {
        assert Leads(s', t, g);
      }
    }
    forall u ensures ThreadOk(s', u) {
      if u != t {
        OtherThread(s, s', t, u);
      }
    }
    forall r | r in s'.requests ensures RequestOk(s', r) {
      if s'.requests[r].thread != t {
        assert RequestOk(s, r);
        OtherRequest(s, s', t, r);
      }
    }
    forall u, key ensures LedOk(s', u, key) {
      assert LedOk(s, u, key);
    }
  }

  /* ---------- what a step of t leaves alone among its own ---------- */

  predicate Belongs(s: State, q: Req, h: GroupId) {
    && q in s.requests
    && (q == h || s.requests[q].stage == Deferred(h) || (s.requests[q].stage == InWaiting && s.requests[q].group == h))
  }

  ghost predicate Untouching(s: State, s': State, t: Thread, h: GroupId) {
    && Leads(s, t, h) && h in s'.groups && s'.groups[h] == s.groups[h]
    && LeaderRole(s', h) == LeaderRole(s, h)
    && (Attached(s', h) <==> Attached(s, h)) && (Registered(s', h) <==> Registered(s, h))
    && (forall q :: Belongs(s, q, h) ==> q in s'.requests && s'.requests[q] == s.requests[q])
  }

  lemma BystanderGroup(s: State, s': State, t: Thread, h: GroupId)
    requires Local(s, s', t) && Untouching(s, s', t, h) && GroupOk(s, h)
    ensures GroupOk(s', h)
  {
    assert Belongs(s, h, h);
    forall i | 0 <= i < |s.groups[h].waiting| ensures Belongs(s, s.groups[h].waiting[i], h) {
    }
    forall i | 0 <= i < |s.groups[h].others| ensures OtherOk(s', h, s.groups[h].others[i]) {
      assert OtherOk(s, h, s.groups[h].others[i]);
      assert Belongs(s, s.groups[h].others[i].req, h);
    }
  }

  // A request of t that the step does not touch.
  lemma BystanderRequest(s: State, s': State, t: Thread, r: Req)
    requires Local(s, s', t) && r in s.requests && r in s'.requests && s'.requests[r] == s.requests[r]
    requires RequestOk(s, r)
    requires s.requests[r].stage == Handling ==> Carries(s'.PcOf(s.requests[r].thread), r)
    requires s.requests[r].stage == InWaiting ==> r in s'.Home(r).waiting
    requires s.requests[r].stage.Deferred? ==>
               Other(r, s.requests[r].group) in s'.GroupOf(s.requests[r].stage.host).others
    ensures RequestOk(s', r)
  {
  }

  lemma GroupsBut(s: State, s': State, t: Thread, g: GroupId)
    requires Inv(s) && Local(s, s', t) && GroupOk(s', g)
    requires forall h :: Leads(s', t, h) && h != g ==> Untouching(s, s', t, h)
    ensures OwnGroups(s', t)
  {
    forall h | Leads(s', t, h) ensures GroupOk(s', h) {
      if h != g {
        assert GroupOk(s, h);
        BystanderGroup(s, s', t, h);
      }
    }
  }

  lemma GroupsKept(s: State, s': State, t: Thread)
    requires Inv(s) && Local(s, s', t)
    requires forall h :: Leads(s', t, h) ==> Untouching(s, s', t, h)
    ensures OwnGroups(s', t)
  {
    forall h | Leads(s', t, h) ensures GroupOk(s', h) {
      assert GroupOk(s, h);
      BystanderGroup(s, s', t, h);
    }
  }

  // Lists lose at most request r.
  ghost predicate ListsKeep(s: State, s': State, r: Req) {
    && (forall g, q :: g in s.groups && q in s.groups[g].waiting && q != r ==> q in s'.GroupOf(g).waiting)
    && (forall g, o :: g in s.groups && o in s.groups[g].others && o.req != r ==> o in s'.GroupOf(g).others)
  }

  // No record but that of r changes, and the thread goes on working for the others.
  ghost predicate RecordsKeep(s: State, s': State, t: Thread, r: Req) {
    && (forall q :: q in s.requests && q != r ==> q in s'.requests && s'.requests[q] == s.requests[q])
    && (forall q :: q in s'.requests && q != r ==> q in s.requests)
    && (forall q :: q != r && Carries(s.PcOf(t), q) ==> Carries(s'.PcOf(t), q))
  }

  lemma RequestsBut(s: State, s': State, t: Thread, r: Req)
    requires Inv(s) && Local(s, s', t) && RecordsKeep(s, s', t, r) && ListsKeep(s, s', r)
    requires r in s'.requests ==> RequestOk(s', r)
    ensures OwnRequests(s', t)
  {
    forall q | q in s'.requests && s'.requests[q].thread == t ensures RequestOk(s', q) {
      if q != r {
        assert RequestOk(s, q);
        BystanderRequest(s, s', t, q);
      }
    }
  }

  lemma TablesKept(s: State, s': State, t: Thread)
    requires TablesOk(s) && Local(s, s', t) && s'.attached == s.attached && s'.leads == s.leads
    requires forall slot :: slot in s'.cache ==> slot in s.cache
    ensures OwnTables(s', t)
  {
    forall key ensures LedOk(s', t, key) && AttachedOk(s', key) {
      assert LedOk(s, t, key) && AttachedOk(s, key);
    }
    forall slot | slot in s'.cache ensures SlotOk(s', slot) {
      assert SlotOk(s, slot);
    }
  }

  lemma LogKept(s: State, s': State)
    requires ServedOnce(s) && s'.served == s.served
    requires forall r :: r in s.requests && s.requests[r].stage.Served? ==>
               r in s'.requests && s'.requests[r] == s.requests[r]
    ensures ServedOnce(s')
  {
    forall i ensures ServiceOk(s', i) {
      assert ServiceOk(s, i);
    }
  }

  // One more request is served.
  lemma LogExtended(s: State, s': State, r: Req, e: GroupId)
    requires ServedOnce(s) && s'.served == s.served + [Service(r, e)]
    requires r in s.requests && !s.requests[r].stage.Served?
    requires r in s'.requests && s'.requests[r].stage == Served(e)
    requires forall q :: q in s.requests && q != r ==> q in s'.requests && s'.requests[q] == s.requests[q]
    ensures ServedOnce(s')
  {
    forall i ensures ServiceOk(s', i) {
      assert ServiceOk(s, i);
    }
    forall i, j | 0 <= i < j < |s'.served| ensures s'.served[i].req != s'.served[j].req {
      assert ServiceOk(s, i);
    }
  }

  // The thread moves on inside its handler, for the same request and the same groups.
  ghost predicate MovesOn(s: State, t: Thread, pc: Pc) {
    && ThreadOk(s.Goto(t, pc), t)
    && (forall h :: Leads(s, t, h) ==> RoleOf(pc, h) == RoleOf(s.PcOf(t), h))
    && (forall r :: Carries(s.PcOf(t), r) ==> Carries(pc, r))
  }

  lemma GotoKeeps(s: State, t: Thread, pc: Pc)
    requires Inv(s) && MovesOn(s, t, pc)
    ensures Inv(s.Goto(t, pc)) && Local(s, s.Goto(t, pc), t)
  {
    GotoIsLocal(s, t, pc);
    GotoGroups(s, t, pc);
    GotoRequests(s, t, pc);
    TablesKept(s, s.Goto(t, pc), t);
    LogKept(s, s.Goto(t, pc));
    Assemble(s, s.Goto(t, pc), t);
  }

  lemma GotoIsLocal(s: State, t: Thread, pc: Pc)
    ensures Local(s, s.Goto(t, pc), t)
  {
  }

  lemma GotoGroups(s: State, t: Thread, pc: Pc)
    requires Inv(s)
    requires forall h :: Leads(s, t, h) ==> RoleOf(pc, h) == RoleOf(s.PcOf(t), h)
    ensures OwnGroups(s.Goto(t, pc), t)
  {
    var s' := s.Goto(t, pc);
    GotoIsLocal(s, t, pc);
    forall h | Leads(s', t, h) ensures GroupOk(s', h) {
      assert GroupOk(s, h) && Leads(s, t, h);
      BystanderGroup(s, s', t, h);
    }
  }

  lemma GotoRequests(s: State, t: Thread, pc: Pc)
    requires Inv(s) && forall r :: Carries(s.PcOf(t), r) ==> Carries(pc, r)
    ensures OwnRequests(s.Goto(t, pc), t)
  {
    forall r | r in s.requests && s.requests[r].thread == t ensures RequestOk(s.Goto(t, pc), r) {
      assert RequestOk(s, r);
    }
  }

  /* ---------- a step that changes at most one group and one request of t ---------- */

  ghost predicate SameGroups(s: State, s': State, t: Thread, g: GroupId) {
    || s'.groups == s.groups
    || (&& Leads(s, t, g) && g in s'.groups && s'.groups == s.groups[g := s'.groups[g]]
        && Grows(s.groups[g], s'.groups[g]))
  }

  ghost predicate SameRequests(s: State, s': State, t: Thread, r: Req) {
    && r in s.requests && s.requests[r].thread == t
    && r in s'.requests && s'.requests == s.requests[r := s'.requests[r]]
    && s'.requests[r] == s.requests[r].(stage := s'.requests[r].stage)
  }

  ghost predicate Change(s: State, s': State, t: Thread, g: GroupId, r: Req) {
    && SameGroups(s, s', t, g) && SameRequests(s, s', t, r)
    && s'.pcs == s.pcs[t := s'.PcOf(t)] && s'.attached == s.attached && s'.leads == s.leads && s.served <= s'.served
    && (forall h :: Leads(s, t, h) && h != g ==> RoleOf(s'.PcOf(t), h) == RoleOf(s.PcOf(t), h))
    && (forall q :: q != r && Carries(s.PcOf(t), q) ==> Carries(s'.PcOf(t), q))
    && (s'.requests[r] == s.requests[r] || forall h :: Leads(s, t, h) && h != g ==> !Belongs(s, r, h))
    && (forall q :: q in s.GroupOf(g).waiting && q != r ==> q in s'.GroupOf(g).waiting)
    && (forall o :: o in s.GroupOf(g).others && o.req != r ==> o in s'.GroupOf(g).others)
  }

  lemma ChangeIsLocal(s: State, s': State, t: Thread, g: GroupId, r: Req)
    requires Change(s, s', t, g, r)
    ensures Local(s, s', t)
  {
  }

  lemma ChangeLeaves(s: State, s': State, t: Thread, g: GroupId, r: Req, h: GroupId)
    requires Change(s, s', t, g, r) && Leads(s', t, h) && h != g
    ensures Untouching(s, s', t, h)
  {
  }

  lemma ChangeRecords(s: State, s': State, t: Thread, g: GroupId, r: Req)
    requires Change(s, s', t, g, r)
    ensures RecordsKeep(s, s', t, r) && ListsKeep(s, s', r)
  {
  }

  lemma ChangeGroups(s: State, s': State, t: Thread, g: GroupId, r: Req)
    requires Inv(s) && Change(s, s', t, g, r) && (Leads(s, t, g) ==> GroupOk(s', g))
    ensures OwnGroups(s', t)
  {
    ChangeIsLocal(s, s', t, g, r);
    forall h | Leads(s', t, h) ensures GroupOk(s', h) {
      if h != g {
        ChangeLeaves(s, s', t, g, r, h);
        BystanderGroup(s, s', t, h);
      }
    }
  }

  lemma ChangeKeeps(s: State, s': State, t: Thread, g: GroupId, r: Req)
    requires Inv(s) && Change(s, s', t, g, r) && (Leads(s, t, g) ==> GroupOk(s', g))
    requires ThreadOk(s', t) && RequestOk(s', r) && ServedOnce(s')
    requires forall slot :: slot in s'.cache ==> slot in s.cache
    ensures Inv(s') && Local(s, s', t)
  {
    ChangeIsLocal(s, s', t, g, r);
    ChangeGroups(s, s', t, g, r);
    ChangeRecords(s, s', t, g, r);
    RequestsBut(s, s', t, r);
    TablesKept(s, s', t);
    Assemble(s, s', t);
  }
}
