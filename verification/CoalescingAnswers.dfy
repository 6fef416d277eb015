/** What the origin's answer brings about: it is taken whatever it is, announced, and wakes those who wait. */
module CoalescingAnswers {
  import opened Blocks
  import opened LruSpec
  import opened Coalescing
  import opened CoalescingInvariant
  import opened CoalescingFrame
  import opened CoalescingSteps
  import opened CoalescingTheorems
  import opened CoalescingHistory
  import opened CoalescingLookups
  import opened CoalescingArrivals
  import opened CoalescingTimeouts

  // While its request is at the origin an idle leader takes the first answer, cacheable or not, if
  // it has announced none, and otherwise the end of the response.
  lemma AnswersAreTaken(s: State, g: GroupId, cacheable: bool)
    requires Reachable(s) && s.RequestOf(g).stage == AtOrigin && s.PcOf(s.RequestOf(g).thread) == Idle
    ensures g in s.groups && s.groups[g].leader == s.RequestOf(g).thread
    ensures Enabled(s, FirstHeaders(s.RequestOf(g).thread, g, cacheable)) <==> s.groups[g].response == None
    ensures Enabled(s, ResponseEnd(s.RequestOf(g).thread, g)) <==> s.groups[g].response == Some(g)
  {
    ReachableOk(s);
    assert RequestOk(s, g);
    assert GroupOk(s, g);
  }

  /* ---------- the announcement ---------- */

  // The handler of the first answer is on its way to announce it, or has done so.
  ghost predicate Announces(s: State, t: Thread, g: GroupId) {
    g in s.groups
    && (s.groups[g].response == Some(g) || s.PcOf(t) == InsertEntry(g) || s.PcOf(t) == Notify(g))
  }

  lemma AnnouncerMoves(s: State, t: Thread, g: GroupId, choice: Key)
    requires g in s.groups && (s.PcOf(t) == InsertEntry(g) || s.PcOf(t) == Notify(g))
    ensures Announces(AdvanceStep(s, t, choice), t, g)
  {
  }

  lemma StepKeepsAnnouncing(s: State, a: Action, t: Thread, g: GroupId)
    requires Inv(s) && Enabled(s, a) && Announces(s, t, g)
    ensures Announces(Next(s, a), t, g)
  {
    StepKeeps(s, a);
    if ThreadOf(a) == t && s.groups[g].response != Some(g) {
      AnnouncerMoves(s, t, g, a.choice);
    }
  }

  lemma {:induction false} RunAnnounces(s0: State, actions: seq<Action>, i: nat)
    requires Initial(s0) && Feasible(s0, actions) && i < |actions| && actions[i].FirstHeaders?
    ensures Announces(After(s0, actions), actions[i].thread, actions[i].group)
  {
    var front := Front(actions);
    RunKeeps(s0, front);
    if i < |front| {
      RunAnnounces(s0, front, i);
      StepKeepsAnnouncing(After(s0, front), Last(actions), actions[i].thread, actions[i].group);
    }
  }

  // A first answer comes once.
  lemma AnsweredOnce(s0: State, actions: seq<Action>, i: nat, j: nat)
    requires Initial(s0) && Feasible(s0, actions) && i < j < |actions| && actions[i].FirstHeaders?
    ensures !(actions[j].FirstHeaders? && actions[j].group == actions[i].group)
  {
    PrefixIsFeasible(s0, actions, j);
    PrefixIsFeasible(s0, actions, i);
    assert actions[..j][..i] == actions[..i];
    RunAnnounces(s0, actions[..j], i);
    SameLeader(s0, actions[..j], i);
  }

  lemma {:induction false} SameLeader(s0: State, actions: seq<Action>, i: nat)
    requires Initial(s0) && Feasible(s0, actions) && i < |actions| && actions[i].FirstHeaders?
    ensures Leads(After(s0, actions), actions[i].thread, actions[i].group)
  {
    var front := Front(actions);
    RunKeeps(s0, front);
    if i < |front| {
      SameLeader(s0, front, i);
      LeadsOn(After(s0, front), Last(actions), actions[i].thread, actions[i].group);
    }
  }

  lemma LeadsOn(s: State, a: Action, t: Thread, g: GroupId)
    requires Inv(s) && Enabled(s, a) && Leads(s, t, g)
    ensures Leads(Next(s, a), t, g)
  {
    StepKeeps(s, a);
  }

  // Whatever the status, by the time the handler of the first headers has returned they have been
  // announced, and the entry of the group is in the cache's history exactly if they were cacheable.
  lemma FirstAnswerIsAnnounced(s0: State, actions: seq<Action>, i: nat)
    requires Initial(s0) && Feasible(s0, actions) && i < |actions| && actions[i].FirstHeaders?
    requires After(s0, actions).PcOf(actions[i].thread) == Idle
    ensures var s, g := After(s0, actions), actions[i].group;
            && g in s.groups && s.groups[g].response == Some(g)
            && (actions[i].cacheable <==> Store(s.groups[g].key, g) in CacheOps(s0, actions))
  {
    var s, g := After(s0, actions), actions[i].group;
    RunAnnounces(s0, actions, i);
    if actions[i].cacheable {
      assert Approved(actions, g);
      CacheableAreInserted(s0, actions, g);
    } else if Store(s.groups[g].key, g) in CacheOps(s0, actions) {
      StoredWereCacheable(s0, actions, s.groups[g].key, g);
      var j :| 0 <= j < |actions| && actions[j].FirstHeaders? && actions[j].group == g && actions[j].cacheable;
      AnsweredOnce(s0, actions, if i < j then i else j, if i < j then j else i);
    }
  }

  /* ---------- those who wait ---------- */

  // A waiting thread goes on as soon as its request has been answered, whether or not the entry is
  // finished; until then its time can run out at any moment.
  lemma WaiterGoesOn(s: State, t: Thread, choice: Key)
    requires Reachable(s) && s.PcOf(t).WaitOnCv?
    ensures Enabled(s, Timeout(t))
    ensures Enabled(s, Advance(t, choice)) <==> s.Home(s.PcOf(t).req).response.Some?
  {
  }

  // Thread t is about to read entry e to request r, or has done so.
  ghost predicate OnTheWay(s: State, t: Thread, r: Req, e: GroupId) {
    && s.RequestOf(r).thread == t && r in s.requests && s.Home(r).response == Some(e)
    && (s.requests[r].stage == Served(e)
        || (Carries(s.PcOf(t), r) && (s.PcOf(t).WaitOnCv? || s.PcOf(t).CvPassed? || s.PcOf(t).Serve?)))
  }

  lemma WaiterMoves(s: State, t: Thread, r: Req, e: GroupId, choice: Key)
    requires ThreadOk(s, t) && OnTheWay(s, t, r, e) && Carries(s.PcOf(t), r) && r !in s.groups
    ensures var s' := AdvanceStep(s, t, choice);
            && r in s'.requests
            && (s'.requests[r].stage == Served(e)
                || (Carries(s'.PcOf(t), r) && (s'.PcOf(t).CvPassed? || s'.PcOf(t).Serve?)))
  {
  }

  lemma StepKeepsOnTheWay(s: State, a: Action, t: Thread, r: Req, e: GroupId)
    requires Inv(s) && Enabled(s, a) && OnTheWay(s, t, r, e)
    ensures OnTheWay(Next(s, a), t, r, e)
  {
    StepKeeps(s, a);
    HomeKeepsResponse(s, a, r);
    if s.requests[r].stage == Served(e) {
      SettledForGood(s, a, r);
    } else if ThreadOf(a) == t && a.Advance? {
      assert ThreadOk(s, t);
      AwaitsOthers(s, t, r);
      WaiterMoves(s, t, r, e, a.choice);
    }
  }

  // Once the response of the group of a waiting request has been announced, in every run from there on the
  // thread of the request does nothing but serve it from that response, and until it reads the entry
  // it is never blocked.
  lemma {:induction false} AnnouncedIsServed(s: State, actions: seq<Action>, t: Thread, e: GroupId)
    requires Reachable(s) && s.PcOf(t).WaitOnCv? && s.Home(s.PcOf(t).req).response == Some(e)
    requires Feasible(s, actions)
    ensures var s', r := After(s, actions), s.PcOf(t).req;
            && OnTheWay(s', t, r, e)
            && (s'.RequestOf(r).stage != Served(e) && !s'.PcOf(t).Serve? ==> !Blocked(s', t))
  {
    ReachableOk(s);
    var r := s.PcOf(t).req;
    if actions == [] {
      assert ThreadOk(s, t);
    } else {
      AnnouncedIsServed(s, Front(actions), t, e);
      EveryRunKeeps(s, Front(actions));
      StepKeepsOnTheWay(After(s, Front(actions)), Last(actions), t, r, e);
    }
  }

  /* ---------- those who do not wait ---------- */

  // A request is in the same group at any two moments.
  lemma SameGroup(s0: State, actions: seq<Action>, j: nat, r: Req)
    requires Initial(s0) && Feasible(s0, actions) && j <= |actions| && r in After(s0, actions[..j]).requests
    ensures After(s0, actions).RequestOf(r).group == After(s0, actions[..j]).RequestOf(r).group
  {
    PrefixIsFeasible(s0, actions, j);
    var i := ArrivalOf(s0, actions[..j], r);
    GroupAsJoined(s0, actions[..j], i);
    GroupAsJoined(s0, actions, i);
    assert actions[..j][..i + 1] == actions[..i + 1];
  }

  // The first request of a group never waits for another thread.
  lemma FirstIsInTime(s0: State, actions: seq<Action>, g: GroupId)
    requires Initial(s0) && Feasible(s0, actions) && g in After(s0, actions).groups
    ensures InTime(s0, actions, g)
  {
    RunKeeps(s0, actions);
    assert GroupOk(After(s0, actions), g);
    forall j: nat ensures !TimeIsUpAt(s0, actions, j, g) {
      FirstNeverWaits(s0, actions, g, j);
    }
  }

  lemma FirstNeverWaits(s0: State, actions: seq<Action>, g: GroupId, j: nat)
    requires Initial(s0) && Feasible(s0, actions) && After(s0, actions).RequestOf(g).group == g
    ensures !TimeIsUpAt(s0, actions, j, g)
  {
    if TimeIsUpAt(s0, actions, j, g) {
      PrefixIsReachable(s0, actions, j);
      FirstDoesNotWait(After(s0, actions[..j]), actions[j].thread, g);
      SameGroup(s0, actions, j, g);
    }
  }

  lemma FirstDoesNotWait(s: State, t: Thread, g: GroupId)
    requires Inv(s) && s.PcOf(t).WaitOnCv? && s.PcOf(t).req == g
    ensures g in s.requests && s.requests[g].group != g
  {
    assert ThreadOk(s, t);
    assert g in s.groups ==> GroupOk(s, g);
  }

  // So in a run that can go no further it has been served: from the entry that its lookup found, or, if
  // that found none, with the origin's answer to it.
  lemma FirstIsServed(s0: State, actions: seq<Action>, g: GroupId) returns (i: nat)
    requires Initial(s0) && Feasible(s0, actions) && Quiescent(After(s0, actions)) && g in After(s0, actions).groups
    ensures LookupAt(s0, actions, i, g)
    ensures After(s0, actions).RequestOf(g).stage
         == match FoundAt(s0, actions, i, g) case None => Served(g) case Some(e) => Served(e)
  {
    RunKeeps(s0, actions);
    assert GroupOk(After(s0, actions), g);
    FirstIsInTime(s0, actions, g);
    EveryoneIsServed(s0, actions, g);
    i := ResponseIsOwnOrFound(s0, actions, g);
  }
}
