/** Which group a request joins when it arrives, and so what it can be served. */
module CoalescingArrivals {
  import opened Blocks
  import opened LruSpec
  import opened Coalescing
  import opened CoalescingInvariant
  import opened CoalescingSteps
  import opened CoalescingTheorems
  import opened CoalescingHistory
  import opened CoalescingLookups

  // An idle thread takes in any new request, under any key, whatever the other threads do.
  lemma ArrivalsAreTaken(s: State, t: Thread, r: Req, key: Key)
    requires Reachable(s) && s.PcOf(t) == Idle && r !in s.requests
    ensures Enabled(s, Arrive(t, r, key))
  {
  }

  // Afterwards the request's group is the one attached under its key: the one attached before if
  // there was one, whoever leads it, and otherwise a new one with this thread for its leader.
  lemma JoinsAttached(s: State, t: Thread, r: Req, key: Key)
    requires Reachable(s) && Enabled(s, Arrive(t, r, key))
    ensures var s' := Next(s, Arrive(t, r, key));
            && r in s'.requests && s'.requests[r].key == key && s'.requests[r].thread == t
            && key in s'.attached && s'.attached[key] == s'.requests[r].group && Attached(s', s'.requests[r].group)
            && s'.requests[r].group == (if key in s.attached then s.attached[key] else r)
            && (key !in s.attached ==> r !in s.groups && Leads(s', t, r))
  {
    ReachableOk(s);
    NewRequest(s, Arrive(t, r, key));
    assert AttachedOk(s, key);
  }

  /* ---------- runs ---------- */

  // The group attached under the key of a request just after it arrived, with action number i.
  function JoinedAt(s0: State, actions: seq<Action>, i: nat): GroupId
    requires i < |actions| && actions[i].Arrive?
  {
    var attached := After(s0, actions[..i + 1]).attached;
    if actions[i].key in attached then attached[actions[i].key] else actions[i].req
  }

  lemma PrefixIsFeasible(s0: State, actions: seq<Action>, i: nat)
    requires Feasible(s0, actions) && i <= |actions|
    ensures Feasible(s0, actions[..i])
    ensures i < |actions| ==> Enabled(After(s0, actions[..i]), actions[i])
    ensures i < |actions| ==> After(s0, actions[..i + 1]) == Next(After(s0, actions[..i]), actions[i])
  {
    if i < |actions| {
      FeasibleUpTo(s0, actions, i + 1);
      assert actions[..i + 1][..i] == actions[..i];
    } else {
      assert actions[..i] == actions;
    }
  }

  lemma {:induction false} FeasibleUpTo(s0: State, actions: seq<Action>, i: nat)
    requires Feasible(s0, actions) && i <= |actions|
    ensures Feasible(s0, actions[..i])
  {
    if i < |actions| {
      FeasibleUpTo(s0, Front(actions), i);
      assert Front(actions)[..i] == actions[..i];
    } else {
      assert actions[..i] == actions;
    }
  }

  lemma PrefixIsReachable(s0: State, actions: seq<Action>, i: nat)
    requires Initial(s0) && Feasible(s0, actions) && i <= |actions|
    ensures Feasible(s0, actions[..i]) && Reachable(After(s0, actions[..i])) && Inv(After(s0, actions[..i]))
  {
    PrefixIsFeasible(s0, actions, i);
    RunKeeps(s0, actions[..i]);
  }

  // A request stays for good in the group that was attached under its key when it arrived.
  lemma {:induction false} GroupAsJoined(s0: State, actions: seq<Action>, i: nat)
    requires Initial(s0) && Feasible(s0, actions) && i < |actions| && actions[i].Arrive?
    ensures var s := After(s0, actions);
            actions[i].req in s.requests && s.requests[actions[i].req].group == JoinedAt(s0, actions, i)
  {
    var a := actions[i];
    if i == |actions| - 1 {
      PrefixIsReachable(s0, actions, i);
      assert actions[..i + 1] == actions;
      JoinsAttached(After(s0, Front(actions)), a.thread, a.req, a.key);
    } else {
      var front := Front(actions);
      assert front[..i + 1] == actions[..i + 1];
      GroupAsJoined(s0, front, i);
      RunKeeps(s0, front);
      StepKeeps(After(s0, front), Last(actions));
    }
  }

  // Every request has arrived.
  lemma {:induction false} ArrivalOf(s0: State, actions: seq<Action>, r: Req) returns (i: nat)
    requires Initial(s0) && Feasible(s0, actions) && r in After(s0, actions).requests
    ensures i < |actions| && actions[i].Arrive? && actions[i].req == r
  {
    var front := Front(actions);
    if r in After(s0, front).requests {
      i := ArrivalOf(s0, front, r);
    } else {
      RunKeeps(s0, front);
      OnlyArrivalsAdd(After(s0, front), Last(actions), r);
      i := |actions| - 1;
    }
  }

  lemma OnlyArrivalsAdd(s: State, a: Action, r: Req)
    requires Inv(s) && Enabled(s, a) && r !in s.requests && r in Next(s, a).requests
    ensures a.Arrive? && a.req == r
  {
    if a.Advance? {
      AdvanceAddsNone(s, a.thread, a.choice);
    }
  }

  lemma AdvanceAddsNone(s: State, t: Thread, choice: Key)
    requires Inv(s)
    ensures AdvanceStep(s, t, choice).requests.Keys == s.requests.Keys
  {
    assert ThreadOk(s, t);
    var p := s.PcOf(t);
    if HasRequest(p) {
      RequestStepAddsNone(s, t, choice);
    } else if p.ServeGroup? || p.Attend? {
      assert GroupOk(s, p.group);
      ListStepAddsNone(s, t, p.group, choice);
    } else if p.HandOver? {
      HandOverAddsNone(s, t, p.group, choice);
    } else {
      OtherStepAddsNone(s, t, choice);
    }
  }

  lemma RequestStepAddsNone(s: State, t: Thread, choice: Key)
    requires ThreadOk(s, t) && HasRequest(s.PcOf(t))
    ensures AdvanceStep(s, t, choice).requests.Keys == s.requests.Keys
  {
    HandledIsKnown(s, t);
  }

  lemma HandledIsKnown(s: State, t: Thread)
    requires ThreadOk(s, t) && HasRequest(s.PcOf(t))
    ensures s.PcOf(t).req in s.requests
  {
  }

  lemma ListStepAddsNone(s: State, t: Thread, g: GroupId, choice: Key)
    requires (s.PcOf(t) == ServeGroup(g) || s.PcOf(t) == Attend(g)) && GroupOk(s, g)
    ensures AdvanceStep(s, t, choice).requests.Keys == s.requests.Keys
  {
    assert s.GroupOf(g).others != [] ==> OtherOk(s, g, s.GroupOf(g).others[0]);
  }

  lemma HandOverAddsNone(s: State, t: Thread, g: GroupId, choice: Key)
    requires s.PcOf(t) == HandOver(g)
    ensures HandOverStep(s, t, g, choice).requests.Keys == s.requests.Keys
  {
  }

  lemma OtherStepAddsNone(s: State, t: Thread, choice: Key)
    requires var p := s.PcOf(t); !HasRequest(p) && !p.ServeGroup? && !p.Attend? && !p.HandOver?
    ensures AdvanceStep(s, t, choice).requests.Keys == s.requests.Keys
  {
  }

  // A group that is off the map when a request arrives is not the group of that request, then or later.
  lemma NeverAStaleGroup(s0: State, actions: seq<Action>, i: nat, h: GroupId)
    requires Initial(s0) && Feasible(s0, actions) && i < |actions| && actions[i].Arrive?
    requires h in After(s0, actions[..i]).groups && !Attached(After(s0, actions[..i]), h)
    ensures After(s0, actions).RequestOf(actions[i].req).group != h
  {
    var s, a := After(s0, actions[..i]), actions[i];
    PrefixIsReachable(s0, actions, i);
    PrefixIsFeasible(s0, actions, i);
    GroupAsJoined(s0, actions, i);
    JoinsAttached(s, a.thread, a.req, a.key);
    DetachedForGood(s, a, h);
  }

  // What a served request was given is the response of the group that was attached under its key when
  // it arrived: the origin's answer to that group's first request, or the entry that the LRU cache
  // held when that first request was looked up.
  lemma ServedFromAttached(s0: State, actions: seq<Action>, i: nat, k: nat) returns (j: nat)
    requires Initial(s0) && Feasible(s0, actions) && i < |actions| && actions[i].Arrive?
    requires k < |After(s0, actions).served| && After(s0, actions).served[k].req == actions[i].req
    ensures var s, g, e := After(s0, actions), JoinedAt(s0, actions, i), After(s0, actions).served[k].entry;
            && g in s.groups && s.groups[g].key == actions[i].key && s.groups[g].response == Some(e)
            && LookupAt(s0, actions, j, g)
            && FoundAt(s0, actions, j, g) == if e == g then None else Some(e)
  {
    GroupAsJoined(s0, actions, i);
    RequestsAsArrived(s0, actions, i);
    RunKeeps(s0, actions);
    ServedFromOwnGroup(After(s0, actions), k);
    assert GroupOk(After(s0, actions), JoinedAt(s0, actions, i));
    assert RequestOk(After(s0, actions), actions[i].req);
    j := ResponseIsOwnOrFound(s0, actions, JoinedAt(s0, actions, i));
  }
}
