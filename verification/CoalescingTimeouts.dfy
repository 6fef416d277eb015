/**
 Requests that give up waiting: those whose wait was ended by a timeout before their group had a
 response, and which still had none when they looked. All others are served.
 */
module CoalescingTimeouts {
  import opened Blocks
  import opened LruSpec
  import opened Coalescing
  import opened CoalescingInvariant
  import opened CoalescingFrame
  import opened CoalescingSteps
  import opened CoalescingTheorems
  import opened CoalescingHistory
  import opened CoalescingProgress

  /* ---------- one step ---------- */

  // A group that a request has found stays its group, with any response it has.
  lemma HomeKeepsResponse(s: State, a: Action, r: Req)
    requires Inv(s) && Enabled(s, a) && r in s.requests && s.Home(r).response.Some?
    ensures Next(s, a).Home(r).response == s.Home(r).response
  {
    StepKeeps(s, a);
    assert RequestOk(s, r);
  }

  // A request gives up only when its thread looks for the response and there is none, and a thread
  // wakes up only when its request has been answered or the time is up.
  ghost predicate GivesUpRightly(s: State, s': State, t: Thread, timeout: bool) {
    && (forall r :: r in s'.requests && s'.requests[r].stage == TimedOut ==>
          || (r in s.requests && s.requests[r].stage == TimedOut)
          || (!timeout && s.PcOf(t).CvPassed? && s.PcOf(t).req == r && s.Home(r).response == None))
    && (s'.PcOf(t).CvPassed? ==>
          && s.PcOf(t).WaitOnCv? && s.PcOf(t).req == s'.PcOf(t).req
          && (timeout || s.Home(s.PcOf(t).req).response.Some?))
  }

  lemma LeaderGivesUpRightly(s: State, t: Thread, choice: Key)
    requires s.PcOf(t).Register? || s.PcOf(t).QueryCache? || s.PcOf(t).HitNotify? || s.PcOf(t).HitServe?
    ensures GivesUpRightly(s, AdvanceStep(s, t, choice), t, false)
  {
  }

  lemma ClassifyingGivesUpRightly(s: State, t: Thread, choice: Key)
    requires s.PcOf(t).Classify? || s.PcOf(t).TestLeads?
    ensures GivesUpRightly(s, AdvanceStep(s, t, choice), t, false)
  {
  }

  lemma WaitingGivesUpRightly(s: State, t: Thread, choice: Key)
    requires !Blocked(s, t) && (s.PcOf(t).WaitOnCv? || s.PcOf(t).CvPassed? || s.PcOf(t).Serve?)
    ensures GivesUpRightly(s, AdvanceStep(s, t, choice), t, false)
  {
  }

  lemma ServingGivesUpRightly(s: State, t: Thread, choice: Key)
    requires Serving(s.PcOf(t)) || s.PcOf(t).Detach?
    ensures GivesUpRightly(s, AdvanceStep(s, t, choice), t, false)
  {
  }

  lemma EndingGivesUpRightly(s: State, t: Thread, choice: Key)
    requires s.PcOf(t).Leave? || s.PcOf(t).Attend? || s.PcOf(t).Release? || s.PcOf(t).Idle?
    ensures GivesUpRightly(s, AdvanceStep(s, t, choice), t, false)
  {
  }

  lemma HandOverGivesUpRightly(s: State, t: Thread, g: GroupId, choice: Key)
    requires s.PcOf(t) == HandOver(g)
    ensures GivesUpRightly(s, HandOverStep(s, t, g, choice), t, false)
  {
  }

  lemma NextGivesUpRightly(s: State, a: Action)
    requires Enabled(s, a)
    ensures GivesUpRightly(s, Next(s, a), ThreadOf(a), a.Timeout?)
  {
    if a.Advance? {
      var p := s.PcOf(a.thread);
      if p.HandOver? {
        HandOverGivesUpRightly(s, a.thread, p.group, a.choice);
      } else if Serving(p) || p.Detach? {
        ServingGivesUpRightly(s, a.thread, a.choice);
      } else if !HasRequest(p) {
        EndingGivesUpRightly(s, a.thread, a.choice);
      } else if p.Classify? || p.TestLeads? {
        ClassifyingGivesUpRightly(s, a.thread, a.choice);
      } else if p.WaitOnCv? || p.CvPassed? || p.Serve? {
        WaitingGivesUpRightly(s, a.thread, a.choice);
      } else {
        LeaderGivesUpRightly(s, a.thread, a.choice);
      }
    }
  }

  lemma CvRequest(s: State, t: Thread)
    requires Inv(s) && (s.PcOf(t).WaitOnCv? || s.PcOf(t).CvPassed?)
    ensures s.PcOf(t).req in s.requests
  {
    assert ThreadOk(s, t);
  }

  /* ---------- runs with timeouts ---------- */

  // Action number j is the end of the time of the thread that waits for request r.
  predicate TimeIsUpAt(s0: State, actions: seq<Action>, j: nat, r: Req) {
    j < |actions| && actions[j].Timeout?
    && After(s0, actions[..j]).PcOf(actions[j].thread).WaitOnCv?
    && After(s0, actions[..j]).PcOf(actions[j].thread).req == r
  }

  // ... and the group of r had no response then.
  predicate LateAt(s0: State, actions: seq<Action>, j: nat, r: Req) {
    TimeIsUpAt(s0, actions, j, r) && After(s0, actions[..j]).Home(r).response == None
  }

  // With action number i, later than j, the request gives up, and there still is no response.
  predicate GivesUpAt(s0: State, actions: seq<Action>, j: nat, i: nat, r: Req) {
    && j < i < |actions| && LateAt(s0, actions, j, r)
    && After(s0, actions[..i]).RequestOf(r).stage != TimedOut
    && After(s0, actions[..i + 1]).RequestOf(r).stage == TimedOut
    && After(s0, actions[..i]).Home(r).response == None
  }

  ghost predicate WasLate(s0: State, actions: seq<Action>, r: Req) {
    exists j: nat :: LateAt(s0, actions, j, r)
  }

  ghost predicate GaveUp(s0: State, actions: seq<Action>, r: Req) {
    exists j: nat, i: nat :: GivesUpAt(s0, actions, j, i, r)
  }

  lemma StaysLate(s0: State, actions: seq<Action>, r: Req)
    requires actions != []
    ensures WasLate(s0, Front(actions), r) ==> WasLate(s0, actions, r)
    ensures GaveUp(s0, Front(actions), r) ==> GaveUp(s0, actions, r)
  {
    if j: nat :| LateAt(s0, Front(actions), j, r) {
      assert Front(actions)[..j] == actions[..j];
      assert LateAt(s0, actions, j, r);
    }
    if j: nat, i: nat :| GivesUpAt(s0, Front(actions), j, i, r) {
      assert Front(actions)[..j] == actions[..j] && Front(actions)[..i] == actions[..i];
      assert Front(actions)[..i + 1] == actions[..i + 1];
      assert GivesUpAt(s0, actions, j, i, r);
    }
  }

  // A thread that looks for a response that is not there was too late.
  ghost predicate LookersWereLate(s0: State, actions: seq<Action>) {
    forall t :: After(s0, actions).PcOf(t).CvPassed?
                && After(s0, actions).Home(After(s0, actions).PcOf(t).req).response == None ==>
      WasLate(s0, actions, After(s0, actions).PcOf(t).req)
  }

  lemma LookerWasLate(s0: State, actions: seq<Action>, t: Thread, r: Req)
    requires Initial(s0) && Feasible(s0, actions) && actions != [] && LookersWereLate(s0, Front(actions))
    requires After(s0, actions).PcOf(t).CvPassed? && After(s0, actions).PcOf(t).req == r
    requires After(s0, actions).Home(r).response == None
    ensures WasLate(s0, actions, r)
  {
    var s, a := After(s0, Front(actions)), Last(actions);
    RunKeeps(s0, Front(actions));
    StepKeeps(s, a);
    NextGivesUpRightly(s, a);
    CvRequest(s, t);
    if s.Home(r).response.Some? {
      HomeKeepsResponse(s, a, r);
    }
    if t == ThreadOf(a) {
      assert LateAt(s0, actions, |actions| - 1, r);
    } else {
      StaysLate(s0, actions, r);
    }
  }

  lemma {:induction false} EveryLookerWasLate(s0: State, actions: seq<Action>)
    requires Initial(s0) && Feasible(s0, actions)
    ensures LookersWereLate(s0, actions)
  {
    if actions != [] {
      EveryLookerWasLate(s0, Front(actions));
      var s := After(s0, actions);
      forall t | s.PcOf(t).CvPassed? && s.Home(s.PcOf(t).req).response == None
        ensures WasLate(s0, actions, s.PcOf(t).req)
      {
        LookerWasLate(s0, actions, t, s.PcOf(t).req);
      }
    }
  }

  lemma JustGaveUp(s0: State, actions: seq<Action>, r: Req)
    requires Initial(s0) && Feasible(s0, actions) && actions != []
    requires After(s0, actions).RequestOf(r).stage == TimedOut
    requires After(s0, Front(actions)).RequestOf(r).stage != TimedOut
    ensures GaveUp(s0, actions, r)
  {
    var front := Front(actions);
    NextGivesUpRightly(After(s0, front), Last(actions));
    EveryLookerWasLate(s0, front);
    var j: nat :| LateAt(s0, front, j, r);
    assert front[..j] == actions[..j] && actions[..|front| + 1] == actions;
    assert GivesUpAt(s0, actions, j, |front|, r);
  }

  // A request that has timed out was timed out while its group had no response, and found none
  // when it looked for it later.
  lemma {:induction false} TimedOutRightly(s0: State, actions: seq<Action>, r: Req)
    requires Initial(s0) && Feasible(s0, actions) && After(s0, actions).RequestOf(r).stage == TimedOut
    ensures GaveUp(s0, actions, r)
  {
    if After(s0, Front(actions)).RequestOf(r).stage == TimedOut {
      TimedOutRightly(s0, Front(actions), r);
      StaysLate(s0, actions, r);
    } else {
      JustGaveUp(s0, actions, r);
    }
  }

  /* ---------- and they stay so ---------- */

  // A request that has been served or has given up is no business of anybody any more.
  lemma SettledForGood(s: State, a: Action, r: Req)
    requires Inv(s) && Enabled(s, a) && Settled(s, r)
    ensures r in Next(s, a).requests && Next(s, a).requests[r] == s.requests[r]
  {
    if !a.Advance? {
      OutsideLeavesSettled(s, a, r);
    } else if HasRequest(s.PcOf(a.thread)) {
      CarriedIsUnsettled(s, a.thread);
      RequestStepSpends(s, a.thread, a.choice);
    } else {
      GroupStepLeavesSettled(s, a.thread, a.choice, r);
    }
  }

  lemma OutsideLeavesSettled(s: State, a: Action, r: Req)
    requires Enabled(s, a) && !a.Advance? && Settled(s, r)
    ensures r in Next(s, a).requests && Next(s, a).requests[r] == s.requests[r]
  {
  }

  lemma CarriedIsUnsettled(s: State, t: Thread)
    requires Inv(s) && HasRequest(s.PcOf(t))
    ensures ThreadOk(s, t) && !Settled(s, s.PcOf(t).req)
  {
    assert ThreadOk(s, t);
  }

  lemma GroupStepLeavesSettled(s: State, t: Thread, choice: Key, r: Req)
    requires Inv(s) && !HasRequest(s.PcOf(t)) && Settled(s, r)
    ensures var s' := AdvanceStep(s, t, choice); r in s'.requests && s'.requests[r] == s.requests[r]
  {
    var p := s.PcOf(t);
    assert ThreadOk(s, t);
    if p.ServeGroup? || p.Attend? {
      assert GroupOk(s, p.group);
      ListLeavesSettled(s, t, p.group, choice, r);
    } else if p.HandOver? {
      HandOverLeavesSettled(s, t, p.group, choice, r);
    } else {
      OtherLeavesSettled(s, t, choice, r);
    }
  }

  lemma ListLeavesSettled(s: State, t: Thread, g: GroupId, choice: Key, r: Req)
    requires (s.PcOf(t) == ServeGroup(g) || s.PcOf(t) == Attend(g)) && GroupOk(s, g) && Settled(s, r)
    ensures var s' := AdvanceStep(s, t, choice); r in s'.requests && s'.requests[r] == s.requests[r]
  {
    assert s.GroupOf(g).others != [] ==> OtherOk(s, g, s.GroupOf(g).others[0]);
  }

  lemma HandOverLeavesSettled(s: State, t: Thread, g: GroupId, choice: Key, r: Req)
    requires s.PcOf(t) == HandOver(g) && Settled(s, r)
    ensures var s' := HandOverStep(s, t, g, choice); r in s'.requests && s'.requests[r] == s.requests[r]
  {
  }

  lemma OtherLeavesSettled(s: State, t: Thread, choice: Key, r: Req)
    requires var p := s.PcOf(t); !HasRequest(p) && !p.ServeGroup? && !p.Attend? && !p.HandOver?
    requires Settled(s, r)
    ensures var s' := AdvanceStep(s, t, choice); r in s'.requests && s'.requests[r] == s.requests[r]
  {
  }

  lemma {:induction false} StaysTimedOut(s0: State, actions: seq<Action>, i: nat, r: Req)
    requires Initial(s0) && Feasible(s0, actions) && i <= |actions|
    requires After(s0, actions[..i]).RequestOf(r).stage == TimedOut
    ensures After(s0, actions).RequestOf(r).stage == TimedOut
  {
    if i == |actions| {
      assert actions[..i] == actions;
    } else {
      var front := Front(actions);
      assert front[..i] == actions[..i];
      StaysTimedOut(s0, front, i, r);
      RunKeeps(s0, front);
      SettledForGood(After(s0, front), Last(actions), r);
    }
  }

  // After any run a request has timed out if and only if its time was up while its group had no
  // response, and it then looked for one and there still was none.
  lemma TimedOutIff(s0: State, actions: seq<Action>, r: Req)
    requires Initial(s0) && Feasible(s0, actions)
    ensures After(s0, actions).RequestOf(r).stage == TimedOut <==> GaveUp(s0, actions, r)
  {
    if After(s0, actions).RequestOf(r).stage == TimedOut {
      TimedOutRightly(s0, actions, r);
    }
    if j: nat, i: nat :| GivesUpAt(s0, actions, j, i, r) {
      StaysTimedOut(s0, actions, i + 1, r);
    }
  }

  /* ---------- who is served ---------- */

  // Whenever the time of the thread that waits for r is up, the group of r has its response.
  ghost predicate InTime(s0: State, actions: seq<Action>, r: Req) {
    forall j: nat :: TimeIsUpAt(s0, actions, j, r) ==> After(s0, actions[..j]).Home(r).response.Some?
  }

  // A run that can go no further has served every request whose response was announced before its
  // time was up, once, from the response of its own group.
  lemma EveryoneIsServed(s0: State, actions: seq<Action>, r: Req)
    requires Initial(s0) && Feasible(s0, actions) && InTime(s0, actions, r)
    requires Quiescent(After(s0, actions)) && r in After(s0, actions).requests
    ensures var s := After(s0, actions);
            && s.requests[r].stage.Served? && InLog(s, r)
            && s.Home(r).response == Some(s.requests[r].stage.entry)
  {
    Reaches(s0, actions);
    EverythingSettles(After(s0, actions), r);
    TimedOutIff(s0, actions, r);
    RunKeeps(s0, actions);
    ServedTells(After(s0, actions), r);
  }

  lemma Reaches(s0: State, actions: seq<Action>)
    requires Initial(s0) && Feasible(s0, actions)
    ensures Reachable(After(s0, actions))
  {
  }

  lemma ServedTells(s: State, r: Req)
    requires Inv(s) && r in s.requests && s.requests[r].stage.Served?
    ensures InLog(s, r) && s.Home(r).response == Some(s.requests[r].stage.entry)
  {
    LogTells(s, r);
    assert RequestOk(s, r);
  }
}
