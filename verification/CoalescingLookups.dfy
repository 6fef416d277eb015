/**
 What the lookup in the cache decides: the leader of a group goes to the origin if and only if
 its lookup missed, and a group whose lookup hit has that entry for its response and no other.
 */
module CoalescingLookups {
  import opened Blocks
  import opened LruSpec
  import opened Coalescing
  import opened CoalescingInvariant
  import opened CoalescingFrame
  import opened CoalescingSteps
  import opened CoalescingTheorems
  import opened CoalescingHistory

  // The leader of group g, whose first request is g, asks the cache.
  predicate LooksUp(s: State, a: Action, g: GroupId) {
    a.Advance? && s.PcOf(a.thread) == QueryCache(g)
  }

  // Action number i of the run is that lookup.
  predicate LookupAt(s0: State, actions: seq<Action>, i: nat, g: GroupId) {
    i < |actions| && LooksUp(After(s0, actions[..i]), actions[i], g)
  }

  // What the LRU cache holds at that moment, after the lookups and stores made before it.
  function FoundAt(s0: State, actions: seq<Action>, i: nat, g: GroupId): Option<GroupId>
    requires i < |actions|
  {
    Find(Run(s0.capacity, CacheOps(s0, actions[..i])), After(s0, actions[..i]).GroupOf(g).key)
  }

  /* ---------- what a state owes to the outcome of a lookup ---------- */

  // The outcome, if the lookup has been made: an entry or none.
  type Outcome = Option<Option<GroupId>>

  ghost predicate Decided(s: State, outcome: Outcome, g: GroupId) {
    if g !in s.groups then outcome == None else
    var group, p := s.groups[g], s.PcOf(s.groups[g].leader);
    match outcome
    case None => (p == Register(g) || p == QueryCache(g)) && group.entry == NoEntry && group.response == None
    case Some(None) => group.entry != NoEntry
    case Some(Some(e)) =>
      && group.entry == NoEntry
      && (group.response == Some(e) || (p == HitNotify(g, e) && group.response == None))
  }

  // A step that makes no entry and announces nothing.
  ghost predicate LeavesGroups(s: State, s': State) {
    forall g :: g in s.groups ==>
      && g in s'.groups && s'.groups[g].leader == s.groups[g].leader
      && s'.groups[g].entry == s.groups[g].entry && s'.groups[g].response == s.groups[g].response
  }

  lemma ClassifyingLeavesGroups(s: State, t: Thread, choice: Key)
    requires s.PcOf(t).Classify? || s.PcOf(t).TestLeads?
    ensures LeavesGroups(s, AdvanceStep(s, t, choice))
  {
  }

  lemma WaitingLeavesGroups(s: State, t: Thread, choice: Key)
    requires s.PcOf(t).WaitOnCv? || s.PcOf(t).CvPassed? || s.PcOf(t).Serve?
    ensures LeavesGroups(s, AdvanceStep(s, t, choice))
  {
  }

  lemma StartingLeavesGroups(s: State, t: Thread, choice: Key)
    requires s.PcOf(t).Register? || s.PcOf(t).HitServe? || s.PcOf(t).InsertEntry? || s.PcOf(t).Detach?
    ensures LeavesGroups(s, AdvanceStep(s, t, choice))
  {
  }

  lemma EndingLeavesGroups(s: State, t: Thread, choice: Key)
    requires s.PcOf(t).Leave? || s.PcOf(t).Attend? || s.PcOf(t).Release? || s.PcOf(t).Idle? || s.PcOf(t).ServeGroup?
    ensures LeavesGroups(s, AdvanceStep(s, t, choice))
  {
  }

  lemma HandOverLeavesGroups(s: State, t: Thread, g: GroupId, choice: Key)
    requires s.PcOf(t) == HandOver(g)
    ensures LeavesGroups(s, HandOverStep(s, t, g, choice))
  {
  }

  // Entries are made and responses announced by three steps of a handler.
  predicate Changes(p: Pc) {
    p.QueryCache? || p.HitNotify? || p.Notify?
  }

  lemma AdvanceLeavesGroups(s: State, t: Thread, choice: Key)
    requires !Changes(s.PcOf(t))
    ensures LeavesGroups(s, AdvanceStep(s, t, choice))
  {
    var p := s.PcOf(t);
    if p.Classify? || p.TestLeads? {
      ClassifyingLeavesGroups(s, t, choice);
    } else if p.WaitOnCv? || p.CvPassed? || p.Serve? {
      WaitingLeavesGroups(s, t, choice);
    } else if p.HandOver? {
      HandOverLeavesGroups(s, t, p.group, choice);
    } else if p.Register? || p.HitServe? || p.InsertEntry? || p.Detach? {
      StartingLeavesGroups(s, t, choice);
    } else {
      EndingLeavesGroups(s, t, choice);
    }
  }

  // The outcome after the step.
  function OutcomeOf(s: State, a: Action, g: GroupId, outcome: Outcome): Outcome {
    if LooksUp(s, a, g) then Some(Find(s.cache, s.GroupOf(g).key)) else outcome
  }

  // Steps of other threads.
  lemma OthersKeepDecided(s: State, a: Action, g: GroupId, outcome: Outcome)
    requires Inv(s) && Enabled(s, a) && g in s.groups && Decided(s, outcome, g) && s.groups[g].leader != ThreadOf(a)
    ensures Decided(Next(s, a), OutcomeOf(s, a, g, outcome), g)
  {
    StepKeeps(s, a);
    if LooksUp(s, a, g) {
      AsksForOwn(s, ThreadOf(a), g);
    }
    LocalKeepsDecided(s, Next(s, a), ThreadOf(a), g, outcome);
  }

  lemma AsksForOwn(s: State, t: Thread, g: GroupId)
    requires ThreadOk(s, t) && s.PcOf(t) == QueryCache(g)
    ensures Leads(s, t, g)
  {
  }

  lemma LocalKeepsDecided(s: State, s': State, t: Thread, g: GroupId, outcome: Outcome)
    requires Local(s, s', t) && g in s.groups && s.groups[g].leader != t && Decided(s, outcome, g)
    ensures Decided(s', outcome, g)
  {
  }

  lemma AskingDecides(s: State, t: Thread, choice: Key, g: GroupId, outcome: Outcome)
    requires ThreadOk(s, t) && Decided(s, outcome, g) && s.PcOf(t) == QueryCache(g)
    ensures Decided(AdvanceStep(s, t, choice), Some(Find(s.cache, s.GroupOf(g).key)), g)
  {
  }

  lemma AnnouncingDecides(s: State, t: Thread, choice: Key, g: GroupId, outcome: Outcome)
    requires ThreadOk(s, t) && g in s.groups && s.groups[g].leader == t && Decided(s, outcome, g)
    requires Changes(s.PcOf(t)) && s.PcOf(t) != QueryCache(g)
    ensures Decided(AdvanceStep(s, t, choice), outcome, g)
  {
  }

  lemma HandlerDecides(s: State, t: Thread, choice: Key, g: GroupId, outcome: Outcome)
    requires g in s.groups && s.groups[g].leader == t && Decided(s, outcome, g) && !Changes(s.PcOf(t))
    ensures Decided(AdvanceStep(s, t, choice), outcome, g)
  {
    AdvanceLeavesGroups(s, t, choice);
  }

  lemma OwnStepDecides(s: State, a: Action, g: GroupId, outcome: Outcome)
    requires Inv(s) && Enabled(s, a) && g in s.groups && Decided(s, outcome, g) && s.groups[g].leader == ThreadOf(a)
    ensures Decided(Next(s, a), OutcomeOf(s, a, g, outcome), g)
  {
    if a.Advance? {
      assert ThreadOk(s, a.thread);
      if s.PcOf(a.thread) == QueryCache(g) {
        AskingDecides(s, a.thread, a.choice, g, outcome);
      } else if Changes(s.PcOf(a.thread)) {
        AnnouncingDecides(s, a.thread, a.choice, g, outcome);
      } else {
        HandlerDecides(s, a.thread, a.choice, g, outcome);
      }
    } else {
      NewRequest(s, a);
      assert a.ResponseEnd? ==> GroupOk(s, a.group);
      IdleStepDecides(s, a, g, outcome);
    }
  }

  lemma NewRequest(s: State, a: Action)
    requires Inv(s) && Enabled(s, a)
    ensures a.Arrive? ==> a.req !in s.groups
  {
    assert a.Arrive? && a.req in s.groups ==> GroupOk(s, a.req);
  }

  // A thread that takes in a request or an answer, or gives up waiting, is not asking the cache.
  lemma IdleStepDecides(s: State, a: Action, g: GroupId, outcome: Outcome)
    requires Enabled(s, a) && !a.Advance? && g in s.groups && Decided(s, outcome, g)
    requires s.groups[g].leader == ThreadOf(a) && (a.Arrive? ==> a.req !in s.groups)
    requires a.ResponseEnd? ==> GroupOk(s, a.group)
    ensures Decided(Next(s, a), outcome, g)
  {
  }

  lemma NewGroupUndecided(s: State, a: Action, g: GroupId)
    requires Inv(s) && Enabled(s, a) && g !in s.groups
    ensures Decided(Next(s, a), OutcomeOf(s, a, g, None), g)
  {
    assert ThreadOk(s, ThreadOf(a));
    if a.Advance? {
      assert LedOk(s, a.thread, a.choice);
      GroupsOfAdvance(s, a.thread, a.choice, g);
    }
  }

  lemma GroupsOfAdvance(s: State, t: Thread, choice: Key, g: GroupId)
    requires ThreadOk(s, t) && LedOk(s, t, choice) && g !in s.groups
    ensures g !in AdvanceStep(s, t, choice).groups
  {
    var p := s.PcOf(t);
    if p.WaitOnCv? || p.CvPassed? || p.Serve? || p.Register? || p.HitServe? {
      RequestStepsMakeNone(s, t, choice);
    } else if p.InsertEntry? || p.Detach? || p.Leave? || p.Release? || p.Idle? {
      GroupStepsMakeNone(s, t, choice);
    }
  }

  lemma RequestStepsMakeNone(s: State, t: Thread, choice: Key)
    requires var p := s.PcOf(t); p.WaitOnCv? || p.CvPassed? || p.Serve? || p.Register? || p.HitServe?
    ensures AdvanceStep(s, t, choice).groups == s.groups
  {
  }

  lemma GroupStepsMakeNone(s: State, t: Thread, choice: Key)
    requires var p := s.PcOf(t); p.InsertEntry? || p.Detach? || p.Leave? || p.Release? || p.Idle?
    ensures AdvanceStep(s, t, choice).groups == s.groups
  {
  }

  lemma StepDecides(s: State, a: Action, g: GroupId, outcome: Outcome)
    requires Inv(s) && Enabled(s, a) && Decided(s, outcome, g)
    ensures Decided(Next(s, a), OutcomeOf(s, a, g, outcome), g)
  {
    if g !in s.groups {
      NewGroupUndecided(s, a, g);
    } else if s.groups[g].leader == ThreadOf(a) {
      OwnStepDecides(s, a, g, outcome);
    } else {
      OthersKeepDecided(s, a, g, outcome);
    }
  }

  /* ---------- runs ---------- */

  // The outcome of the lookup of group g in this run.
  function OutcomeIn(s0: State, actions: seq<Action>, g: GroupId): Outcome {
    if actions == [] then None
    else OutcomeOf(After(s0, Front(actions)), Last(actions), g, OutcomeIn(s0, Front(actions), g))
  }

  lemma {:induction false} RunDecides(s0: State, actions: seq<Action>, g: GroupId)
    requires Initial(s0) && Feasible(s0, actions)
    ensures Decided(After(s0, actions), OutcomeIn(s0, actions, g), g)
  {
    if actions != [] {
      RunDecides(s0, Front(actions), g);
      RunKeeps(s0, Front(actions));
      StepDecides(After(s0, Front(actions)), Last(actions), g, OutcomeIn(s0, Front(actions), g));
    }
  }

  // The lookup is made once.
  lemma LooksUpOnce(s: State, a: Action, g: GroupId, outcome: Outcome)
    requires Inv(s) && Decided(s, outcome, g) && LooksUp(s, a, g)
    ensures outcome == None && g in s.groups
  {
    assert ThreadOk(s, a.thread);
    AsksForOwn(s, a.thread, g);
  }

  lemma FoundIsOutcome(s0: State, actions: seq<Action>, g: GroupId)
    requires Initial(s0) && Feasible(s0, actions) && actions != []
    requires LookupAt(s0, actions, |actions| - 1, g)
    ensures OutcomeIn(s0, actions, g) == Some(FoundAt(s0, actions, |actions| - 1, g))
  {
    CacheFollowsLru(s0, Front(actions));
  }

  // The outcome is what the LRU cache held at the one moment of the lookup.
  lemma {:induction false} OutcomeTells(s0: State, actions: seq<Action>, g: GroupId, i: nat)
    requires Initial(s0) && Feasible(s0, actions) && LookupAt(s0, actions, i, g)
    ensures OutcomeIn(s0, actions, g) == Some(FoundAt(s0, actions, i, g))
  {
    if i == |actions| - 1 {
      FoundIsOutcome(s0, actions, g);
    } else {
      var front := Front(actions);
      assert front[..i] == actions[..i];
      OutcomeTells(s0, front, g, i);
      RunDecides(s0, front, g);
      RunKeeps(s0, front);
      if LooksUp(After(s0, front), Last(actions), g) {
        LooksUpOnce(After(s0, front), Last(actions), g, OutcomeIn(s0, front, g));
      }
    }
  }

  lemma {:induction false} LookupOf(s0: State, actions: seq<Action>, g: GroupId) returns (i: nat)
    requires OutcomeIn(s0, actions, g).Some?
    ensures LookupAt(s0, actions, i, g)
  {
    if LooksUp(After(s0, Front(actions)), Last(actions), g) {
      i := |actions| - 1;
    } else {
      i := LookupOf(s0, Front(actions), g);
      assert Front(actions)[..i] == actions[..i];
    }
  }

  // A request goes to the origin, and an entry is made, only after a lookup for it that missed.
  lemma OriginAfterMiss(s0: State, actions: seq<Action>, g: GroupId) returns (i: nat)
    requires Initial(s0) && Feasible(s0, actions)
    requires After(s0, actions).GroupOf(g).entry != NoEntry || After(s0, actions).RequestOf(g).stage == AtOrigin
    ensures LookupAt(s0, actions, i, g) && FoundAt(s0, actions, i, g) == None
  {
    RunDecides(s0, actions, g);
    RunKeeps(s0, actions);
    OriginHasGroup(After(s0, actions), g);
    i := LookupOf(s0, actions, g);
    OutcomeTells(s0, actions, g, i);
  }

  lemma OriginHasGroup(s: State, g: GroupId)
    requires Inv(s) && (s.GroupOf(g).entry != NoEntry || s.RequestOf(g).stage == AtOrigin)
    ensures g in s.groups && s.groups[g].entry != NoEntry
  {
    assert g in s.requests ==> RequestOk(s, g);
    assert g in s.groups ==> GroupOk(s, g);
  }

  // A lookup that misses makes the entry whose response the group will have.
  lemma MissGoesToOrigin(s0: State, actions: seq<Action>, g: GroupId, i: nat)
    requires Initial(s0) && Feasible(s0, actions) && LookupAt(s0, actions, i, g) && FoundAt(s0, actions, i, g) == None
    ensures var s := After(s0, actions);
            && g in s.groups && s.groups[g].entry != NoEntry
            && (s.groups[g].response == None || s.groups[g].response == Some(g))
  {
    OutcomeTells(s0, actions, g, i);
    RunDecides(s0, actions, g);
    RunKeeps(s0, actions);
    assert GroupOk(After(s0, actions), g);
  }

  // A lookup that hits starts no origin request: the group's response can only be what was found.
  lemma HitIsUsed(s0: State, actions: seq<Action>, g: GroupId, i: nat, e: GroupId)
    requires Initial(s0) && Feasible(s0, actions)
    requires LookupAt(s0, actions, i, g) && FoundAt(s0, actions, i, g) == Some(e)
    ensures var s := After(s0, actions);
            && g in s.groups && s.groups[g].entry == NoEntry && s.RequestOf(g).stage != AtOrigin
            && (s.groups[g].response == None || s.groups[g].response == Some(e))
            && (s.PcOf(s.groups[g].leader) == HitNotify(g, e) || s.groups[g].response == Some(e))
  {
    OutcomeTells(s0, actions, g, i);
    RunDecides(s0, actions, g);
    RunKeeps(s0, actions);
    assert GroupOk(After(s0, actions), g);
  }

  // Every response is the group's own, of a lookup that missed, or the one that its lookup found.
  lemma ResponseIsOwnOrFound(s0: State, actions: seq<Action>, g: GroupId) returns (i: nat)
    requires Initial(s0) && Feasible(s0, actions)
    requires g in After(s0, actions).groups && After(s0, actions).groups[g].response.Some?
    ensures LookupAt(s0, actions, i, g)
    ensures var e := After(s0, actions).groups[g].response.value;
            FoundAt(s0, actions, i, g) == if e == g then None else Some(e)
  {
    RunDecides(s0, actions, g);
    RunKeeps(s0, actions);
    assert GroupOk(After(s0, actions), g);
    i := LookupOf(s0, actions, g);
    OutcomeTells(s0, actions, g, i);
  }
}
