/** The two lists of a group are queues: requests join at the end and are taken from the front. */
module CoalescingQueues {
  import opened LruSpec
  import opened Coalescing
  import opened CoalescingInvariant
  import opened CoalescingTheorems

  // Something joined at the end, the first was taken, or nothing changed.
  predicate QueueStep<T(==)>(q: seq<T>, q': seq<T>) {
    q <= q' || (q != [] && q' == q[1..])
  }

  // The whole list of deferred requests went to the end of another group's, in order.
  predicate HandedOver(s: State, s': State, g: GroupId) {
    && s'.GroupOf(g).others == []
    && exists h :: h in s.groups && h != g && h in s'.groups
                   && s'.groups[h].others == s.groups[h].others + s.GroupOf(g).others
  }

  ghost predicate ListsStep(s: State, s': State) {
    forall g :: g in s.groups ==>
      && QueueStep(s.groups[g].waiting, s'.GroupOf(g).waiting)
      && (QueueStep(s.groups[g].others, s'.GroupOf(g).others) || HandedOver(s, s', g))
  }

  lemma StartingQueues(s: State, t: Thread, choice: Key)
    requires Starting(s.PcOf(t))
    ensures ListsStep(s, AdvanceStep(s, t, choice))
  {
  }

  lemma ServingQueues(s: State, t: Thread, choice: Key)
    requires Serving(s.PcOf(t))
    ensures ListsStep(s, AdvanceStep(s, t, choice))
  {
  }

  lemma ClassifyingQueues(s: State, t: Thread, choice: Key)
    requires s.PcOf(t).Classify? || s.PcOf(t).TestLeads?
    ensures ListsStep(s, AdvanceStep(s, t, choice))
  {
  }

  lemma WaitingQueues(s: State, t: Thread, choice: Key)
    requires s.PcOf(t).WaitOnCv? || s.PcOf(t).CvPassed? || s.PcOf(t).Serve?
    ensures ListsStep(s, AdvanceStep(s, t, choice))
  {
  }

  lemma AttendQueues(s: State, t: Thread, g: GroupId)
    ensures ListsStep(s, AttendStep(s, t, g))
  {
  }

  lemma EndingQueues(s: State, t: Thread, choice: Key)
    requires s.PcOf(t).Detach? || s.PcOf(t).Leave? || s.PcOf(t).Release? || s.PcOf(t).Idle?
    ensures ListsStep(s, AdvanceStep(s, t, choice))
  {
  }

  lemma HandOverQueues(s: State, t: Thread, g: GroupId, choice: Key)
    requires s.PcOf(t) == HandOver(g) && g in s.groups
    requires choice in s.LeadsOf(t) ==> s.LeadsOf(t)[choice] in s.groups
    ensures ListsStep(s, HandOverStep(s, t, g, choice))
  {
    if choice in s.LeadsOf(t) && s.LeadsOf(t)[choice] != g {
      var h, s' := s.LeadsOf(t)[choice], HandOverStep(s, t, g, choice);
      assert s'.groups[h].others == s.groups[h].others + s.GroupOf(g).others;
    }
  }

  lemma HandOverTargets(s: State, t: Thread, g: GroupId, choice: Key)
    requires Inv(s) && s.PcOf(t) == HandOver(g)
    ensures g in s.groups && (choice in s.LeadsOf(t) ==> s.LeadsOf(t)[choice] in s.groups)
  {
    assert ThreadOk(s, t) && LedOk(s, t, choice);
  }

  lemma AdvanceQueues(s: State, t: Thread, choice: Key)
    requires Inv(s)
    ensures ListsStep(s, AdvanceStep(s, t, choice))
  {
    var p := s.PcOf(t);
    if Starting(p) {
      StartingQueues(s, t, choice);
    } else if Serving(p) {
      ServingQueues(s, t, choice);
    } else if p.Classify? || p.TestLeads? {
      ClassifyingQueues(s, t, choice);
    } else if HasRequest(p) {
      WaitingQueues(s, t, choice);
    } else if p.Attend? {
      AttendQueues(s, t, p.group);
    } else if p.HandOver? {
      HandOverTargets(s, t, p.group, choice);
      HandOverQueues(s, t, p.group, choice);
    } else {
      EndingQueues(s, t, choice);
    }
  }

  lemma ResponseQueues(s: State, a: Action)
    requires a.FirstHeaders? || a.ResponseEnd? || a.Timeout?
    ensures ListsStep(s, Next(s, a))
  {
  }

  lemma ListsAreQueues(s: State, a: Action)
    requires Reachable(s) && Enabled(s, a)
    ensures ListsStep(s, Next(s, a))
  {
    ReachableOk(s);
    match a
    case Arrive(t, r, key) => ArriveQueues(s, t, r, key);
    case Advance(t, choice) => AdvanceQueues(s, t, choice);
    case _ => ResponseQueues(s, a);
  }

  lemma ArriveQueues(s: State, t: Thread, r: Req, key: Key)
    requires Inv(s) && r !in s.requests
    ensures ListsStep(s, ArriveStep(s, t, r, key))
  {
    assert r in s.groups ==> GroupOk(s, r);
    OldGroupsStay(s, t, r, key);
  }

  lemma OldGroupsStay(s: State, t: Thread, r: Req, key: Key)
    requires r !in s.groups
    ensures ListsStep(s, ArriveStep(s, t, r, key))
  {
  }
}
