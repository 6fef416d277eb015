/** Runs that take in no more requests are finite. */
module CoalescingProgress {
  import opened LruSpec
  import opened Coalescing
  import opened CoalescingInvariant
  import opened CoalescingFrame
  import opened CoalescingSteps
  import opened CoalescingTheorems

  /* ---------- sums over maps ---------- */

  ghost function Sum(m: map<nat, nat>): nat
    decreases |m|
  {
    if m == map[] then 0 else
    var k :| k in m;
    m[k] + Sum(m - {k})
  }

  // Any key may be counted first.
  lemma {:induction false} SumWithout(m: map<nat, nat>, k: nat)
    requires k in m
    ensures Sum(m) == m[k] + Sum(m - {k})
    decreases |m|
  {
    var j :| j in m && Sum(m) == m[j] + Sum(m - {j});
    if j != k {
      SumWithout(m - {j}, k);
      SumWithout(m - {k}, j);
      assert m - {j} - {k} == m - {k} - {j};
    }
  }

  lemma SumUpdate(m: map<nat, nat>, k: nat, v: nat)
    ensures Sum(m[k := v]) + (if k in m then m[k] else 0) == Sum(m) + v
  {
    SumWithout(m[k := v], k);
    if k in m {
      SumWithout(m, k);
      assert m[k := v] - {k} == m - {k};
    } else {
      assert m[k := v] - {k} == m;
    }
  }

  /* ---------- a bound on the steps left ---------- */

  function AttendingWeight(attending: Option<GroupId>): nat {
    if attending == None then 0 else 2
  }

  // Steps that a handler has left, apart from those for requests in lists.
  function PcWeight(p: Pc): nat {
    match p
    case Idle => 0
    case Register(_) => 12
    case QueryCache(_) => 11
    case HitNotify(_, _) => 8
    case HitServe(_, _) => 7
    case Classify(_) => 6
    case TestLeads(_) => 5
    case WaitOnCv(_, attending) => 3 + AttendingWeight(attending)
    case CvPassed(_, attending) => 2 + AttendingWeight(attending)
    case Serve(_, _, attending) => 1 + AttendingWeight(attending)
    case InsertEntry(_) => 0
    case Notify(_) => 0
    case Detach(_) => 6
    case ServeGroup(_) => 5
    case Leave(_) => 4
    case HandOver(_) => 3
    case Attend(_) => 2
    case Release => 1
  }

  // Steps still to be made for a request that no handler is working for.
  function RequestWeight(s: State, r: Req): nat {
    match s.RequestOf(r).stage
    case Handling => 0
    case InWaiting => 2
    case Deferred(_) => 4
    case AtOrigin =>
      if s.GroupOf(r).response != None then 7
      else if s.PcOf(s.RequestOf(r).thread) == Notify(r) then 8
      else if s.PcOf(s.RequestOf(r).thread) == InsertEntry(r) then 9
      else 10
    case Served(_) => 0
    case TimedOut => 0
  }

  function RequestWeights(s: State): map<nat, nat> {
    map r | r in s.requests :: RequestWeight(s, r)
  }

  function PcWeights(s: State): map<nat, nat> {
    map t | t in s.pcs :: PcWeight(s.pcs[t])
  }

  ghost function StepsLeft(s: State): nat {
    Sum(RequestWeights(s)) + Sum(PcWeights(s))
  }

  // A step of t changes no weight of a request, except that of r.
  ghost predicate Weighs(s: State, s': State, t: Thread, r: Req) {
    && s'.requests.Keys == s.requests.Keys
    && s'.pcs == s.pcs[t := s'.PcOf(t)]
    && (forall q :: q in s.requests && q != r ==> RequestWeight(s', q) == RequestWeight(s, q))
  }

  lemma WeightChange(s: State, s': State, t: Thread, r: Req)
    requires Weighs(s, s', t, r) && r in s.requests
    ensures StepsLeft(s') + RequestWeight(s, r) + PcWeight(s.PcOf(t))
         == StepsLeft(s) + RequestWeight(s', r) + PcWeight(s'.PcOf(t))
  {
    assert RequestWeights(s') == RequestWeights(s)[r := RequestWeight(s', r)];
    SumUpdate(RequestWeights(s), r, RequestWeight(s', r));
    assert PcWeights(s') == PcWeights(s)[t := PcWeight(s'.PcOf(t))];
    SumUpdate(PcWeights(s), t, PcWeight(s'.PcOf(t)));
  }

  lemma HandlerChange(s: State, s': State, t: Thread, r: Req)
    requires Weighs(s, s', t, r) && (r in s.requests ==> RequestWeight(s', r) == RequestWeight(s, r))
    ensures StepsLeft(s') + PcWeight(s.PcOf(t)) == StepsLeft(s) + PcWeight(s'.PcOf(t))
  {
    assert RequestWeights(s') == RequestWeights(s);
    assert PcWeights(s') == PcWeights(s)[t := PcWeight(s'.PcOf(t))];
    SumUpdate(PcWeights(s), t, PcWeight(s'.PcOf(t)));
  }

  predicate ConcernsOnly(p: Pc, r: Req) {
    (p.Notify? || p.InsertEntry?) ==> p.group == r
  }

  lemma OthersWeighTheSame(s: State, s': State, t: Thread, r: Req)
    requires s'.requests.Keys == s.requests.Keys && s'.pcs == s.pcs[t := s'.PcOf(t)]
    requires ConcernsOnly(s.PcOf(t), r) && ConcernsOnly(s'.PcOf(t), r)
    requires forall q :: q in s.requests && q != r ==> s'.requests[q] == s.requests[q]
    requires forall q :: q in s.requests && q != r ==> s'.GroupOf(q).response == s.GroupOf(q).response
    ensures Weighs(s, s', t, r)
  {
  }

  // The step works for r alone, and spends some weight on it.
  ghost predicate Spends(s: State, s': State, t: Thread, r: Req) {
    && s'.requests.Keys == s.requests.Keys && s'.pcs == s.pcs[t := s'.PcOf(t)]
    && ConcernsOnly(s.PcOf(t), r) && ConcernsOnly(s'.PcOf(t), r)
    && (forall q :: q in s.requests && q != r ==> s'.requests[q] == s.requests[q])
    && (forall q :: q in s.requests && q != r ==> s'.GroupOf(q).response == s.GroupOf(q).response)
    && PcWeight(s'.PcOf(t)) + (if r in s.requests then RequestWeight(s', r) else 0)
       < PcWeight(s.PcOf(t)) + (if r in s.requests then RequestWeight(s, r) else 0)
  }

  lemma SpendingDecreases(s: State, s': State, t: Thread, r: Req)
    requires Spends(s, s', t, r)
    ensures StepsLeft(s') < StepsLeft(s)
  {
    OthersWeighTheSame(s, s', t, r);
    if r in s.requests {
      WeightChange(s, s', t, r);
    } else {
      HandlerChange(s, s', t, r);
    }
  }

  /* ---------- every step spends some of it ---------- */

  lemma RegisterSpends(s: State, t: Thread, r: Req, choice: Key)
    requires ThreadOk(s, t) && s.PcOf(t) == Register(r)
    ensures Spends(s, AdvanceStep(s, t, choice), t, r)
  {
  }

  lemma QuerySpends(s: State, t: Thread, r: Req, choice: Key)
    requires ThreadOk(s, t) && s.PcOf(t) == QueryCache(r)
    ensures Spends(s, AdvanceStep(s, t, choice), t, r)
  {
  }

  lemma HitSpends(s: State, t: Thread, r: Req, e: GroupId, choice: Key)
    requires ThreadOk(s, t) && (s.PcOf(t) == HitNotify(r, e) || s.PcOf(t) == HitServe(r, e))
    ensures Spends(s, AdvanceStep(s, t, choice), t, r)
  {
  }

  lemma ClassifySpends(s: State, t: Thread, r: Req, choice: Key)
    requires ThreadOk(s, t) && s.PcOf(t) == Classify(r)
    ensures Spends(s, AdvanceStep(s, t, choice), t, r)
  {
  }

  lemma TestLeadsSpends(s: State, t: Thread, r: Req, choice: Key)
    requires ThreadOk(s, t) && s.PcOf(t) == TestLeads(r)
    ensures Spends(s, AdvanceStep(s, t, choice), t, r)
  {
  }

  lemma WakeSpends(s: State, t: Thread, r: Req, attending: Option<GroupId>, choice: Key)
    requires ThreadOk(s, t) && s.PcOf(t) == WaitOnCv(r, attending)
    ensures Spends(s, AdvanceStep(s, t, choice), t, r)
  {
  }

  lemma AnsweredSpends(s: State, t: Thread, r: Req, attending: Option<GroupId>)
    requires ThreadOk(s, t) && s.PcOf(t) == CvPassed(r, attending) && s.Home(r).response.Some?
    ensures Spends(s, CvPassedStep(s, t, r, attending), t, r)
  {
  }

  lemma TimedOutSpends(s: State, t: Thread, r: Req, attending: Option<GroupId>)
    requires ThreadOk(s, t) && s.PcOf(t) == CvPassed(r, attending) && s.Home(r).response == None
    ensures Spends(s, CvPassedStep(s, t, r, attending), t, r)
  {
  }

  lemma CvPassedSpends(s: State, t: Thread, r: Req, attending: Option<GroupId>, choice: Key)
    requires ThreadOk(s, t) && s.PcOf(t) == CvPassed(r, attending)
    ensures Spends(s, AdvanceStep(s, t, choice), t, r)
  {
    assert AdvanceStep(s, t, choice) == CvPassedStep(s, t, r, attending);
    if s.Home(r).response.Some? {
      AnsweredSpends(s, t, r, attending);
    } else {
      TimedOutSpends(s, t, r, attending);
    }
  }

  lemma ServeSpends(s: State, t: Thread, r: Req, e: GroupId, attending: Option<GroupId>, choice: Key)
    requires ThreadOk(s, t) && s.PcOf(t) == Serve(r, e, attending)
    ensures Spends(s, AdvanceStep(s, t, choice), t, r)
  {
  }

  lemma RequestStepSpends(s: State, t: Thread, choice: Key)
    requires ThreadOk(s, t) && HasRequest(s.PcOf(t))
    ensures Spends(s, AdvanceStep(s, t, choice), t, s.PcOf(t).req)
  {
    match s.PcOf(t)
    case Register(r) => RegisterSpends(s, t, r, choice);
    case QueryCache(r) => QuerySpends(s, t, r, choice);
    case HitNotify(r, e) => HitSpends(s, t, r, e, choice);
    case HitServe(r, e) => HitSpends(s, t, r, e, choice);
    case Classify(r) => ClassifySpends(s, t, r, choice);
    case TestLeads(r) => TestLeadsSpends(s, t, r, choice);
    case WaitOnCv(r, attending) => WakeSpends(s, t, r, attending, choice);
    case CvPassed(r, attending) => CvPassedSpends(s, t, r, attending, choice);
    case Serve(r, e, attending) => ServeSpends(s, t, r, e, attending, choice);
  }

  lemma AnnouncementSpends(s: State, t: Thread, g: GroupId, choice: Key)
    requires ThreadOk(s, t) && GroupOk(s, g) && (s.PcOf(t) == Notify(g) || s.PcOf(t) == InsertEntry(g))
    ensures Spends(s, AdvanceStep(s, t, choice), t, g)
  {
  }

  lemma ServeGroupDecreases(s: State, t: Thread, g: GroupId, choice: Key)
    requires ThreadOk(s, t) && GroupOk(s, g) && s.PcOf(t) == ServeGroup(g)
    ensures StepsLeft(AdvanceStep(s, t, choice)) < StepsLeft(s)
  {
    if s.groups[g].waiting == [] {
      HandlerSpends(s, AdvanceStep(s, t, choice), t);
    } else {
      SpendingDecreases(s, AdvanceStep(s, t, choice), t, s.groups[g].waiting[0]);
    }
  }

  lemma AttendDecreases(s: State, t: Thread, g: GroupId, choice: Key)
    requires ThreadOk(s, t) && GroupOk(s, g) && s.PcOf(t) == Attend(g)
    ensures StepsLeft(AdvanceStep(s, t, choice)) < StepsLeft(s)
  {
    if s.groups[g].others == [] {
      HandlerSpends(s, AdvanceStep(s, t, choice), t);
    } else {
      AttendFirstSpends(s, t, g, choice, s.groups[g].others[0]);
      SpendingDecreases(s, AdvanceStep(s, t, choice), t, s.groups[g].others[0].req);
    }
  }

  lemma AttendFirstSpends(s: State, t: Thread, g: GroupId, choice: Key, o: Other)
    requires s.PcOf(t) == Attend(g) && g in s.groups && s.groups[g].others != [] && s.groups[g].others[0] == o
    requires OtherOk(s, g, o)
    ensures Spends(s, AdvanceStep(s, t, choice), t, o.req)
  {
  }

  // The handler moves on, and requests and groups stay as they are.
  lemma HandlerSpends(s: State, s': State, t: Thread)
    requires s'.requests == s.requests && s'.groups == s.groups && s'.pcs == s.pcs[t := s'.PcOf(t)]
    requires !s.PcOf(t).Notify? && !s.PcOf(t).InsertEntry? && !s'.PcOf(t).Notify? && !s'.PcOf(t).InsertEntry?
    requires PcWeight(s'.PcOf(t)) < PcWeight(s.PcOf(t))
    ensures StepsLeft(s') < StepsLeft(s)
  {
    HandlerChange(s, s', t, 0);
  }

  lemma EndingDecreases(s: State, t: Thread, choice: Key)
    requires s.PcOf(t).Detach? || s.PcOf(t).Leave? || s.PcOf(t).Release?
    ensures StepsLeft(AdvanceStep(s, t, choice)) < StepsLeft(s)
  {
    HandlerSpends(s, AdvanceStep(s, t, choice), t);
  }

  // Deferred requests weigh the same wherever they are deferred.
  lemma HandOverWeight(s: State, t: Thread, g: GroupId, choice: Key, q: Req)
    requires s.PcOf(t) == HandOver(g) && (choice in s.LeadsOf(t) ==> s.LeadsOf(t)[choice] != g) && q in s.requests
    ensures q in AdvanceStep(s, t, choice).requests
    ensures RequestWeight(AdvanceStep(s, t, choice), q) == RequestWeight(s, q)
  {
    HandOverStage(s, t, g, choice, q);
  }

  lemma HandOverStage(s: State, t: Thread, g: GroupId, choice: Key, q: Req)
    requires s.PcOf(t) == HandOver(g) && (choice in s.LeadsOf(t) ==> s.LeadsOf(t)[choice] != g) && q in s.requests
    ensures var s' := HandOverStep(s, t, g, choice);
            && q in s'.requests && s'.requests[q].thread == s.requests[q].thread
            && (s'.requests[q].stage == s.requests[q].stage
                || (s'.requests[q].stage.Deferred? && s.requests[q].stage.Deferred?))
            && s'.GroupOf(q).response == s.GroupOf(q).response
            && (forall u :: u != t ==> s'.PcOf(u) == s.PcOf(u)) && (s'.PcOf(t) == Idle || s'.PcOf(t) == Attend(g))
  {
  }

  lemma HandOverDecreases(s: State, t: Thread, g: GroupId, choice: Key)
    requires s.PcOf(t) == HandOver(g) && (choice in s.LeadsOf(t) ==> s.LeadsOf(t)[choice] != g)
    ensures StepsLeft(AdvanceStep(s, t, choice)) < StepsLeft(s)
  {
    var s' := AdvanceStep(s, t, choice);
    forall q | q in s.requests ensures q in s'.requests && RequestWeight(s', q) == RequestWeight(s, q) {
      HandOverWeight(s, t, g, choice, q);
    }
    HandOverThread(s, t, g, choice);
    HandlerChange(s, s', t, g);
  }

  lemma HandOverThread(s: State, t: Thread, g: GroupId, choice: Key)
    requires s.PcOf(t) == HandOver(g) && (choice in s.LeadsOf(t) ==> s.LeadsOf(t)[choice] != g)
    ensures var s' := AdvanceStep(s, t, choice);
            && s'.requests.Keys == s.requests.Keys && s'.pcs == s.pcs[t := s'.PcOf(t)]
            && PcWeight(s'.PcOf(t)) < PcWeight(s.PcOf(t))
  {
  }

  // A thread hands over to another of its groups.
  lemma HandOverChoice(s: State, t: Thread, g: GroupId, choice: Key)
    requires Inv(s) && s.PcOf(t) == HandOver(g) && choice in s.LeadsOf(t)
    ensures s.LeadsOf(t)[choice] != g
  {
    assert ThreadOk(s, t) && LedOk(s, t, choice);
    assert GroupOk(s, g);
  }

  lemma GroupStepDecreases(s: State, t: Thread, choice: Key)
    requires Inv(s) && Enabled(s, Advance(t, choice)) && !HasRequest(s.PcOf(t))
    ensures StepsLeft(AdvanceStep(s, t, choice)) < StepsLeft(s)
  {
    var p := s.PcOf(t);
    assert ThreadOk(s, t);
    if p.Detach? || p.Leave? || p.Release? {
      EndingDecreases(s, t, choice);
    } else if p.HandOver? {
      if choice in s.LeadsOf(t) {
        HandOverChoice(s, t, p.group, choice);
      }
      HandOverDecreases(s, t, p.group, choice);
    } else if p.ServeGroup? {
      ServeGroupDecreases(s, t, p.group, choice);
    } else if p.Attend? {
      AttendDecreases(s, t, p.group, choice);
    } else {
      AnnouncementSpends(s, t, p.group, choice);
      SpendingDecreases(s, AdvanceStep(s, t, choice), t, p.group);
    }
  }

  lemma AdvanceDecreases(s: State, t: Thread, choice: Key)
    requires Inv(s) && Enabled(s, Advance(t, choice))
    ensures StepsLeft(AdvanceStep(s, t, choice)) < StepsLeft(s)
  {
    if HasRequest(s.PcOf(t)) {
      assert ThreadOk(s, t);
      RequestStepSpends(s, t, choice);
      SpendingDecreases(s, AdvanceStep(s, t, choice), t, s.PcOf(t).req);
    } else {
      GroupStepDecreases(s, t, choice);
    }
  }

  lemma ResponseSpends(s: State, a: Action)
    requires Enabled(s, a) && (a.FirstHeaders? || a.ResponseEnd?) && GroupOk(s, a.group)
    ensures Spends(s, Next(s, a), a.thread, a.group)
  {
  }

  // Every action but the arrival of a request brings the end nearer.
  lemma StepDecreases(s: State, a: Action)
    requires Inv(s) && Enabled(s, a) && !a.Arrive?
    ensures StepsLeft(Next(s, a)) < StepsLeft(s)
  {
    match a
    case FirstHeaders(t, g, _) =>
      assert GroupOk(s, g);
      ResponseSpends(s, a);
      SpendingDecreases(s, Next(s, a), t, g);
    case ResponseEnd(t, g) =>
      assert GroupOk(s, g);
      ResponseSpends(s, a);
      SpendingDecreases(s, Next(s, a), t, g);
    case Advance(t, choice) => AdvanceDecreases(s, t, choice);
    case Timeout(t) =>
      assert ThreadOk(s, t);
      WakeSpends(s, t, s.PcOf(t).req, s.PcOf(t).attending, "");
      SpendingDecreases(s, Next(s, a), t, s.PcOf(t).req);
  }

  predicate NoArrivals(actions: seq<Action>) {
    forall i :: 0 <= i < |actions| ==> !actions[i].Arrive?
  }

  // Without arrivals a run is no longer than the steps left at its start.
  lemma {:induction false} RunsAreFinite(s: State, actions: seq<Action>)
    requires Inv(s) && Feasible(s, actions) && NoArrivals(actions)
    ensures |actions| + StepsLeft(After(s, actions)) <= StepsLeft(s)
  {
    if actions != [] {
      var front, a := actions[..|actions| - 1], actions[|actions| - 1];
      RunsAreFinite(s, front);
      EveryRunKeeps(s, front);
      StepDecreases(After(s, front), a);
    }
  }
}
