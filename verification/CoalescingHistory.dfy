/** What a reachable state owes to the actions that led to it. */
module CoalescingHistory {
  import opened Blocks
  import opened LruSpec
  import opened Coalescing
  import opened CoalescingInvariant
  import opened CoalescingSteps
  import opened CoalescingTheorems

  lemma RunKeeps(s0: State, actions: seq<Action>)
    requires Initial(s0) && Feasible(s0, actions)
    ensures Inv(After(s0, actions))
  {
    InitialOk(s0);
    EveryRunKeeps(s0, actions);
  }

  /* ---------- requests ---------- */

  // A request keeps the thread it came in on and the key it asked for.
  lemma {:induction false} RequestsAsArrived(s0: State, actions: seq<Action>, i: nat)
    requires Initial(s0) && Feasible(s0, actions) && i < |actions| && actions[i].Arrive?
    ensures var s, a := After(s0, actions), actions[i];
            a.req in s.requests && s.requests[a.req].thread == a.thread && s.requests[a.req].key == a.key
  {
    var front := Front(actions);
    if i < |front| {
      RequestsAsArrived(s0, front, i);
      RunKeeps(s0, front);
      StepKeeps(After(s0, front), actions[|front|]);
    }
  }

  /* ---------- cacheable responses ---------- */

  // The origin answered the group's first request with a cacheable status.
  predicate Approved(actions: seq<Action>, g: GroupId) {
    exists i :: 0 <= i < |actions| && actions[i].FirstHeaders? && actions[i].group == g && actions[i].cacheable
  }

  lemma ApprovedStays(actions: seq<Action>, g: GroupId)
    requires actions != []
    ensures Approved(Front(actions), g) ==> Approved(actions, g)
    ensures Approved(actions, g) ==>
              Approved(Front(actions), g) || Last(actions) == FirstHeaders(Last(actions).thread, g, true)
  {
    if Approved(Front(actions), g) {
      var i :| 0 <= i < |Front(actions)| && Front(actions)[i].FirstHeaders? && Front(actions)[i].group == g
               && Front(actions)[i].cacheable;
      assert actions[i] == Front(actions)[i];
    }
    if Approved(actions, g) {
      var i :| 0 <= i < |actions| && actions[i].FirstHeaders? && actions[i].group == g && actions[i].cacheable;
      if i < |actions| - 1 {
        assert Front(actions)[i] == actions[i];
      }
    }
  }

  // A thread comes to insert an entry only through cacheable first headers.
  lemma ComesToInsert(s: State, a: Action, t: Thread, g: GroupId)
    requires Inv(s) && Enabled(s, a) && Next(s, a).PcOf(t) == InsertEntry(g)
    ensures (t != ThreadOf(a) && s.PcOf(t) == InsertEntry(g)) || a == FirstHeaders(t, g, true)
  {
    StepKeeps(s, a);
    if a.Advance? {
      AdvanceKeepsTables(s, a.thread, a.choice);
    }
  }

  // Every slot of the cache was there before or is the one the thread inserts.
  lemma ComesToBeCached(s: State, a: Action, slot: Slot<GroupId>)
    requires Enabled(s, a) && slot in Next(s, a).cache
    ensures slot in s.cache || (a.Advance? && s.PcOf(a.thread) == InsertEntry(slot.value))
  {
    CacheStep(s, a);
    if CacheOp(s, a) != [] {
      match CacheOp(s, a)[0]
      case Lookup(key) => AtKeepsSlots(s.cache, key);
      case Store(key, g) => InsertKeepsSlots(s.capacity, s.cache, key, g);
    }
  }

  // Only responses with a cacheable status are ever inserted.
  lemma {:induction false} CachedWereCacheable(s0: State, actions: seq<Action>)
    requires Initial(s0) && Feasible(s0, actions)
    ensures forall slot :: slot in After(s0, actions).cache ==> Approved(actions, slot.value)
    ensures forall t :: After(s0, actions).PcOf(t).InsertEntry? ==>
              Approved(actions, After(s0, actions).PcOf(t).group)
  {
    if actions != [] {
      var before, a := After(s0, Front(actions)), actions[|actions| - 1];
      var s := After(s0, actions);
      CachedWereCacheable(s0, Front(actions));
      RunKeeps(s0, Front(actions));
      forall slot | slot in s.cache ensures Approved(actions, slot.value) {
        ComesToBeCached(before, a, slot);
        ApprovedStays(actions, slot.value);
      }
      forall t | s.PcOf(t).InsertEntry? ensures Approved(actions, s.PcOf(t).group) {
        ComesToInsert(before, a, t, s.PcOf(t).group);
        ApprovedStays(actions, s.PcOf(t).group);
      }
    }
  }

  // Nor is any other ever inserted.
  lemma {:induction false} StoredWereCacheable(s0: State, actions: seq<Action>, key: Key, g: GroupId)
    requires Initial(s0) && Feasible(s0, actions) && Store(key, g) in CacheOps(s0, actions)
    ensures Approved(actions, g)
  {
    ApprovedStays(actions, g);
    if Store(key, g) in CacheOps(s0, Front(actions)) {
      StoredWereCacheable(s0, Front(actions), key, g);
    } else {
      CachedWereCacheable(s0, Front(actions));
    }
  }

  // Its entry has been inserted under its key, or its leader is about to insert it.
  ghost predicate InsertedOrPending(s0: State, actions: seq<Action>, g: GroupId) {
    var s := After(s0, actions);
    && g in s.groups
    && (Store(s.groups[g].key, g) in CacheOps(s0, actions) || s.PcOf(s.groups[g].leader) == InsertEntry(g))
  }

  lemma StaysInserted(s0: State, actions: seq<Action>, g: GroupId)
    requires Initial(s0) && Feasible(s0, actions) && actions != [] && InsertedOrPending(s0, Front(actions), g)
    ensures InsertedOrPending(s0, actions, g)
  {
    var before, a := After(s0, Front(actions)), actions[|actions| - 1];
    RunKeeps(s0, Front(actions));
    StepKeeps(before, a);
    if before.PcOf(before.groups[g].leader) == InsertEntry(g) && ThreadOf(a) == before.groups[g].leader {
      assert ThreadOk(before, before.groups[g].leader);
    }
  }

  lemma {:induction false} ApprovedIsInserted(s0: State, actions: seq<Action>, g: GroupId)
    requires Initial(s0) && Feasible(s0, actions) && Approved(actions, g)
    ensures InsertedOrPending(s0, actions, g)
  {
    ApprovedStays(actions, g);
    if Approved(Front(actions), g) {
      ApprovedIsInserted(s0, Front(actions), g);
      StaysInserted(s0, actions, g);
    }
  }

  // A cacheable response is in the cache's history by the time it is announced.
  lemma CacheableAreInserted(s0: State, actions: seq<Action>, g: GroupId)
    requires Initial(s0) && Feasible(s0, actions) && Approved(actions, g)
    requires g in After(s0, actions).groups && After(s0, actions).groups[g].response.Some?
    ensures Store(After(s0, actions).groups[g].key, g) in CacheOps(s0, actions)
  {
    ApprovedIsInserted(s0, actions, g);
    RunKeeps(s0, actions);
    assert ThreadOk(After(s0, actions), After(s0, actions).groups[g].leader);
  }
}
