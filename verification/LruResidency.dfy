/** Which keys are resident after a run, told from the trace alone. */
module LruResidency {
  import opened LruSpec

  // The slots a trace touches, in order: every store, and every lookup that hits.
  ghost function Touched<V>(capacity: nat, ops: seq<Op<V>>): seq<Slot<V>> {
    if ops == [] then [] else
    var ops', op := ops[..|ops| - 1], ops[|ops| - 1];
    Touched(capacity, ops') +
    match op
    case Store(key, value) => [Slot(key, value)]
    case Lookup(key) =>
      match Find(Run(capacity, ops'), key)
      case None => []
      case Some(v) => [Slot(key, v)]
  }

  // Unbounded move-to-front.
  ghost function Recency<V>(ts: seq<Slot<V>>): seq<Slot<V>> {
    if ts == [] then [] else
    var t := ts[|ts| - 1];
    [t] + Without(Recency(ts[..|ts| - 1]), t.key)
  }

  ghost function Take<T>(s: seq<T>, n: nat): seq<T> {
    if |s| <= n then s else s[..n]
  }

  // The other keys touched since the last touch of this one.
  ghost function OthersSince<V>(ts: seq<Slot<V>>, key: Key): set<Key> {
    if ts == [] || ts[|ts| - 1].key == key then {}
    else OthersSince(ts[..|ts| - 1], key) + {ts[|ts| - 1].key}
  }

  ghost function LastTouch<V>(ts: seq<Slot<V>>, key: Key): Option<V> {
    if ts == [] then None
    else if ts[|ts| - 1].key == key then Some(ts[|ts| - 1].value)
    else LastTouch(ts[..|ts| - 1], key)
  }

  // The value most recently inserted for a key.
  ghost function LastStored<V>(ops: seq<Op<V>>, key: Key): Option<V> {
    if ops == [] then None
    else if ops[|ops| - 1].Store? && ops[|ops| - 1].key == key then Some(ops[|ops| - 1].value)
    else LastStored(ops[..|ops| - 1], key)
  }

  lemma {:induction false} RecencyDistinct<V>(ts: seq<Slot<V>>)
    ensures DistinctKeys(Recency(ts))
  {
    if ts != [] {
      var t := ts[|ts| - 1];
      RecencyDistinct(ts[..|ts| - 1]);
      FrontSlot(Recency(ts[..|ts| - 1]), t.key, t.value);
    }
  }

  lemma {:induction false} WithoutConcat<V>(a: seq<Slot<V>>, b: seq<Slot<V>>, key: Key)
    ensures Without(a + b, key) == Without(a, key) + Without(b, key)
  {
    if a == [] {
      assert a + b == b;
    } else {
      assert (a + b)[1..] == a[1..] + b;
      WithoutConcat(a[1..], b, key);
    }
  }

  /* ---------- the cache is the front of the recency list ---------- */

  lemma DistinctPart<V>(l: seq<Slot<V>>, n: nat)
    requires DistinctKeys(l) && n <= |l|
    ensures DistinctKeys(l[..n]) && DistinctKeys(l[n..])
  {
  }

  lemma TakeFront<T>(a: seq<T>, b: seq<T>, n: nat)
    requires n <= |a|
    ensures Take(a + b, n) == a[..n] == Take(a, n)
  {
  }

  lemma WithoutFromFront<V>(s: seq<Slot<V>>, near: seq<Slot<V>>, far: seq<Slot<V>>, key: Key)
    ensures s + Without(near + far, key) == (s + Without(near, key)) + Without(far, key)
  {
    WithoutConcat(near, far, key);
  }

  // Touching a slot commutes with cutting the list to the capacity.
  lemma TouchTake<V>(capacity: nat, l: seq<Slot<V>>, t: Slot<V>)
    requires DistinctKeys(l)
    ensures Insert(capacity, Take(l, capacity), t.key, t.value) == Take([t] + Without(l, t.key), capacity)
  {
    if |l| <= capacity {
      WithoutDistinct(l, t.key);
    } else {
      var near, far := l[..capacity], l[capacity..];
      assert l == near + far;
      DistinctPart(l, capacity);
      WithoutDistinct(near, t.key);
      WithoutFromFront([t], near, far, t.key);
      TakeFront([t] + Without(near, t.key), Without(far, t.key), capacity);
    }
  }

  lemma {:induction false} RunIsFrontOfRecency<V>(capacity: nat, ops: seq<Op<V>>)
    ensures Run(capacity, ops) == Take(Recency(Touched(capacity, ops)), capacity)
  {
    if ops != [] {
      var ops', op := ops[..|ops| - 1], ops[|ops| - 1];
      var ts, l := Touched(capacity, ops'), Run(capacity, ops');
      RunIsFrontOfRecency(capacity, ops');
      RecencyDistinct(ts);
      match op
      case Store(key, value) =>
        AppendTouch(ts, Slot(key, value));
        TouchTake(capacity, Recency(ts), Slot(key, value));
      case Lookup(key) =>
        match Find(l, key)
        case None => assert ts + [] == ts;
        case Some(v) =>
          AppendTouch(ts, Slot(key, v));
          TouchTake(capacity, Recency(ts), Slot(key, v));
          HitIsInsert(capacity, l, key);
    }
  }

  lemma AppendTouch<V>(ts: seq<Slot<V>>, t: Slot<V>)
    ensures Recency(ts + [t]) == [t] + Without(Recency(ts), t.key)
  {
    assert (ts + [t])[..|ts|] == ts;
  }

  // A hit reorders the list exactly as storing the same value again would.
  lemma HitIsInsert<V>(capacity: nat, l: seq<Slot<V>>, key: Key)
    requires DistinctKeys(l) && |l| <= capacity && Find(l, key).Some?
    ensures At(l, key) == Insert(capacity, l, key, Find(l, key).value)
  {
    WithoutDistinct(l, key);
  }

  /* ---------- where a key stands in the recency list ---------- */

  lemma {:induction false} WithoutKeySet<V>(l: seq<Slot<V>>, key: Key)
    ensures KeySet(Without(l, key)) == KeySet(l) - {key}
  {
    if l != [] {
      WithoutKeySet(l[1..], key);
      KeySetCons(l[0], l[1..]);
      assert l == [l[0]] + l[1..];
      KeySetCons(l[0], Without(l[1..], key));
    }
  }

  lemma KeySetCons<V>(s: Slot<V>, l: seq<Slot<V>>)
    ensures KeySet([s] + l) == {s.key} + KeySet(l)
  {
    var m := [s] + l;
    assert forall i :: 1 <= i < |m| ==> m[i] == l[i - 1];
    forall k | k in KeySet(l) ensures k in KeySet(m) {
      var i :| 0 <= i < |l| && l[i].key == k;
      assert m[i + 1].key == k;
    }
    assert m[0].key in KeySet(m);
  }

  // A touched key comes right after the keys touched since.
  lemma {:induction false} Standing<V>(ts: seq<Slot<V>>, key: Key)
    returns (newer: seq<Slot<V>>, older: seq<Slot<V>>)
    requires LastTouch(ts, key).Some?
    ensures Recency(ts) == newer + [Slot(key, LastTouch(ts, key).value)] + older
    ensures KeySet(newer) == OthersSince(ts, key)
  {
    var ts', t := ts[..|ts| - 1], ts[|ts| - 1];
    if t.key == key {
      newer, older := [], Without(Recency(ts'), key);
    } else {
      var newer', older' := Standing(ts', key);
      var s := Slot(key, LastTouch(ts, key).value);
      newer, older := [t] + Without(newer', t.key), Without(older', t.key);
      WithoutConcat(newer' + [s], older', t.key);
      WithoutConcat(newer', [s], t.key);
      assert Without([s], t.key) == [s];
      WithoutKeySet(newer', t.key);
      KeySetCons(t, Without(newer', t.key));
    }
  }

  lemma {:induction false} NeverTouched<V>(ts: seq<Slot<V>>, key: Key)
    requires LastTouch(ts, key) == None
    ensures Lacks(Recency(ts), key)
  {
    if ts != [] {
      var t := ts[|ts| - 1];
      NeverTouched(ts[..|ts| - 1], key);
      WithoutLacks(Recency(ts[..|ts| - 1]), t.key, key);
    }
  }

  lemma FindInFront<V>(ts: seq<Slot<V>>, capacity: nat, key: Key)
    ensures Find(Take(Recency(ts), capacity), key)
         == if LastTouch(ts, key).Some? && |OthersSince(ts, key)| < capacity then LastTouch(ts, key) else None
  {
    var l := Recency(ts);
    var front := Take(l, capacity);
    RecencyDistinct(ts);
    DistinctPart(l, |front|);
    FindIff(front, key);
    if LastTouch(ts, key) == None {
      NeverTouched(ts, key);
    } else {
      var newer, older := Standing(ts, key);
      var n := |newer|;
      assert l[n] == Slot(key, LastTouch(ts, key).value);
      assert newer == l[..n];
      DistinctPart(l, n);
      DistinctCount(newer);
      if n < capacity {
        assert front[n] == l[n];
        FindMember(front, l[n]);
      } else {
        assert forall i :: 0 <= i < |front| ==> front[i] == l[i] && l[i].key != l[n].key;
      }
    }
  }

  /* ---------- residency ---------- */

  lemma {:induction false} TouchesCarryStores<V>(capacity: nat, ops: seq<Op<V>>, key: Key)
    ensures LastTouch(Touched(capacity, ops), key) == LastStored(ops, key)
  {
    if ops != [] {
      var ops', op := ops[..|ops| - 1], ops[|ops| - 1];
      var ts := Touched(capacity, ops');
      TouchesCarryStores(capacity, ops', key);
      if op.Lookup? && Find(Run(capacity, ops'), op.key) == None {
        assert Touched(capacity, ops) == ts;
      } else {
        var t := Touched(capacity, ops)[|ts|];
        assert Touched(capacity, ops) == ts + [t] && (ts + [t])[..|ts|] == ts;
        if op.Lookup? && op.key == key {
          RunIsFrontOfRecency(capacity, ops');
          FindInFront(ts, capacity, key);
        }
      }
    }
  }

  // After any run a key is found exactly when it was ever inserted and fewer than
  // `capacity` other keys were inserted or hit since its own last insert or hit;
  // what is found is the value inserted last.
  lemma Residency<V>(capacity: nat, ops: seq<Op<V>>, key: Key)
    ensures Find(Run(capacity, ops), key)
         == if LastStored(ops, key).Some? && |OthersSince(Touched(capacity, ops), key)| < capacity
            then LastStored(ops, key) else None
  {
    RunIsFrontOfRecency(capacity, ops);
    FindInFront(Touched(capacity, ops), capacity, key);
    TouchesCarryStores(capacity, ops, key);
  }
}
