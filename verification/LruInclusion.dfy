/** A smaller cache never hits where a larger one misses, on any trace. */
module LruInclusion {
  import opened LruSpec

  ghost predicate Subsequence<T>(a: seq<T>, b: seq<T>) {
    a == [] || (b != [] && if a[0] == b[0] then Subsequence(a[1..], b[1..]) else Subsequence(a, b[1..]))
  }

  lemma {:induction false} SubLonger<T>(a: seq<T>, b: seq<T>)
    requires b != [] && Subsequence(a, b[1..])
    ensures Subsequence(a, b)
    decreases |b|, 1
  {
    if a != [] && a[0] == b[0] {
      SubTail(a, b[1..]);
    }
  }

  lemma {:induction false} SubTail<T>(a: seq<T>, b: seq<T>)
    requires a != [] && Subsequence(a, b)
    ensures Subsequence(a[1..], b)
    decreases |b|, 2
  {
    if a[0] != b[0] {
      SubTail(a, b[1..]);
    }
    SubLonger(a[1..], b);
  }

  lemma {:induction false} SubLength<T>(a: seq<T>, b: seq<T>)
    requires Subsequence(a, b)
    ensures |a| <= |b|
    ensures |a| == |b| ==> a == b
    ensures forall x :: x in a ==> x in b
  {
    if a != [] {
      assert b == [b[0]] + b[1..] && a == [a[0]] + a[1..];
      if a[0] == b[0] {
        SubLength(a[1..], b[1..]);
      } else {
        SubLength(a, b[1..]);
      }
    }
  }

  lemma {:induction false} SubFronts<T>(a: seq<T>, b: seq<T>)
    requires a != [] && Subsequence(a, b)
    ensures Subsequence(a[..|a| - 1], b[..|b| - 1])
    ensures Subsequence(a[..|a| - 1], b)
  {
    var a', b' := a[..|a| - 1], b[..|b| - 1];
    if a[0] == b[0] {
      if |a| > 1 {
        SubFronts(a[1..], b[1..]);
        assert a'[1..] == a[1..][..|a[1..]| - 1] && b'[1..] == b[1..][..|b[1..]| - 1];
      }
    } else {
      SubFronts(a, b[1..]);
      assert b'[1..] == b[1..][..|b[1..]| - 1];
      assert a' != [] ==> a'[0] == a[0];
    }
  }

  lemma {:induction false} SubWithout<V>(a: seq<Slot<V>>, b: seq<Slot<V>>, key: Key)
    requires Subsequence(a, b)
    ensures Subsequence(Without(a, key), Without(b, key))
  {
    if a != [] {
      if a[0] == b[0] {
        SubWithout(a[1..], b[1..], key);
      } else {
        SubWithout(a, b[1..], key);
        if b[0].key != key {
          assert Without(b, key)[1..] == Without(b[1..], key);
          SubLonger(Without(a, key), Without(b, key));
        }
      }
    }
  }

  lemma SameHit<V>(a: seq<Slot<V>>, b: seq<Slot<V>>, key: Key)
    requires Subsequence(a, b) && DistinctKeys(b) && Find(a, key).Some?
    ensures Find(b, key) == Find(a, key)
  {
    FindIff(a, key);
    SubLength(a, b);
    FindMember(b, Slot(key, Find(a, key).value));
  }

  // The small list is a subsequence of the large one, and only a full one is shorter.
  ghost predicate Included<V>(small: nat, a: seq<Slot<V>>, b: seq<Slot<V>>) {
    Subsequence(a, b) && |a| == if small < |b| then small else |b|
  }

  lemma LookupKeepsIncluded<V>(small: nat, a: seq<Slot<V>>, b: seq<Slot<V>>, key: Key)
    requires DistinctKeys(a) && DistinctKeys(b) && Included(small, a, b)
    ensures Included(small, At(a, key), At(b, key))
  {
    WithoutDistinct(a, key);
    WithoutDistinct(b, key);
    SubWithout(a, b, key);
    if Find(a, key).Some? {
      SameHit(a, b, key);
    } else if Find(b, key).Some? {
      WithoutAbsent(a, key);
      assert At(b, key)[1..] == Without(b, key);
      SubLonger(a, At(b, key));
    }
  }

  lemma StoreKeepsIncluded<V>(small: nat, large: nat, a: seq<Slot<V>>, b: seq<Slot<V>>, key: Key, value: V)
    requires small <= large && WellFormed(small, a) && WellFormed(large, b) && Included(small, a, b)
    ensures Included(small, Insert(small, a, key, value), Insert(large, b, key, value))
  {
    WithoutDistinct(a, key);
    WithoutDistinct(b, key);
    SubWithout(a, b, key);
    var a', b' := [Slot(key, value)] + Without(a, key), [Slot(key, value)] + Without(b, key);
    assert a'[1..] == Without(a, key) && b'[1..] == Without(b, key);
    SubFronts(a', b');
    if Find(a, key).Some? {
      SameHit(a, b, key);
    }
    if |a| == |b| {
      SubLength(a, b);
    }
  }

  // For every trace and any two capacities.
  lemma {:induction false} Inclusion<V>(small: nat, large: nat, ops: seq<Op<V>>)
    requires small <= large
    ensures Included(small, Run(small, ops), Run(large, ops))
  {
    if ops != [] {
      var ops', op := ops[..|ops| - 1], ops[|ops| - 1];
      Inclusion(small, large, ops');
      RunIsWellFormed(small, ops');
      RunIsWellFormed(large, ops');
      match op
      case Lookup(key) => LookupKeepsIncluded(small, Run(small, ops'), Run(large, ops'), key);
      case Store(key, value) => StoreKeepsIncluded(small, large, Run(small, ops'), Run(large, ops'), key, value);
    }
  }

  lemma HitsAreKept<V>(small: nat, large: nat, ops: seq<Op<V>>, key: Key)
    requires small <= large && Find(Run(small, ops), key).Some?
    ensures Find(Run(large, ops), key) == Find(Run(small, ops), key)
  {
    Inclusion(small, large, ops);
    RunIsWellFormed(large, ops);
    SameHit(Run(small, ops), Run(large, ops), key);
  }
}
