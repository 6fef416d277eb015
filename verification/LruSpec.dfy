/** The LRU cache as a sequence of slots, most recently used first, and what its runs guarantee. */
module LruSpec {
  type Key = string

  datatype Option<+T> = None | Some(value: T)

  datatype Slot<V> = Slot(key: Key, value: V)

  ghost predicate DistinctKeys<V>(l: seq<Slot<V>>) {
    forall i, j :: 0 <= i < j < |l| ==> l[i].key != l[j].key
  }

  function Without<V>(l: seq<Slot<V>>, key: Key): seq<Slot<V>> {
    if l == [] then []
    else if l[0].key == key then Without(l[1..], key)
    else [l[0]] + Without(l[1..], key)
  }

  function Find<V>(l: seq<Slot<V>>, key: Key): Option<V> {
    if l == [] then None else if l[0].key == key then Some(l[0].value) else Find(l[1..], key)
  }

  // A hit moves the slot to the front; a miss changes nothing.
  function At<V>(l: seq<Slot<V>>, key: Key): seq<Slot<V>> {
    match Find(l, key)
    case None => l
    case Some(v) => [Slot(key, v)] + Without(l, key)
  }

  // The new slot replaces any old one for the key; an overflow costs the last slot.
  function Insert<V>(capacity: nat, l: seq<Slot<V>>, key: Key, value: V): seq<Slot<V>> {
    var l' := [Slot(key, value)] + Without(l, key);
    if |l'| > capacity then l'[..|l'| - 1] else l'
  }

  datatype Op<V> = Lookup(key: Key) | Store(key: Key, value: V)

  function Apply<V>(capacity: nat, l: seq<Slot<V>>, op: Op<V>): seq<Slot<V>> {
    match op
    case Lookup(key) => At(l, key)
    case Store(key, value) => Insert(capacity, l, key, value)
  }

  // The cache after a trace of operations on an empty cache.
  function Run<V>(capacity: nat, ops: seq<Op<V>>): seq<Slot<V>> {
    if ops == [] then [] else Apply(capacity, Run(capacity, ops[..|ops| - 1]), ops[|ops| - 1])
  }

  /* ---------- well-formed lists ---------- */

  ghost predicate WellFormed<V>(capacity: nat, l: seq<Slot<V>>) {
    DistinctKeys(l) && |l| <= capacity
  }

  ghost predicate Lacks<V>(l: seq<Slot<V>>, key: Key) {
    forall i :: 0 <= i < |l| ==> l[i].key != key
  }

  lemma {:induction false} FindIff<V>(l: seq<Slot<V>>, key: Key)
    ensures Find(l, key) == None <==> Lacks(l, key)
    ensures Find(l, key).Some? ==> Slot(key, Find(l, key).value) in l
  {
    if l != [] {
      FindIff(l[1..], key);
      assert forall i :: 0 < i < |l| ==> l[i] == l[1..][i - 1];
    }
  }

  // A slot of a list with distinct keys is the one found for its key.
  lemma FindMember<V>(l: seq<Slot<V>>, slot: Slot<V>)
    requires DistinctKeys(l) && slot in l
    ensures Find(l, slot.key) == Some(slot.value)
  {
    FindIff(l, slot.key);
    var i :| 0 <= i < |l| && l[i] == slot;
  }

  lemma {:induction false} WithoutLacks<V>(l: seq<Slot<V>>, key: Key, other: Key)
    ensures Lacks(Without(l, key), key)
    ensures Lacks(l, other) ==> Lacks(Without(l, key), other)
  {
    if l != [] {
      WithoutLacks(l[1..], key, other);
    }
  }

  lemma {:induction false} WithoutAbsent<V>(l: seq<Slot<V>>, key: Key)
    requires Find(l, key) == None
    ensures Without(l, key) == l
  {
    if l != [] {
      WithoutAbsent(l[1..], key);
    }
  }

  lemma DistinctCons<V>(s: Slot<V>, l: seq<Slot<V>>)
    ensures DistinctKeys([s] + l) <==> DistinctKeys(l) && Lacks(l, s.key)
  {
    var m := [s] + l;
    assert forall i :: 1 <= i < |m| ==> m[i] == l[i - 1];
    if DistinctKeys(m) {
      forall i, j | 0 <= i < j < |l| ensures l[i].key != l[j].key {
        assert m[i + 1].key != m[j + 1].key;
      }
      forall i | 0 <= i < |l| ensures l[i].key != s.key {
        assert m[0].key != m[i + 1].key;
      }
    }
  }

  lemma {:induction false} WithoutDistinct<V>(l: seq<Slot<V>>, key: Key)
    requires DistinctKeys(l)
    ensures DistinctKeys(Without(l, key))
    ensures |Without(l, key)| == (if Find(l, key) == None then |l| else |l| - 1)
  {
    if l != [] {
      var head, rest := l[0], l[1..];
      assert l == [head] + rest;
      DistinctCons(head, rest);
      WithoutDistinct(rest, key);
      WithoutLacks(rest, key, head.key);
      if head.key == key {
        FindIff(rest, key);
      } else {
        DistinctCons(head, Without(rest, key));
      }
    }
  }

  lemma FrontSlot<V>(l: seq<Slot<V>>, key: Key, value: V)
    requires DistinctKeys(l)
    ensures DistinctKeys([Slot(key, value)] + Without(l, key))
  {
    WithoutDistinct(l, key);
    WithoutLacks(l, key, key);
    DistinctCons(Slot(key, value), Without(l, key));
  }

  ghost function KeySet<V>(l: seq<Slot<V>>): set<Key> {
    set i | 0 <= i < |l| :: l[i].key
  }

  lemma {:induction false} DistinctCount<V>(l: seq<Slot<V>>)
    requires DistinctKeys(l)
    ensures |KeySet(l)| == |l|
  {
    if l != [] {
      var l', s := l[..|l| - 1], l[|l| - 1];
      DistinctCount(l');
      assert KeySet(l) == KeySet(l') + {s.key};
    }
  }

  lemma ApplyKeepsWellFormed<V>(capacity: nat, l: seq<Slot<V>>, op: Op<V>)
    requires WellFormed(capacity, l)
    ensures WellFormed(capacity, Apply(capacity, l, op))
  {
    WithoutDistinct(l, op.key);
    match op
    case Lookup(key) =>
      if Find(l, key).Some? {
        FrontSlot(l, key, Find(l, key).value);
      }
    case Store(key, value) =>
      FrontSlot(l, key, value);
  }

  lemma {:induction false} RunIsWellFormed<V>(capacity: nat, ops: seq<Op<V>>)
    ensures WellFormed(capacity, Run(capacity, ops))
  {
    if ops != [] {
      RunIsWellFormed(capacity, ops[..|ops| - 1]);
      ApplyKeepsWellFormed(capacity, Run(capacity, ops[..|ops| - 1]), ops[|ops| - 1]);
    }
  }
}
