/** The LRU cache as the program keeps it: a list of nodes and a map of iterators into it. */
module LruCache {
  import opened LruSpec

  // A node of the recency list; a reference to one plays the part of a list iterator.
  class Node<V> {
    const key: Key
    const value: V

    constructor (key: Key, value: V)
      ensures this.key == key && this.value == value
    {
      this.key := key;
      this.value := value;
    }
  }

  function Slots<V>(nodes: seq<Node<V>>): seq<Slot<V>> {
    seq(|nodes|, i requires 0 <= i < |nodes| => Slot(nodes[i].key, nodes[i].value))
  }

  // Unlinks one node.
  function Erase<V>(nodes: seq<Node<V>>, node: Node<V>): seq<Node<V>> {
    if nodes == [] then [] else if nodes[0] == node then nodes[1..] else [nodes[0]] + Erase(nodes[1..], node)
  }

  lemma SlotsCons<V>(node: Node<V>, nodes: seq<Node<V>>)
    ensures Slots([node] + nodes) == [Slot(node.key, node.value)] + Slots(nodes)
  {
  }

  lemma {:induction false} EraseIsWithout<V>(nodes: seq<Node<V>>, node: Node<V>)
    requires node in nodes && DistinctKeys(Slots(nodes))
    ensures Slots(Erase(nodes, node)) == Without(Slots(nodes), node.key)
    ensures forall n :: n in Erase(nodes, node) ==> n in nodes
  {
    var head, rest := nodes[0], nodes[1..];
    assert nodes == [head] + rest;
    SlotsCons(head, rest);
    DistinctCons(Slot(head.key, head.value), Slots(rest));
    if head == node {
      FindIff(Slots(rest), node.key);
      WithoutAbsent(Slots(rest), node.key);
    } else {
      EraseIsWithout(rest, node);
      SlotsCons(head, Erase(rest, node));
      var i :| 0 <= i < |rest| && rest[i] == node;
      assert Slots(rest)[i].key == node.key;
    }
  }

  class HttpLruRamCache<V> {
    var capacity: nat
    var cacheMap: map<Key, Node<V>>
    var list: seq<Node<V>>

    // The map's domain is the list's keys, which are distinct, and each stored
    // iterator points at the list's node for its own key.
    ghost predicate Linked()
      reads this
    {
      && DistinctKeys(Slots(list))
      && (forall i :: 0 <= i < |list| ==> list[i].key in cacheMap && cacheMap[list[i].key] == list[i])
      && (forall k :: k in cacheMap ==> cacheMap[k] in list && cacheMap[k].key == k)
    }

    ghost predicate Valid()
      reads this
    {
      Linked() && |list| <= capacity
    }

    ghost function Recency(): seq<Slot<V>>
      reads this
    {
      Slots(list)
    }

    constructor ()
      ensures Valid() && capacity == 0 && Recency() == []
    {
      capacity := 0;
      cacheMap := map[];
      list := [];
    }

    // Only the first non-zero capacity sticks.
    method InitCacheCapacity(cacheCapacity: nat)
      requires Valid()
      modifies this`capacity
      ensures Valid() && Recency() == old(Recency())
      ensures capacity == if old(capacity) != 0 then old(capacity) else cacheCapacity
    {
      if capacity != 0 {
        return;
      }
      capacity := cacheCapacity;
    }

    // The list's node for a key of the map, seen as a slot.
    lemma FindThroughMap(key: Key)
      requires Linked()
      ensures Find(Recency(), key) == if key in cacheMap then Some(cacheMap[key].value) else None
    {
      FindIff(Recency(), key);
      if key in cacheMap {
        var i :| 0 <= i < |list| && list[i] == cacheMap[key];
        assert Recency()[i] == Slot(key, cacheMap[key].value);
        FindMember(Recency(), Recency()[i]);
      }
    }

    lemma MapSize()
      requires Linked()
      ensures |cacheMap| == |list|
    {
      var slots := Recency();
      DistinctCount(slots);
      assert cacheMap.Keys == KeySet(slots) by {
        forall k | k in cacheMap ensures k in KeySet(slots) {
          var i :| 0 <= i < |list| && list[i] == cacheMap[k];
          assert slots[i].key == k;
        }
      }
    }

    // Links a fresh node for a key that is in neither structure.
    method EmplaceFront(key: Key, value: V)
      requires Linked() && key !in cacheMap
      modifies this`list, this`cacheMap
      ensures Linked()
      ensures Recency() == [Slot(key, value)] + old(Recency())
    {
      FindThroughMap(key);
      FindIff(Recency(), key);
      var node := new Node(key, value);
      DistinctCons(Slot(key, value), Recency());
      SlotsCons(node, list);
      ghost var before := list;
      list := [node] + list;
      cacheMap := cacheMap[key := list[0]];
      forall i | 0 <= i < |list| ensures list[i].key in cacheMap && cacheMap[list[i].key] == list[i] {
        if i > 0 {
          assert list[i] == before[i - 1] && Slots(before)[i - 1].key != key;
        }
      }
    }

    // Removes a key's node from the list and its iterator from the map.
    method Unlink(key: Key)
      requires Linked() && key in cacheMap
      modifies this`list, this`cacheMap
      ensures Linked() && key !in cacheMap
      ensures Recency() == Without(old(Recency()), key)
    {
      ghost var before := list;
      var node := cacheMap[key];
      EraseIsWithout(list, node);
      WithoutDistinct(Recency(), key);
      WithoutLacks(Recency(), key, key);
      list := Erase(list, node);
      cacheMap := map k | k in cacheMap && k != key :: cacheMap[k];
      forall i | 0 <= i < |list| ensures list[i].key in cacheMap && cacheMap[list[i].key] == list[i] {
        assert list[i] in before && Slots(list)[i].key != key;
      }
      forall k | k in cacheMap ensures cacheMap[k] in list {
        KeptByErase(before, node, cacheMap[k]);
      }
    }

    method At(key: Key) returns (value: Option<V>)
      requires Valid()
      modifies this`list, this`cacheMap
      ensures Valid()
      ensures value == Find(old(Recency()), key)
      ensures Recency() == LruSpec.At(old(Recency()), key)
    {
      FindThroughMap(key);
      if key !in cacheMap {
        return None;
      }
      var node := cacheMap[key];
      value := Some(node.value);
      WithoutDistinct(Recency(), key);
      if key != list[0].key {
        Unlink(key);
        EmplaceFront(key, node.value);
      } else {
        FrontStays(list);
      }
    }

    method Insert(key: Key, value: V)
      requires Valid()
      modifies this`list, this`cacheMap
      ensures Valid()
      ensures Recency() == LruSpec.Insert(capacity, old(Recency()), key, value)
    {
      FindThroughMap(key);
      WithoutDistinct(Recency(), key);
      if key in cacheMap {
        Unlink(key);
      } else {
        WithoutAbsent(Recency(), key);
      }
      EmplaceFront(key, value);
      MapSize();
      if |cacheMap| > capacity {
        PopBack();
      }
    }

    method PopBack()
      requires Linked() && list != []
      modifies this`list, this`cacheMap
      ensures Linked()
      ensures Recency() == old(Recency())[..|old(Recency())| - 1]
    {
      ghost var before := list;
      var last := list[|list| - 1].key;
      cacheMap := map k | k in cacheMap && k != last :: cacheMap[k];
      list := list[..|list| - 1];
      assert Recency() == Slots(before)[..|before| - 1];
      forall i | 0 <= i < |list| ensures list[i].key in cacheMap && cacheMap[list[i].key] == list[i] {
        assert list[i] == before[i] && Slots(before)[i].key != Slots(before)[|before| - 1].key;
      }
      forall k | k in cacheMap ensures cacheMap[k] in list {
        var i :| 0 <= i < |before| && before[i] == cacheMap[k];
        assert i != |before| - 1;
        assert list[i] == cacheMap[k];
      }
    }
  }

  lemma {:induction false} KeptByErase<V>(nodes: seq<Node<V>>, node: Node<V>, other: Node<V>)
    requires other in nodes && other != node
    ensures other in Erase(nodes, node)
  {
    assert nodes == [nodes[0]] + nodes[1..];
    if nodes[0] != node && nodes[0] != other {
      KeptByErase(nodes[1..], node, other);
    }
  }

  // Moving the front slot to the front changes nothing, so a hit on it skips the move.
  lemma FrontStays<V>(nodes: seq<Node<V>>)
    requires nodes != [] && DistinctKeys(Slots(nodes))
    ensures [Slot(nodes[0].key, nodes[0].value)] + Without(Slots(nodes), nodes[0].key) == Slots(nodes)
  {
    var rest := nodes[1..];
    assert nodes == [nodes[0]] + rest;
    SlotsCons(nodes[0], rest);
    DistinctCons(Slots(nodes)[0], Slots(rest));
    FindIff(Slots(rest), nodes[0].key);
    WithoutAbsent(Slots(rest), nodes[0].key);
  }
}
