/** The set that removes duplicates from range queries: a linked list and a hash table over
    the same nodes.  The hash function is any function of the element. */
module HashLists {

  import opened PowersOfTwo
  import opened Probing

  class HLNode<T> {
    var next: HLNode?<T>
    var element: T
    var hashTableIndex: int

    constructor (next: HLNode?<T>, element: T)
      ensures this.next == next && this.element == element && hashTableIndex == -1
    {
      this.next := next;
      this.element := element;
      hashTableIndex := -1;
    }
  }

  /** The nodes from head on, following next, are exactly those of the sequence, and then comes end. */
  ghost predicate Chain<T(!new)>(head: HLNode?<T>, nodes: seq<HLNode<T>>, end: HLNode?<T>)
    reads nodes`next
  {
    && head == (if nodes == [] then end else nodes[0])
    && forall i: nat | i < |nodes| :: Linked(nodes, i, end)
  }

  ghost predicate Linked<T(!new)>(nodes: seq<HLNode<T>>, i: nat, end: HLNode?<T>)
    requires i < |nodes|
    reads nodes`next
  {
    nodes[i].next == if i + 1 < |nodes| then nodes[i + 1] else end
  }

  lemma ChainTail<T(!new)>(nodes: seq<HLNode<T>>)
    requires nodes != [] && Chain(nodes[0], nodes, null)
    ensures Chain(nodes[0].next, nodes[1..], null)
  {
    assert Linked(nodes, 0, null);
    forall i: nat | i < |nodes[1..]| ensures Linked(nodes[1..], i, null) {
      assert Linked(nodes, i + 1, null);
    }
  }

  lemma ChainCons<T(!new)>(node: HLNode<T>, head: HLNode?<T>, nodes: seq<HLNode<T>>)
    requires Chain(head, nodes, null) && node.next == head
    ensures Chain(node, [node] + nodes, null)
  {
    forall i: nat | i < |[node] + nodes| ensures Linked([node] + nodes, i, null) {
      assert i > 0 ==> Linked(nodes, i - 1, null);
    }
  }

  lemma ChainJoin<T(!new)>(a: seq<HLNode<T>>, b: seq<HLNode<T>>, mid: HLNode?<T>)
    requires a != [] && Chain(a[0], a, mid) && Chain(mid, b, null)
    ensures Chain(a[0], a + b, null)
  {
    forall i: nat | i < |a + b| ensures Linked(a + b, i, null) {
      if i < |a| {
        assert Linked(a, i, mid);
      } else {
        assert Linked(b, i - |a|, null);
      }
    }
  }

  ghost predicate Distinct<T(!new)>(nodes: seq<HLNode?<T>>) {
    forall i, j | 0 <= i < j < |nodes| :: nodes[i] != nodes[j]
  }

  lemma DistinctJoin<T(!new)>(a: seq<HLNode<T>>, b: seq<HLNode<T>>)
    requires Distinct(a) && Distinct(b) && forall n | n in a :: n !in b
    ensures Distinct(a + b)
  {
    var c := a + b;
    forall i, j | 0 <= i < j < |c| ensures c[i] != c[j] {
      if i < |a| && |a| <= j {
        assert a[i] in a && b[j - |a|] in b;
      }
    }
  }

  ghost function ElementSet<T(!new)>(nodes: seq<HLNode<T>>): set<T>
    reads nodes`element
  {
    set i | 0 <= i < |nodes| :: nodes[i].element
  }

  lemma ElementSetCons<T(!new)>(node: HLNode<T>, nodes: seq<HLNode<T>>)
    ensures ElementSet([node] + nodes) == ElementSet(nodes) + {node.element}
  {
    var c := [node] + nodes;
    assert c[0] == node && forall i | 0 <= i < |nodes| :: c[i + 1] == nodes[i];
    forall x | x in ElementSet(nodes) ensures x in ElementSet(c) {
      var i :| 0 <= i < |nodes| && nodes[i].element == x;
      assert c[i + 1].element == x;
    }
    assert c[0].element in ElementSet(c);
  }

  ghost function NodeSet<T(!new)>(nodes: seq<HLNode<T>>): set<HLNode<T>> {
    set n | n in nodes
  }

  /** Distinct nodes out of a set are no more than the set has. */
  lemma {:induction false} Fits<T(!new)>(nodes: seq<HLNode?<T>>, within: set<HLNode<T>>)
    requires Distinct(nodes) && forall n | n in nodes :: n != null && n in within
    ensures |nodes| <= |within|
  {
    if nodes != [] {
      var k := |nodes| - 1;
      assert nodes[k] in nodes;
      var last: HLNode<T> := nodes[k];
      forall i | 0 <= i < k ensures nodes[i] != null && nodes[i] in within - {last} {
        assert nodes[i] in nodes;
      }
      Fits(nodes[..k], within - {last});
    }
  }

  lemma {:induction false} NodeSetSize<T(!new)>(nodes: seq<HLNode<T>>)
    requires Distinct(nodes)
    ensures |NodeSet(nodes)| == |nodes|
  {
    if nodes != [] {
      var k := |nodes| - 1;
      NodeSetSize(nodes[..k]);
      assert NodeSet(nodes) == NodeSet(nodes[..k]) + {nodes[k]};
    }
  }

  /** Probing from start comes to slot ix at the p-th probe, after full slots only. */
  ghost predicate ProbedTo<T(!new)>(slots: seq<HLNode?<T>>, start: nat, ix: int, p: nat) {
    |slots| > 0 && Slot(start, p, |slots|) == ix && forall q: nat | q < p :: slots[Slot(start, q, |slots|)] != null
  }

  ghost predicate Reaches<T(!new)>(slots: seq<HLNode?<T>>, start: nat, ix: int) {
    exists p: nat :: ProbedTo(slots, start, ix, p)
  }

  lemma ReachedBy<T(!new)>(slots: seq<HLNode?<T>>, start: nat, ix: int, p: nat)
    requires ProbedTo(slots, start, ix, p)
    ensures Reaches(slots, start, ix)
  {
  }

  /** Filling an empty slot cuts no path. */
  lemma StillReaches<T(!new)>(slots: seq<HLNode?<T>>, start: nat, ix: int, filled: nat, node: HLNode<T>)
    requires Reaches(slots, start, ix) && filled < |slots|
    ensures Reaches(slots[filled := node], start, ix)
  {
    var p: nat :| ProbedTo(slots, start, ix, p);
    assert ProbedTo(slots[filled := node], start, ix, p);
  }

  class HashTable<T(!new, ==)> {
    const mix: T -> nat
    var data: array<HLNode?<T>>
    var size: int
    var capacity: nat
    ghost var k: nat

    /** `hash`. */
    function Hash(e: T): (h: nat)
      reads this
      requires capacity > 0
      ensures h < capacity
    {
      mix(e) % capacity
    }

    ghost predicate Shape()
      reads this
    {
      capacity == data.Length == Pow2(k)
    }

    /** The table holds exactly these nodes, each in the slot it names and where probing
        finds it. */
    ghost predicate Holds(nodes: set<HLNode<T>>)
      reads this, data, nodes`element, nodes`hashTableIndex
    {
      && Shape() && |nodes| == size
      && (forall n | n in nodes :: 0 <= n.hashTableIndex < capacity && data[n.hashTableIndex] == n)
      && capacity > 0 && (forall n | n in nodes :: Reaches(data[..], Hash(n.element), n.hashTableIndex))
      && (forall ix | 0 <= ix < capacity && data[ix] != null :: data[ix] in nodes && data[ix].hashTableIndex == ix)
      && (forall m, n | m in nodes && n in nodes && m != n :: m.element != n.element)
    }

    /** And it is at most half full, or, if it has one slot only, empty. */
    ghost predicate Indexed(nodes: set<HLNode<T>>)
      reads this, data, nodes`element, nodes`hashTableIndex
    {
      Holds(nodes) && if k == 0 then size == 0 else 2 * size <= capacity
    }

    ghost predicate SomeSlotEmpty()
      reads this, data
    {
      exists ix :: 0 <= ix < data.Length && data[ix] == null
    }

    ghost predicate Mem(nodes: set<HLNode<T>>, e: T)
      reads nodes`element
    {
      exists n :: n in nodes && n.element == e
    }

    /** `init`. */
    constructor (mix: T -> nat, ghost k: nat, initialCapacityPow2: nat)
      requires initialCapacityPow2 == Pow2(k)
      ensures Indexed({}) && fresh(data) && this.mix == mix && capacity == initialCapacityPow2 && this.k == k
    {
      this.mix := mix;
      size := 0;
      capacity := initialCapacityPow2;
      data := new HLNode?<T>[initialCapacityPow2](_ => null);
      this.k := k;
    }

    /** At half load some slot is empty. */
    lemma SomeEmptySlot(nodes: set<HLNode<T>>) returns (ix: nat)
      requires Indexed(nodes)
      ensures ix < capacity && data[ix] == null
    {
      if forall i | 0 <= i < capacity :: data[i] != null {
        Fits(data[..], nodes);
      }
      ix :| ix < capacity && data[ix] == null;
    }

    /** `findIx` ends, at the slot of the element or at an empty one; in the latter case the
        element is in no node and probing comes to that slot. */
    method FindIx(e: T, ghost nodes: set<HLNode<T>>) returns (ix: nat)
      requires Indexed(nodes)
      ensures ix < capacity == data.Length
      ensures data[ix] != null ==> data[ix] in nodes && data[ix].element == e
      ensures data[ix] == null ==> !Mem(nodes, e) && Reaches(data[..], Hash(e), ix)
    {
      hide Slot, Reaches, Pow2;
      ix := Hash(e);
      var i := 0;
      ghost var empty := SomeEmptySlot(nodes);
      ghost var stop := ProbesVisitEverySlot(Hash(e), empty, k);
      FirstSlot(ix, capacity);
      while data[ix] != null
        invariant 0 <= i <= stop && ix == Slot(Hash(e), i, capacity)
        invariant forall q: nat | q < i :: Misses(e, q)
        decreases stop - i
      {
        i := i + 1;
        if data[ix].element == e {
          return;
        }
        NextSlot(Hash(e), i, ix, capacity);
        ix := (ix + i * i) % capacity;
      }
      assert ProbedTo(data[..], Hash(e), ix, i) by {
        forall q: nat | q < i ensures data[..][Slot(Hash(e), q, capacity)] != null {
          assert Misses(e, q);
        }
      }
      ReachedBy(data[..], Hash(e), ix, i);
      NotThere(e, nodes, i);
    }

    /** The q-th probe for e meets another element. */
    ghost predicate Misses(e: T, q: nat)
      requires Shape() && capacity > 0
      reads this, data, data[..]
    {
      var x := data[Slot(Hash(e), q, capacity)];
      x != null && x.element != e
    }

    /** An element is not in the table if probing comes to an empty slot without meeting it. */
    lemma NotThere(e: T, nodes: set<HLNode<T>>, i: nat)
      requires Indexed(nodes) && capacity > 0 && data[Slot(Hash(e), i, capacity)] == null
      requires forall q: nat | q < i :: Misses(e, q)
      ensures !Mem(nodes, e)
    {
      forall n | n in nodes ensures n.element != e {
        assert Reaches(data[..], Hash(n.element), n.hashTableIndex);
        var p: nat :| ProbedTo(data[..], Hash(n.element), n.hashTableIndex, p);
        assert p < i ==> Misses(e, p);
        assert i < p ==> data[..][Slot(Hash(n.element), i, capacity)] != null;
      }
    }

    /** `find`. */
    method Find(e: T, ghost nodes: set<HLNode<T>>) returns (r: HLNode?<T>)
      requires Indexed(nodes)
      ensures r != null ==> r in nodes && r.element == e
      ensures r == null ==> !Mem(nodes, e)
    {
      var ix := FindIx(e, nodes);
      r := data[ix];
    }

    /** Filling the empty slot where probing for the node's element ends: the slots were
        `before`, and the other nodes are as they were. */
    lemma FilledOk(nodes: set<HLNode<T>>, node: HLNode<T>, before: seq<HLNode?<T>>)
      requires Shape() && node !in nodes && |nodes| + 1 == size && capacity > 0
      requires |before| == capacity && 0 <= node.hashTableIndex < capacity
      requires before[node.hashTableIndex] == null && data[..] == before[node.hashTableIndex := node]
      requires forall n | n in nodes :: 0 <= n.hashTableIndex < capacity && before[n.hashTableIndex] == n
      requires forall n | n in nodes :: Reaches(before, Hash(n.element), n.hashTableIndex)
      requires Reaches(before, Hash(node.element), node.hashTableIndex)
      requires forall ix | 0 <= ix < capacity && before[ix] != null ::
                 before[ix] in nodes && before[ix].hashTableIndex == ix
      requires forall m, n | m in nodes && n in nodes && m != n :: m.element != n.element
      requires forall n | n in nodes :: n.element != node.element
      ensures Holds(nodes + {node})
    {
      hide Reaches;
      forall ix | 0 <= ix < capacity ensures data[ix] == if ix == node.hashTableIndex then node else before[ix] {
        assert data[ix] == data[..][ix];
      }
      forall n | n in nodes + {node} ensures Reaches(data[..], Hash(n.element), n.hashTableIndex) {
        StillReaches(before, Hash(n.element), n.hashTableIndex, node.hashTableIndex, node);
      }
    }

    /** `tryExpand`: below half load nothing happens; otherwise the nodes of the list go into
        a table of twice the size. */
    method TryExpand(head: HLNode?<T>, ghost list: seq<HLNode<T>>, ghost nodes: set<HLNode<T>>)
      requires Indexed(nodes)
      requires 2 * size >= capacity ==> Chain(head, list, null) && Distinct(list) && NodeSet(list) == nodes
      modifies this, data, nodes`hashTableIndex
      ensures Indexed(nodes) && 2 * size < capacity && size == old(size) && k >= old(k)
              && (data == old(data) || fresh(data))
      ensures old(2 * size < capacity) ==> unchanged(this) && unchanged(data) && unchanged(nodes)
      decreases if 2 * size < capacity then 0 else 1, 0
    {
      hide HashTable.DifferentElements;
      if 2 * size < capacity {
        return;
      }
      NodeSetSize(list);
      ElementsDiffer(list);
      capacity := capacity * 2;
      data := new HLNode?<T>[capacity](_ => null);
      size := 0;
      k := k + 1;
      Rehash(head, list);
    }

    /** What Indexed says about the elements of a list. */
    lemma ElementsDiffer(list: seq<HLNode<T>>)
      requires Indexed(NodeSet(list)) && Distinct(list)
      ensures DifferentElements(list)
    {
    }

    static ghost predicate DifferentElements(list: seq<HLNode<T>>)
      reads list`element
    {
      forall i, j | 0 <= i < j < |list| :: list[i].element != list[j].element
    }

    /** The loop of `tryExpand`: every node of the list goes into the empty table. */
    method Rehash(head: HLNode?<T>, ghost list: seq<HLNode<T>>)
      requires Indexed({}) && size == 0 && 4 * |list| <= capacity && capacity > 0 && k >= 1
      requires Chain(head, list, null) && Distinct(list) && DifferentElements(list)
      modifies this, data, list`hashTableIndex
      ensures Indexed(NodeSet(list)) && size == |list| && k == old(k) && data == old(data) && capacity == old(capacity)
      decreases 0, 2
    {
      hide Reaches, Pow2, Holds, SomeSlotEmpty;
      var curr := head;
      ghost var j := 0;
      assert NodeSet(list[..0]) == {};
      while curr != null
        invariant 0 <= j <= |list| && Chain(head, list, null) && DifferentElements(list)
        invariant curr == if j < |list| then list[j] else null
        invariant Indexed(NodeSet(list[..j])) && size == j && k == old(k) && data == old(data)
                  && capacity == old(capacity)
        decreases |list| - j
      {
        NextPrefix(list, j);
        NotYet(list, j);
        assert Linked(list, j, null);
        InsertNode(curr, head, list, NodeSet(list[..j]));
        curr := curr.next;
        j := j + 1;
      }
      assert list[..j] == list;
    }

    lemma NotYet(list: seq<HLNode<T>>, j: nat)
      requires j < |list| && DifferentElements(list)
      ensures !Mem(NodeSet(list[..j]), list[j].element)
    {
    }

    static lemma NextPrefix(list: seq<HLNode<T>>, j: nat)
      requires j < |list| && Distinct(list)
      ensures NodeSet(list[..j + 1]) == NodeSet(list[..j]) + {list[j]} && list[j] !in NodeSet(list[..j])
      ensures NodeSet(list[..j]) <= NodeSet(list) && Distinct(list[..j])
    {
      assert list[..j + 1] == list[..j] + [list[j]];
    }

    /** `insertNode`, for a node that is not in the table and whose element is new.  It leaves
        an empty slot exactly if the table has more than one. */
    method InsertNode(node: HLNode<T>, head: HLNode?<T>, ghost list: seq<HLNode<T>>, ghost nodes: set<HLNode<T>>)
      requires Indexed(nodes) && node !in nodes && !Mem(nodes, node.element)
      requires 2 * size >= capacity ==> Chain(head, list, null) && Distinct(list) && NodeSet(list) == nodes
      modifies this, data, nodes`hashTableIndex, node`hashTableIndex
      ensures Holds(nodes + {node}) && size == old(size) + 1 && k >= old(k) && (data == old(data) || fresh(data))
      ensures (SomeSlotEmpty() <==> k >= 1) && (k >= 1 ==> Indexed(nodes + {node}))
      ensures old(2 * size < capacity) ==> data == old(data) && capacity == old(capacity) && k == old(k)
      decreases if 2 * size < capacity then 0 else 1, 1
    {
      hide Holds, SomeSlotEmpty, Reaches;
      TryExpand(head, list, nodes);
      var ix := FindIx(node.element, nodes);
      EmptyIfNew(nodes, node.element, ix);
      Place(node, ix, nodes);
      RoomLeft(nodes + {node}, ix);
    }

    lemma EmptyIfNew(nodes: set<HLNode<T>>, e: T, ix: nat)
      requires ix < data.Length && !Mem(nodes, e)
      requires data[ix] != null ==> data[ix] in nodes && data[ix].element == e
      ensures data[ix] == null
    {
    }

    /** The node goes into the empty slot where probing for its element ends. */
    method Place(node: HLNode<T>, ix: nat, ghost nodes: set<HLNode<T>>)
      requires Indexed(nodes) && node !in nodes && !Mem(nodes, node.element) && 2 * size < capacity
      requires ix < capacity && data[ix] == null && Reaches(data[..], Hash(node.element), ix)
      modifies this`size, data, node`hashTableIndex
      ensures Holds(nodes + {node}) && size == old(size) + 1 && ix < data.Length && data[ix] == node
    {
      hide Reaches, Indexed, Pow2, SomeSlotEmpty;
      assert Holds(nodes) by {
        IndexedHolds(nodes);
      }
      ghost var before := data[..];
      data[ix] := node;
      node.hashTableIndex := ix;
      size := size + 1;
      assert data[..] == before[ix := node];
      FilledOk(nodes, node, before);
    }

    lemma IndexedHolds(nodes: set<HLNode<T>>)
      requires Indexed(nodes)
      ensures Holds(nodes)
    {
    }

    /** After an insertion there is room exactly if the table has more than one slot. */
    lemma RoomLeft(nodes: set<HLNode<T>>, ix: nat)
      requires Holds(nodes) && 2 * size < capacity + 2 && ix < data.Length && data[ix] != null
      ensures (SomeSlotEmpty() <==> k >= 1) && (k >= 1 ==> Indexed(nodes))
    {
      hide Reaches, Pow2, Mem;
      CapacityKnown();
      if k == 0 {
        assert data.Length == 1 && ix == 0;
      } else {
        var empty := SomeEmptySlot(nodes);
        assert data[empty] == null;
      }
    }

    lemma CapacityKnown()
      requires Shape()
      ensures if k == 0 then capacity == 1 else capacity % 2 == 0
    {
    }

    /** `clear`: either by the list, or slot by slot. */
    method Clear(head: HLNode?<T>, ghost list: seq<HLNode<T>>)
      requires Holds(NodeSet(list)) && Chain(head, list, null) && Distinct(list)
      modifies this`size, data
      ensures Indexed({}) && data == old(data)
    {
      if size * 4 < capacity {
        var curr := head;
        ghost var j := 0;
        while curr != null
          invariant 0 <= j <= |list| && curr == if j < |list| then list[j] else null
          invariant forall i | 0 <= i < capacity && data[i] != null :: data[i] == old(data[i]) && data[i] !in list[..j]
          decreases |list| - j
        {
          assert list[j] in NodeSet(list) && Linked(list, j, null);
          data[curr.hashTableIndex] := null;
          curr := curr.next;
          j := j + 1;
        }
        assert list[..j] == list;
      } else {
        var i := 0;
        while i < capacity
          invariant 0 <= i <= capacity
          invariant forall q | 0 <= q < i :: data[q] == null
        {
          data[i] := null;
          i := i + 1;
        }
      }
      size := 0;
    }
  }

  /** The list and the table over the same nodes; cleared nodes are kept for reuse. */
  class HashList<T(!new, ==)> {
    var ht: HashTable<T>
    var head: HLNode?<T>
    var tail: HLNode?<T>
    var freeNodes: HLNode?<T>
    var size: int
    ghost var list: seq<HLNode<T>>
    ghost var free: seq<HLNode<T>>

    ghost predicate Valid()
      reads this, ht, ht.data, list, free
    {
      && ht.Indexed(NodeSet(list)) && ht.k >= 1 && size == |list|
      && Chain(head, list, null) && Distinct(list)
      && tail == (if list == [] then null else list[|list| - 1])
      && Chain(freeNodes, free, null) && Distinct(free)
      && forall n | n in list :: n !in free
    }

    /** The set the list stands for. */
    ghost function Elements(): set<T>
      reads this`list, list`element
    {
      ElementSet(list)
    }

    /** `init`. */
    constructor (mix: T -> nat, ghost k: nat, initialCapacityPow2: nat)
      requires k >= 1 && initialCapacityPow2 == Pow2(k)
      ensures Valid() && Elements() == {} && fresh(ht) && fresh(ht.data)
    {
      head := null;
      tail := null;
      freeNodes := null;
      size := 0;
      list := [];
      free := [];
      ht := new HashTable(mix, k, initialCapacityPow2);
    }

    lemma MemElements(e: T)
      requires Valid()
      ensures ht.Mem(NodeSet(list), e) <==> e in Elements()
    {
      if ht.Mem(NodeSet(list), e) {
        var n :| n in NodeSet(list) && n.element == e;
        var i :| 0 <= i < |list| && list[i] == n;
        assert list[i].element in Elements();
      }
    }

    /** `contains` is true exactly for the elements inserted since the last clear. */
    method Contains(e: T) returns (r: bool)
      requires Valid()
      ensures r <==> e in Elements()
    {
      var n := ht.Find(e, NodeSet(list));
      r := n != null;
      MemElements(e);
      assert n != null ==> ht.Mem(NodeSet(list), e);
    }

    /** `allocateNode`: a free node is taken if there is one. */
    method AllocateNode(e: T) returns (node: HLNode<T>)
      requires Valid()
      modifies this`freeNodes, this`free, free
      ensures Valid() && node !in list && node !in free && node.element == e && node.next == head
      ensures fresh(node) || node in old(free)
      ensures Elements() == old(Elements()) && forall n | n in free :: n in old(free)
    {
      hide HashTable.Holds, HashTable.SomeSlotEmpty;
      if freeNodes != null {
        ChainTail(free);
        assert free[0] !in free[1..] && forall n | n in free[1..] :: n in free;
        assert free[0] in free;
        node := freeNodes;
        freeNodes := freeNodes.next;
        free := free[1..];
        node.element := e;
        node.next := head;
      } else {
        node := new HLNode(head, e);
      }
    }

    /** `insert` adds the element, once. */
    method Insert(e: T)
      requires Valid()
      modifies this, ht, ht.data, list, free
      ensures Valid() && Elements() == old(Elements()) + {e} && ht == old(ht)
      ensures size == old(size) + (if e in old(Elements()) then 0 else 1)
      ensures ht.data == old(ht.data) || fresh(ht.data)
    {
      hide ElementSet, HashTable.Holds, HashTable.SomeSlotEmpty;
      MemElements(e);
      var n := ht.Find(e, NodeSet(list));
      if n == null {
        var node := AllocateNode(e);
        MemElements(e);
        ElementSetCons(node, list);
        ghost var all := ElementSet([node] + list);
        Link(node);
        assert Elements() == all;
      } else {
        assert ht.Mem(NodeSet(list), e);
      }
    }

    /** The rest of `insert`: the new node goes into the table, then into the list. */
    method Link(node: HLNode<T>)
      requires Valid() && node !in list && node !in free && node.next == head && !ht.Mem(NodeSet(list), node.element)
      modifies this`head, this`tail, this`list, this`size, ht, ht.data, list`hashTableIndex, node`hashTableIndex
      ensures Valid() && list == [node] + old(list) && size == old(size) + 1
      ensures ht.data == old(ht.data) || fresh(ht.data)
    {
      hide HashTable.Holds, HashTable.SomeSlotEmpty;
      ht.InsertNode(node, head, list, NodeSet(list));
      ChainCons(node, head, list);
      if head == null {
        tail := node;
      }
      head := node;
      list := [node] + list;
      size := size + 1;
      assert NodeSet(list) == NodeSet(old(list)) + {node};
    }

    /** `clear` empties the set; its nodes go to the front of the free ones. */
    method Clear()
      requires Valid()
      modifies this, ht, ht.data, list
      ensures Valid() && Elements() == {} && size == 0 && ht == old(ht) && ht.data == old(ht.data)
      ensures free == old(list) + old(free)
    {
      hide HashTable.Indexed, HashTable.Holds, HashTable.SomeSlotEmpty, Chain, Distinct;
      ht.IndexedHolds(NodeSet(list));
      ht.Clear(head, list);
      Drop();
      assert NodeSet(list) == {};
    }

    /** The part of `clear` after the table. */
    method Drop()
      requires Chain(head, list, null) && Distinct(list) && tail == (if list == [] then null else list[|list| - 1])
      requires Chain(freeNodes, free, null) && Distinct(free) && forall n | n in list :: n !in free
      modifies this`head, this`tail, this`size, this`list, this`free, this`freeNodes, list`next
      ensures list == [] && size == 0 && head == null && tail == null && Chain(head, list, null) && Distinct(list)
      ensures free == old(list) + old(free) && Chain(freeNodes, free, null) && Distinct(free)
    {
      hide Linked;
      DistinctJoin(list, free);
      Recycle();
      free := list + free;
      list := [];
      head := null;
      tail := null;
      size := 0;
    }

    /** The nodes of the list are put before the free ones. */
    method Recycle()
      requires Chain(head, list, null) && Distinct(list) && tail == (if list == [] then null else list[|list| - 1])
      requires Chain(freeNodes, free, null) && forall n | n in list :: n !in free
      modifies this`freeNodes, list`next
      ensures Chain(freeNodes, list + free, null)
    {
      ghost var mid := freeNodes;
      if tail != null {
        assert tail in list;
        tail.next := freeNodes;
        freeNodes := head;
        forall i: nat | i < |list| ensures Linked(list, i, mid) {
          assert old(Linked(list, i, null));
        }
        ChainJoin(list, free, mid);
      } else {
        assert list + free == free;
      }
    }
  }
}
