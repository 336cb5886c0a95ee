/** Bags of objects kept in linked blocks of fixed size.  A bag is described by its view, the
    contents of its blocks from the head on; objects are addresses. */
module BlockBags {

  /* ---------------------------------------------------------------- the view */

  /** The head is not full and every other block is. */
  ghost predicate ViewOk(v: seq<seq<int>>, block: nat) {
    |v| > 0 && |v[0]| < block && forall i | 1 <= i < |v| :: |v[i]| == block
  }

  function Occurs(s: seq<int>, x: int): nat {
    multiset(s)[x]
  }

  function One(p: int, x: int): nat {
    if p == x then 1 else 0
  }

  /** How often the object is in the bag. */
  ghost function Count(v: seq<seq<int>>, x: int): nat {
    if v == [] then 0 else Count(v[..|v| - 1], x) + Occurs(v[|v| - 1], x)
  }

  lemma OccursAppend(s: seq<int>, p: int, x: int)
    ensures Occurs(s + [p], x) == Occurs(s, x) + One(p, x)
  {
  }

  lemma OccursUpdate(s: seq<int>, i: nat, p: int, x: int)
    requires i < |s|
    ensures Occurs(s[i := p], x) + One(s[i], x) == Occurs(s, x) + One(p, x)
  {
  }

  lemma {:induction false} CountConcat(a: seq<seq<int>>, b: seq<seq<int>>, x: int)
    ensures Count(a + b, x) == Count(a, x) + Count(b, x)
  {
    if b == [] {
      assert a + b == a;
    } else {
      CountConcat(a, b[..|b| - 1], x);
      assert (a + b)[..|a + b| - 1] == a + b[..|b| - 1];
    }
  }

  lemma CountOne(s: seq<int>, x: int)
    ensures Count([s], x) == Occurs(s, x)
  {
    assert Count([s][..0], x) == 0;
  }

  lemma CountSplit(v: seq<seq<int>>, i: nat, x: int)
    requires i < |v|
    ensures Count(v, x) == Count(v[..i], x) + Occurs(v[i], x) + Count(v[i + 1..], x)
  {
    hide Occurs;
    CountConcat(v[..i], [v[i]], x);
    CountConcat(v[..i] + [v[i]], v[i + 1..], x);
    CountOne(v[i], x);
    assert v == v[..i] + [v[i]] + v[i + 1..];
  }

  /** Replacing one block changes the count by the difference of the blocks. */
  lemma CountUpdate(v: seq<seq<int>>, i: nat, s: seq<int>, x: int)
    requires i < |v|
    ensures Count(v[i := s], x) + Occurs(v[i], x) == Count(v, x) + Occurs(s, x)
  {
    hide Occurs, Count;
    CountSplit(v, i, x);
    CountSplit(v[i := s], i, x);
    assert v[i := s][..i] == v[..i] && v[i := s][i + 1..] == v[i + 1..];
  }

  /** Replacing one object. */
  lemma CountReplace(v: seq<seq<int>>, b: nat, i: nat, p: int, x: int)
    requires At(v, b, i)
    ensures Count(v[b := v[b][i := p]], x) + One(v[b][i], x) == Count(v, x) + One(p, x)
  {
    hide Occurs, Count, One;
    CountUpdate(v, b, v[b][i := p], x);
    OccursUpdate(v[b], i, p, x);
  }

  /** Taking the last object of a block. */
  lemma CountShrink(v: seq<seq<int>>, b: nat, x: int)
    requires b < |v| && |v[b]| > 0
    ensures var n := |v[b]| - 1; Count(v[b := v[b][..n]], x) + One(v[b][n], x) == Count(v, x)
  {
    hide Occurs, Count, One;
    var n := |v[b]| - 1;
    CountUpdate(v, b, v[b][..n], x);
    OccursAppend(v[b][..n], v[b][n], x);
    assert v[b] == v[b][..n] + [v[b][n]];
  }

  /** Putting an empty block in front. */
  lemma CountEmptyHead(v: seq<seq<int>>, x: int)
    ensures Count([[]] + v, x) == Count(v, x)
  {
    CountConcat([[]], v, x);
    CountOne([], x);
  }

  /** A position: an index into a block of the view. */
  ghost predicate At(v: seq<seq<int>>, b: nat, i: nat) {
    b < |v| && i < |v[b]|
  }

  ghost function Swap(v: seq<seq<int>>, b: nat, i: nat, c: nat, j: nat): (w: seq<seq<int>>)
    requires At(v, b, i) && At(v, c, j)
    ensures |w| == |v| && forall k | 0 <= k < |v| :: |w[k]| == |v[k]|
  {
    var w := v[b := v[b][i := v[c][j]]];
    w[c := w[c][j := v[b][i]]]
  }

  /** The two writes of a swap, in the other order. */
  lemma SwapIs(v: seq<seq<int>>, b: nat, i: nat, c: nat, j: nat)
    requires At(v, b, i) && At(v, c, j)
    ensures var w := v[c := v[c][j := v[b][i]]]; w[b := w[b][i := v[c][j]]] == Swap(v, b, i, c, j)
  {
    var w := v[c := v[c][j := v[b][i]]];
    var u := w[b := w[b][i := v[c][j]]];
    var s := Swap(v, b, i, c, j);
    forall k | 0 <= k < |v| ensures u[k] == s[k] {
      assert b == c == k ==> forall m | 0 <= m < |v[k]| :: u[k][m] == s[k][m];
    }
  }

  /** A swap loses and doubles nothing. */
  lemma SwapCount(v: seq<seq<int>>, b: nat, i: nat, c: nat, j: nat, x: int)
    requires At(v, b, i) && At(v, c, j)
    ensures Count(Swap(v, b, i, c, j), x) == Count(v, x)
  {
    hide Count, One;
    var w := v[b := v[b][i := v[c][j]]];
    CountReplace(v, b, i, v[c][j], x);
    CountReplace(w, c, j, v[b][i], x);
    assert w[c][j] == v[c][j];
  }

  /** `add`: a head that becomes full gets an empty block in front of it. */
  ghost function AddView(v: seq<seq<int>>, block: nat, p: int): seq<seq<int>>
    requires |v| > 0
  {
    var w := v[0 := v[0] + [p]];
    if |w[0]| == block then [[]] + w else w
  }

  lemma AddViewOk(v: seq<seq<int>>, block: nat, p: int, x: int)
    requires ViewOk(v, block)
    ensures ViewOk(AddView(v, block, p), block) && Count(AddView(v, block, p), x) == Count(v, x) + One(p, x)
  {
    hide Count, One, Occurs;
    var w := v[0 := v[0] + [p]];
    CountUpdate(v, 0, v[0] + [p], x);
    OccursAppend(v[0], p, x);
    CountEmptyHead(w, x);
  }

  ghost predicate EmptyView(v: seq<seq<int>>) {
    v == [[]]
  }

  /** An empty head is dropped before anything is taken. */
  ghost function Trimmed(v: seq<seq<int>>): seq<seq<int>>
    requires |v| > 0
  {
    if v[0] == [] && |v| > 1 then v[1..] else v
  }

  lemma TrimmedOk(v: seq<seq<int>>, block: nat, x: int)
    requires ViewOk(v, block) && !EmptyView(v)
    ensures |Trimmed(v)| > 0 && |Trimmed(v)[0]| > 0 && Count(Trimmed(v), x) == Count(v, x)
    ensures |Trimmed(v)[0]| <= block && forall i | 1 <= i < |Trimmed(v)| :: |Trimmed(v)[i]| == block
  {
    hide Count;
    if v[0] == [] && |v| > 1 {
      CountEmptyHead(v[1..], x);
      assert v == [[]] + v[1..];
    } else {
      assert v[0] == [] ==> v == [[]];
    }
  }

  /** `remove` takes the last object of the first block that is not empty. */
  ghost function RemoveView(v: seq<seq<int>>): seq<seq<int>>
    requires |v| > 0 && |Trimmed(v)| > 0 && |Trimmed(v)[0]| > 0
  {
    var w := Trimmed(v);
    w[0 := w[0][..|w[0]| - 1]]
  }

  lemma RemoveViewOk(v: seq<seq<int>>, block: nat, x: int)
    requires ViewOk(v, block) && !EmptyView(v)
    ensures |Trimmed(v)| > 0 && |Trimmed(v)[0]| > 0
    ensures ViewOk(RemoveView(v), block)
    ensures Count(RemoveView(v), x) + One(Trimmed(v)[0][|Trimmed(v)[0]| - 1], x) == Count(v, x)
  {
    hide Count, One;
    TrimmedOk(v, block, x);
    CountShrink(Trimmed(v), 0, x);
  }

  /** `erase` of the object at index i of block b: its place is taken by the last object of
      the head, so that only the head shrinks. */
  ghost function EraseView(v: seq<seq<int>>, b: nat, i: nat): seq<seq<int>>
    requires At(v, b, i) && |Trimmed(v)| > 0 && |Trimmed(v)[0]| > 0 && (|Trimmed(v)| < |v| ==> b > 0)
  {
    Erased(Trimmed(v), b - (|v| - |Trimmed(v)|), i)
  }

  /** The object at index i of block c gives way to the last one of the head. */
  ghost function Erased(w: seq<seq<int>>, c: nat, i: nat): seq<seq<int>>
    requires At(w, c, i) && |w[0]| > 0
  {
    var u := w[c := w[c][i := w[0][|w[0]| - 1]]];
    u[0 := u[0][..|u[0]| - 1]]
  }

  lemma EraseIs(v: seq<seq<int>>, b: nat, i: nat, c: nat)
    requires At(v, b, i) && |Trimmed(v)| > 0 && |Trimmed(v)[0]| > 0 && (|Trimmed(v)| < |v| ==> b > 0)
    requires c == b - (|v| - |Trimmed(v)|) && At(Trimmed(v), c, i)
    ensures EraseView(v, b, i) == Erased(Trimmed(v), c, i)
  {
  }

  lemma TrimmedIndex(v: seq<seq<int>>, block: nat, b: nat, i: nat)
    requires ViewOk(v, block) && At(v, b, i)
    ensures |Trimmed(v)| > 0 && |Trimmed(v)[0]| > 0 && (|Trimmed(v)| < |v| ==> b > 0)
    ensures |v| - |Trimmed(v)| == (if v[0] == [] then 1 else 0) && (v[0] == [] ==> |v| > 1)
    ensures var c := b - (|v| - |Trimmed(v)|); c >= 0 && At(Trimmed(v), c, i)
  {
    TrimmedOk(v, block, 0);
  }

  lemma EraseViewOk(v: seq<seq<int>>, block: nat, b: nat, i: nat, x: int)
    requires ViewOk(v, block) && At(v, b, i)
    ensures |Trimmed(v)| > 0 && |Trimmed(v)[0]| > 0 && (|Trimmed(v)| < |v| ==> b > 0)
    ensures ViewOk(EraseView(v, b, i), block) && Count(EraseView(v, b, i), x) + One(v[b][i], x) == Count(v, x)
  {
    hide Count, One;
    TrimmedOk(v, block, x);
    var w := Trimmed(v);
    var c: nat := b - (|v| - |w|);
    assert w[c] == v[b];
    var last := w[0][|w[0]| - 1];
    var u := w[c := w[c][i := last]];
    CountReplace(w, c, i, last, x);
    assert |u[0]| == |w[0]| && u[0][|u[0]| - 1] == last;
    CountShrink(u, 0, x);
  }

  /* --------------------------------------------------------------- the heap */

  /** A stack of objects in an array. */
  class Block {
    var next: Block?
    var size: nat
    const data: array<int>

    constructor (block: nat, next: Block?)
      ensures this.next == next && size == 0 && fresh(data) && data.Length == block
    {
      this.next := next;
      size := 0;
      data := new int[block](_ => 0);
    }

    ghost function Stack(): seq<int>
      reads this`size, data
    {
      if size <= data.Length then data[..size] else []
    }

    method Push(p: int)
      requires size < data.Length
      modifies this`size, data
      ensures Stack() == old(Stack()) + [p] && size == old(size) + 1
    {
      data[size] := p;
      size := size + 1;
    }

    method Pop() returns (p: int)
      requires 0 < size <= data.Length
      modifies this`size
      ensures size == old(size) - 1 && old(Stack()) == Stack() + [p]
    {
      size := size - 1;
      p := data[size];
    }

    function Peek(ix: nat): (p: int)
      requires ix < size <= data.Length
      reads this`size, data
      ensures p == Stack()[ix]
    {
      data[ix]
    }

    method Replace(ix: nat, p: int)
      requires ix < size <= data.Length
      modifies data
      ensures Stack() == old(Stack())[ix := p]
    {
      data[ix] := p;
    }

    /** `erase` by index: the last object takes the place of the erased one. */
    method Erase(ix: nat)
      requires ix < size <= data.Length
      modifies this`size, data
      ensures size == old(size) - 1
      ensures Stack() == old(Stack()[ix := Stack()[size - 1]][..size - 1])
    {
      if ix != size - 1 {
        data[ix] := data[size - 1];
      }
      size := size - 1;
    }
  }

  ghost function Arrays(blocks: seq<Block>): set<array<int>> {
    set b | b in blocks :: b.data
  }

  ghost function ViewOf(blocks: seq<Block>): (v: seq<seq<int>>)
    reads blocks`size, set b | b in blocks :: b.data
    ensures |v| == |blocks|
  {
    if blocks == [] then [] else ViewOf(blocks[..|blocks| - 1]) + [blocks[|blocks| - 1].Stack()]
  }

  lemma {:induction false} ViewAt(blocks: seq<Block>, i: nat)
    requires i < |blocks|
    ensures ViewOf(blocks)[i] == blocks[i].Stack()
  {
    if i < |blocks| - 1 {
      ViewAt(blocks[..|blocks| - 1], i);
    }
  }

  ghost function First(blocks: seq<Block>, end: Block?): Block? {
    if blocks == [] then end else blocks[0]
  }

  ghost function Follower(blocks: seq<Block>, i: nat, end: Block?): Block?
    requires i < |blocks|
  {
    if i + 1 < |blocks| then blocks[i + 1] else end
  }

  ghost predicate Apart(a: Block, b: Block) {
    a != b && a.data != b.data
  }

  ghost predicate LinkedAt(blocks: seq<Block>, i: nat, block: nat, end: Block?)
    requires i < |blocks|
    reads blocks`next
  {
    blocks[i].next == Follower(blocks, i, end) && blocks[i].data.Length == block
  }

  /** The blocks are linked in this order, the last one to end, and share nothing. */
  ghost predicate LinkedTo(blocks: seq<Block>, block: nat, end: Block?)
    reads blocks`next
  {
    && (forall i: nat | i < |blocks| :: LinkedAt(blocks, i, block, end))
    && (forall i, j | 0 <= i < j < |blocks| :: Apart(blocks[i], blocks[j]))
  }

  ghost predicate Linked(blocks: seq<Block>, block: nat)
    reads blocks`next
  {
    LinkedTo(blocks, block, null)
  }

  lemma LinkSlice(blocks: seq<Block>, k: nat, block: nat, end: Block?)
    requires LinkedTo(blocks, block, end) && k <= |blocks|
    ensures LinkedTo(blocks[..k], block, First(blocks[k..], end)) && LinkedTo(blocks[k..], block, end)
    ensures Separate(blocks[..k], blocks[k..])
  {
    forall i: nat | i < k ensures LinkedAt(blocks[..k], i, block, First(blocks[k..], end)) {
      assert LinkedAt(blocks, i, block, end);
    }
    forall i: nat | i < |blocks[k..]| ensures LinkedAt(blocks[k..], i, block, end) {
      assert LinkedAt(blocks, i + k, block, end);
    }
  }

  lemma LinkJoin(a: seq<Block>, b: seq<Block>, block: nat, end: Block?)
    requires LinkedTo(a, block, First(b, end)) && LinkedTo(b, block, end) && Separate(a, b)
    ensures LinkedTo(a + b, block, end)
  {
    var all := a + b;
    forall i: nat | i < |all| ensures LinkedAt(all, i, block, end) {
      if i < |a| {
        assert LinkedAt(a, i, block, First(b, end));
      } else {
        assert LinkedAt(b, i - |a|, block, end);
      }
    }
    forall i, j | 0 <= i < j < |all| ensures Apart(all[i], all[j]) {
      if i < |a| && |a| <= j {
        assert Apart(a[i], b[j - |a|]);
      }
    }
  }

  lemma LinkOne(b: Block, block: nat)
    requires b.data.Length == block
    ensures LinkedTo([b], block, b.next)
  {
  }

  ghost predicate Separate(a: seq<Block>, b: seq<Block>) {
    forall i, j | 0 <= i < |a| && 0 <= j < |b| :: Apart(a[i], b[j])
  }

  ghost predicate AllFull(blocks: seq<Block>, block: nat)
    reads blocks`size
  {
    forall i | 0 <= i < |blocks| :: blocks[i].size == block
  }

  lemma LinkKnown(blocks: seq<Block>, k: nat, block: nat)
    requires Linked(blocks, block) && k < |blocks|
    ensures blocks[k].next == Follower(blocks, k, null) && blocks[k].data.Length == block
    ensures forall i | 0 <= i < |blocks| && i != k :: blocks[i] != blocks[k] && blocks[i].data != blocks[k].data
  {
    assert LinkedAt(blocks, k, block, null);
    forall i | 0 <= i < |blocks| && i != k ensures blocks[i] != blocks[k] && blocks[i].data != blocks[k].data {
      assert Apart(blocks[if i < k then i else k], blocks[if i < k then k else i]);
    }
  }

  lemma LinkCons(b: Block, blocks: seq<Block>, block: nat)
    requires Linked(blocks, block) && b.data.Length == block && b.next == First(blocks, null)
    requires Separate([b], blocks)
    ensures Linked([b] + blocks, block)
  {
    LinkOne(b, block);
    LinkJoin([b], blocks, block, null);
  }

  lemma LinkTail(blocks: seq<Block>, k: nat, block: nat)
    requires Linked(blocks, block) && k <= |blocks|
    ensures Linked(blocks[k..], block)
  {
    LinkSlice(blocks, k, block, null);
  }

  lemma ViewIs(blocks: seq<Block>, v: seq<seq<int>>)
    requires |v| == |blocks| && forall i | 0 <= i < |v| :: v[i] == blocks[i].Stack()
    ensures ViewOf(blocks) == v
  {
    hide ViewOf, Block.Stack;
    forall i: nat | i < |v| ensures ViewOf(blocks)[i] == v[i] {
      ViewAt(blocks, i);
    }
  }

  lemma ViewJoin(a: seq<Block>, b: seq<Block>)
    ensures ViewOf(a + b) == ViewOf(a) + ViewOf(b)
  {
    hide ViewOf, Block.Stack;
    forall i: nat | i < |a + b| ensures ViewOf(a + b)[i] == (ViewOf(a) + ViewOf(b))[i] {
      ViewAt(a + b, i);
      if i < |a| {
        ViewAt(a, i);
      } else {
        ViewAt(b, i - |a|);
      }
    }
  }

  lemma ViewSplit(blocks: seq<Block>, k: nat)
    requires k <= |blocks|
    ensures ViewOf(blocks[..k]) == ViewOf(blocks)[..k] && ViewOf(blocks[k..]) == ViewOf(blocks)[k..]
  {
    hide ViewOf;
    ViewJoin(blocks[..k], blocks[k..]);
    assert blocks[..k] + blocks[k..] == blocks;
  }

  /** After a change to the k-th block alone. */
  lemma ViewChanged(blocks: seq<Block>, v: seq<seq<int>>, k: nat)
    requires |v| == |blocks| && k < |blocks|
    requires forall i: nat | i < |blocks| && i != k :: blocks[i].Stack() == v[i]
    ensures ViewOf(blocks) == v[k := blocks[k].Stack()]
  {
    hide Block.Stack;
    ViewIs(blocks, v[k := blocks[k].Stack()]);
  }

  ghost predicate Shows(blocks: seq<Block>, v: seq<seq<int>>)
    reads blocks`size, set b | b in blocks :: b.data
  {
    |v| == |blocks| && forall i: nat | i < |blocks| :: blocks[i].Stack() == v[i]
  }

  lemma ViewShows(blocks: seq<Block>)
    ensures Shows(blocks, ViewOf(blocks))
  {
    forall i: nat | i < |blocks| ensures blocks[i].Stack() == ViewOf(blocks)[i] {
      ViewAt(blocks, i);
    }
  }

  class BlockBag {
    const block: nat             // BLOCK_SIZE
    var sizeInBlocks: int
    var head: Block
    var tail: Block
    ghost var blocks: seq<Block>

    /** Nothing is wrong with the bag, but its head may be full. */
    ghost predicate Loose()
      reads this, blocks
    {
      && block > 0 && |blocks| > 0 && head == blocks[0] && tail == blocks[|blocks| - 1]
      && sizeInBlocks == |blocks| && Linked(blocks, block)
      && head.size <= block && AllFull(blocks[1..], block)
    }

    ghost predicate Valid()
      reads this, blocks
    {
      Loose() && head.size < block
    }

    ghost function View(): seq<seq<int>>
      reads this`blocks, blocks`size, set b | b in blocks :: b.data
    {
      ViewOf(blocks)
    }

    lemma ValidView()
      requires Valid()
      ensures ViewOk(View(), block)
    {
      hide ViewOf;
      forall i: nat | i < |blocks| ensures View()[i] == blocks[i].Stack() && blocks[i].data.Length == block {
        LinkKnown(blocks, i, block);
        ViewAt(blocks, i);
      }
      forall i | 1 <= i < |blocks| ensures blocks[i].size == block {
        assert blocks[1..][i - 1] == blocks[i];
      }
    }

    constructor (block: nat)
      requires block > 0
      ensures Valid() && EmptyView(View()) && this.block == block
      ensures |blocks| == 1 && fresh(blocks[0]) && fresh(blocks[0].data)
    {
      this.block := block;
      sizeInBlocks := 1;
      var b := new Block(block, null);
      head := b;
      tail := b;
      blocks := [b];
      new;
      ViewIs(blocks, [[]]);
    }

    /** `computeSizeInBlocks` walks the list. */
    method ComputeSizeInBlocks() returns (n: int)
      requires |blocks| > 0 && head == blocks[0] && Linked(blocks, block)
      ensures n == |blocks|
    {
      hide Linked;
      n := 0;
      var curr: Block? := head;
      while curr != null
        invariant 0 <= n <= |blocks| && curr == if n < |blocks| then blocks[n] else null
        decreases |blocks| - n
      {
        LinkKnown(blocks, n, block);
        n := n + 1;
        curr := curr.next;
      }
    }

    method Add(p: int)
      requires Valid()
      modifies this, head`size, head.data
      ensures Valid() && View() == AddView(old(View()), block, p)
      ensures blocks == old(blocks)
              || (|blocks| > 0 && blocks[1..] == old(blocks) && fresh(blocks[0]) && fresh(blocks[0].data))
    {
      hide ViewOf, Linked, AllFull;
      ghost var v := View();
      ViewShows(blocks);
      LinkKnown(blocks, 0, block);
      head.Push(p);
      hide Block.Stack;
      ViewChanged(blocks, v, 0);
      if head.size == block {
        AddHead();
      }
    }

    /** A full head gets an empty block in front of it. */
    method AddHead()
      requires Loose() && head.size == block
      modifies this
      ensures Valid() && View() == [[]] + old(View())
      ensures |blocks| > 0 && blocks[1..] == old(blocks) && fresh(blocks[0]) && fresh(blocks[0].data)
    {
      hide ViewOf, Linked;
      ghost var all := blocks;
      ghost var v := View();
      ViewShows(all);
      var b := new Block(block, head);
      sizeInBlocks := sizeInBlocks + 1;
      head := b;
      blocks := [b] + blocks;
      assert blocks[1..] == all;
      AllFullCons(all);
      LinkCons(b, all, block);
      ViewIs([b], [[]]);
      ViewIs(all, v);
      hide Block.Stack;
      ViewJoin([b], all);
    }

    lemma AllFullCons(all: seq<Block>)
      requires all != [] && all[0].size == block && AllFull(all[1..], block)
      ensures AllFull(all, block)
    {
      assert all == [all[0]] + all[1..];
    }

    method IsEmpty() returns (r: bool)
      requires Valid()
      ensures r <==> EmptyView(View())
    {
      hide ViewOf, Linked;
      LinkKnown(blocks, 0, block);
      r := head.next == null && head.size == 0;
      ViewAt(blocks, 0);
      assert EmptyView(View()) <==> View()[0] == [] && |View()| == 1;
    }

    /** The first step of `remove` and `erase`: an empty head goes back to the block pool. */
    method DropEmptyHead()
      requires Valid() && (head.size == 0 ==> |blocks| > 1)
      modifies this
      ensures Loose() && head.size > 0 && View() == Trimmed(old(View()))
      ensures blocks == if old(head.size == 0) then old(blocks)[1..] else old(blocks)
    {
      hide ViewOf, Linked;
      LinkKnown(blocks, 0, block);
      ViewAt(blocks, 0);
      if head.size == 0 {
        ghost var all := blocks;
        ghost var v := View();
        ViewShows(all);
        assert all[1..][0] == all[1] && all[1..][1..] == all[2..];
        head := head.next;
        sizeInBlocks := sizeInBlocks - 1;
        blocks := blocks[1..];
        LinkTail(all, 1, block);
        ViewIs(all, v);
        ViewSplit(all, 1);
        FullTail(all);
      }
    }

    lemma FullTail(all: seq<Block>)
      requires |all| > 1 && AllFull(all[1..], block)
      ensures all[1].size == block && AllFull(all[1..][1..], block)
    {
      assert all[1..][0] == all[1];
    }

    lemma NotEmpty()
      requires Valid() && !EmptyView(View())
      ensures head.size == 0 ==> |blocks| > 1
    {
      hide ViewOf;
      ViewAt(blocks, 0);
    }

    method Remove() returns (p: int)
      requires Valid() && !EmptyView(View())
      modifies this, blocks`size
      ensures Valid() && |Trimmed(old(View()))| > 0 && |Trimmed(old(View()))[0]| > 0
      ensures View() == RemoveView(old(View()))
      ensures p == Trimmed(old(View()))[0][|Trimmed(old(View()))[0]| - 1]
      ensures blocks == old(blocks) || (|old(blocks)| > 0 && blocks == old(blocks)[1..])
    {
      hide ViewOf, Linked, AllFull;
      NotEmpty();
      DropEmptyHead();
      p := TakeLast();
    }

    /** The last object of the head is taken out. */
    method TakeLast() returns (p: int)
      requires Loose() && head.size > 0
      modifies head`size
      ensures Valid() && blocks == old(blocks)
      ensures |old(View())[0]| > 0 && View() == old(View())[0 := old(View())[0][..|old(View())[0]| - 1]]
      ensures p == old(View())[0][|old(View())[0]| - 1]
    {
      hide ViewOf, Linked, AllFull;
      ghost var v := View();
      ViewShows(blocks);
      LinkKnown(blocks, 0, block);
      p := head.Pop();
      hide Block.Stack;
      assert v[0] == head.Stack() + [p];
      ViewChanged(blocks, v, 0);
    }

    /** `erase` of the object at index ix of the b-th block; the result tells the iterator
        whether that place now holds an object that it has already passed. */
    method Erase(curr: Block, ix: nat, ghost b: nat) returns (r: bool)
      requires Valid() && At(View(), b, ix) && curr == blocks[b]
      modifies this, blocks`size, Arrays(blocks)
      ensures Valid() && |Trimmed(old(View()))| > 0 && |Trimmed(old(View()))[0]| > 0
      ensures |Trimmed(old(View()))| < |old(View())| ==> b > 0
      ensures View() == EraseView(old(View()), b, ix)
      ensures r <==> curr != head
    {
      hide ViewOf, Linked, AllFull, Trimmed, EraseView;
      ghost var v := View();
      ViewAt(blocks, 0);
      LinkKnown(blocks, 0, block);
      ValidView();
      TrimmedIndex(v, block, b, ix);
      DropEmptyHead();
      ghost var c: nat := b - (|v| - |Trimmed(v)|);
      if curr == head {
        LinkKnown(blocks, c, block);
        EraseFromHead(ix);
      } else {
        EraseFromOther(curr, ix, c);
      }
      r := curr != head;
      EraseIs(v, b, ix, c);
    }

    method EraseFromHead(ix: nat)
      requires Loose() && head.size > 0 && At(View(), 0, ix)
      modifies head`size, head.data
      ensures Valid() && blocks == old(blocks) && head == old(head) && |old(View())[0]| > 0
      ensures View() == Erased(old(View()), 0, ix)
    {
      hide ViewOf, Linked, AllFull;
      ghost var w := View();
      LinkKnown(blocks, 0, block);
      ViewShows(blocks);
      head.Erase(ix);
      hide Block.Stack;
      ViewChanged(blocks, w, 0);
    }

    method EraseFromOther(curr: Block, ix: nat, ghost c: nat)
      requires Loose() && head.size > 0 && At(View(), c, ix) && curr == blocks[c] && curr != head
      modifies head`size, curr.data
      ensures Valid() && blocks == old(blocks) && head == old(head) && |old(View())[0]| > 0
      ensures View() == Erased(old(View()), c, ix)
    {
      hide ViewOf, Linked, AllFull;
      ghost var w := View();
      LinkKnown(blocks, 0, block);
      LinkKnown(blocks, c, block);
      SizeKnown(c);
      var last := TakeLast();
      ghost var u := View();
      ViewShows(blocks);
      curr.Replace(ix, last);
      hide Block.Stack;
      ViewChanged(blocks, u, c);
    }

    lemma SizeKnown(c: nat)
      requires Loose() && 0 < c < |blocks|
      ensures blocks[c].size == block
    {
      assert blocks[1..][c - 1] == blocks[c];
    }

    /** `removeFullBlock`: the second block, if there are at least three. */
    method RemoveFullBlock() returns (b: Block?)
      requires Valid()
      modifies this`sizeInBlocks, this`blocks, blocks`next
      ensures Valid()
      ensures |old(View())| < 3 ==> b == null && View() == old(View()) && blocks == old(blocks)
      ensures |old(View())| >= 3 ==>
                && b != null && b == old(blocks)[1] && b.next == null && b.Stack() == old(View())[1]
                && View() == [old(View())[0]] + old(View())[2..]
                && blocks == [old(blocks)[0]] + old(blocks)[2..]
    {
      hide ViewOf, LinkedTo, AllFull, Separate;
      LinkKnown(blocks, 0, block);
      b := head.next;
      if b != null {
        LinkKnown(blocks, 1, block);
        if b.next != null {
          RemoveSecond(b);
        } else {
          b := null;
        }
      }
    }

    method RemoveSecond(b: Block)
      requires Valid() && |blocks| >= 3 && b == blocks[1] && b.next == blocks[2]
      modifies this`sizeInBlocks, this`blocks, head`next, b`next
      ensures Valid() && head == old(head) && b.next == null && b.Stack() == old(View())[1]
      ensures View() == [old(View())[0]] + old(View())[2..] && blocks == [old(blocks)[0]] + old(blocks)[2..]
    {
      hide ViewOf, LinkedTo, AllFull, Separate;
      ghost var all := blocks;
      ghost var rest := all[2..];
      ghost var v := View();
      SecondOut(all);
      ViewShows(all);
      head.next := b.next;
      b.next := null;
      sizeInBlocks := sizeInBlocks - 1;
      blocks := [head] + rest;
      LinkCons(head, rest, block);
      assert blocks[1..] == rest;
      ViewIs(all, v);
      ViewIs([head], [v[0]]);
      hide Block.Stack;
      ViewSplit(all, 2);
      ViewJoin([head], rest);
    }

    lemma SecondOut(all: seq<Block>)
      requires |all| >= 3 && Linked(all, block) && AllFull(all[1..], block)
      ensures Linked(all[2..], block) && AllFull(all[2..], block) && Separate([all[0]], all[2..])
      ensures all[0] !in all[2..] && all[1] !in all[2..] && all[1] != all[0] && all[0].data.Length == block
      ensures First(all[2..], null) == all[2]
    {
      LinkSlice(all, 2, block, null);
      LinkKnown(all, 0, block);
      LinkKnown(all, 1, block);
      assert all[2..] == all[1..][1..];
    }

    /** `addFullBlock`: a full block goes to the end. */
    method AddFullBlock(b: Block)
      requires Valid() && b.size == block == b.data.Length && b.next == null && Separate(blocks, [b])
      modifies this, tail`next
      ensures Valid() && View() == old(View()) + [old(b.Stack())] && blocks == old(blocks) + [b]
    {
      FullOne(b);
      hide ViewOf, LinkedTo, AllFull, Separate, Block.Stack;
      Append(b, [b], b);
      CountOne();
    }

    lemma FullOne(b: Block)
      requires b.size == block == b.data.Length && b.next == null
      ensures AllFull([b], block) && Linked([b], block) && ViewOf([b]) == [b.Stack()]
    {
      LinkOne(b, block);
      ghost var s := b.Stack();
      hide ViewOf;
      ViewIs([b], [s]);
    }

    /** `sizeInBlocks` counts the new block; nothing else changes. */
    method CountOne()
      modifies this`sizeInBlocks
      ensures sizeInBlocks == old(sizeInBlocks) + 1 && View() == old(View())
    {
      hide ViewOf;
      ghost var v := View();
      ViewShows(blocks);
      sizeInBlocks := sizeInBlocks + 1;
      ViewIs(blocks, v);
    }

    /** The first half of `appendMoveFullBlocks`, on the bag that takes. */
    method Extend(first: Block, ghost more: seq<Block>, last: Block)
      requires Valid() && more != [] && first == more[0] && last == more[|more| - 1]
      requires Linked(more, block) && AllFull(more, block) && Separate(blocks, more)
      modifies this`tail, this`sizeInBlocks, this`blocks, tail`next
      ensures Valid() && blocks == old(blocks) + more && View() == old(View()) + old(ViewOf(more))
    {
      hide ViewOf, LinkedTo, AllFull, Separate, Block.Stack;
      Append(first, more, last);
      Recount();
    }

    /** `sizeInBlocks` is set to the number of blocks; nothing else changes. */
    method Recount()
      requires |blocks| > 0 && head == blocks[0] && Linked(blocks, block)
      modifies this`sizeInBlocks
      ensures sizeInBlocks == |blocks| && View() == old(View())
    {
      hide ViewOf, LinkedTo;
      ghost var v := View();
      ViewShows(blocks);
      sizeInBlocks := ComputeSizeInBlocks();
      ViewIs(blocks, v);
    }

    /** Blocks that are linked among themselves become the end of the list; the count of
        blocks is left to the caller. */
    method Append(first: Block, ghost more: seq<Block>, last: Block)
      requires Valid() && more != [] && first == more[0] && last == more[|more| - 1]
      requires Linked(more, block) && AllFull(more, block) && Separate(blocks, more)
      modifies this`tail, this`blocks, tail`next
      ensures blocks == old(blocks) + more && tail == last && head == old(head) == blocks[0] && head.size < block
      ensures Linked(blocks, block) && AllFull(blocks[1..], block) && View() == old(View()) + old(ViewOf(more))
    {
      hide ViewOf, LinkedTo, AllFull, Separate;
      ghost var all := blocks;
      ghost var v, w := View(), ViewOf(more);
      ViewShows(all);
      ViewShows(more);
      LastOut(all, more);
      tail.next := first;
      LastLinked(all, more);
      tail := last;
      blocks := all + more;
      ViewIs(all, v);
      ViewIs(more, w);
      hide Block.Stack;
      ViewJoin(all, more);
      FullJoin(all, more);
    }

    lemma FullJoin(all: seq<Block>, more: seq<Block>)
      requires all != [] && AllFull(all[1..], block) && AllFull(more, block)
      ensures AllFull((all + more)[1..], block)
    {
      assert (all + more)[1..] == all[1..] + more;
    }

    /** What is known of the last block before it is linked to the others. */
    lemma LastOut(all: seq<Block>, more: seq<Block>)
      requires all != [] && Linked(all, block) && Separate(all, more)
      ensures var n := |all| - 1; var last := all[n];
              && LinkedTo(all[..n], block, last) && last.data.Length == block
              && Separate([last], more) && Separate(all[..n], [last] + more)
              && last !in more && last !in all[..n]
    {
      var n := |all| - 1;
      LinkSlice(all, n, block, null);
      LinkKnown(all, n, block);
      assert all[n..] == [all[n]];
      ApartTail(all, more);
    }

    lemma LastLinked(all: seq<Block>, more: seq<Block>)
      requires all != [] && more != [] && Linked(more, block)
      requires var n := |all| - 1; var last := all[n];
               && LinkedTo(all[..n], block, last) && last.data.Length == block && last.next == more[0]
               && Separate([last], more) && Separate(all[..n], [last] + more)
      ensures Linked(all + more, block)
    {
      hide LinkedTo, Separate;
      var n := |all| - 1;
      LinkOne(all[n], block);
      LinkJoin([all[n]], more, block, null);
      LinkJoin(all[..n], [all[n]] + more, block, null);
      assert all[..n] + ([all[n]] + more) == all + more;
    }

    lemma ApartTail(all: seq<Block>, more: seq<Block>)
      requires all != [] && Separate(all, more)
      requires Separate(all[..|all| - 1], all[|all| - 1..])
      ensures Separate([all[|all| - 1]], more) && Separate(all[..|all| - 1], [all[|all| - 1]] + more)
      ensures all[|all| - 1] !in more && all[|all| - 1] !in all[..|all| - 1]
    {
      var n := |all| - 1;
      assert all[n..] == [all[n]];
      forall j | 0 <= j < |more| ensures all[n] != more[j] {
        assert Apart(all[n], more[j]);
      }
      forall j | 0 <= j < n ensures all[n] != all[..n][j] {
        assert Apart(all[..n][j], all[n..][0]);
      }
    }

    /** `appendMoveFullBlocks`: the blocks of the other bag after predecessor come here. */
    method AppendMoveFullBlocks(other: BlockBag, predecessor: Block, ghost j: nat)
      requires Valid() && other.Valid() && other != this && other.block == block && Separate(blocks, other.blocks)
      requires j < |other.blocks| && predecessor == other.blocks[j]
      modifies this`tail, this`sizeInBlocks, this`blocks, other`tail, other`sizeInBlocks, other`blocks
      modifies tail`next, predecessor`next
      ensures Valid() && other.Valid()
      ensures blocks == old(blocks) + old(other.blocks)[j + 1..] && other.blocks == old(other.blocks)[..j + 1]
      ensures View() == old(View()) + old(other.View())[j + 1..] && other.View() == old(other.View())[..j + 1]
    {
      hide ViewOf, LinkedTo, AllFull, Separate, Block.Stack;
      ghost var all := other.blocks;
      LinkKnown(all, j, block);
      if predecessor.next != null {
        MoveFrom(other, predecessor, j);
      } else {
        assert all[j + 1..] == [] && all[..j + 1] == all;
        assert other.View()[j + 1..] == [] && other.View()[..j + 1] == other.View();
      }
    }

    method MoveFrom(other: BlockBag, predecessor: Block, ghost j: nat)
      requires Valid() && other.Valid() && other != this && other.block == block && Separate(blocks, other.blocks)
      requires j + 1 < |other.blocks| && predecessor == other.blocks[j] && predecessor.next == other.blocks[j + 1]
      modifies this`tail, this`sizeInBlocks, this`blocks, other`tail, other`sizeInBlocks, other`blocks
      modifies tail`next, predecessor`next
      ensures Valid() && other.Valid()
      ensures blocks == old(blocks) + old(other.blocks)[j + 1..] && other.blocks == old(other.blocks)[..j + 1]
      ensures View() == old(View()) + old(other.View())[j + 1..] && other.View() == old(other.View())[..j + 1]
    {
      hide Block.Stack, ViewOf, LinkedTo, AllFull, Separate;
      ghost var mine, all, w := blocks, other.blocks, other.View();
      MoveOut(mine, all, j);
      FullSlices(all, j);
      ViewSplit(all, j + 1);
      ViewShows(all);
      Extend(predecessor.next, all[j + 1..], other.tail);
      ViewIs(all, w);
      InBoth(mine, all, j);
      CutOther(other, predecessor, j, all[j + 1]);
    }

    /** The other bag is cut; nothing in this one changes. */
    method CutOther(other: BlockBag, predecessor: Block, ghost j: nat, ghost end: Block)
      requires Valid() && other != this && predecessor !in blocks && other.block > 0
      requires j < |other.blocks| && predecessor == other.blocks[j]
      requires other.head == other.blocks[0] && other.head.size < other.block
      requires LinkedTo(other.blocks[..j + 1], other.block, end) && AllFull(other.blocks[..j + 1][1..], other.block)
      modifies other`tail, other`sizeInBlocks, other`blocks, predecessor`next
      ensures Valid() && View() == old(View())
      ensures other.Valid() && other.blocks == old(other.blocks)[..j + 1] && other.View() == old(other.View())[..j + 1]
    {
      hide ViewOf, LinkedTo, AllFull, Separate;
      ghost var v := View();
      ViewShows(blocks);
      other.CutAfter(predecessor, j, end);
      ViewIs(blocks, v);
    }

    lemma InBoth(mine: seq<Block>, all: seq<Block>, j: nat)
      requires j < |all| && all[j] !in mine && all[j] !in all[j + 1..]
      ensures all[j] !in mine + all[j + 1..]
    {
    }

    /** What is known of the two parts of the other bag before anything moves. */
    lemma MoveOut(mine: seq<Block>, all: seq<Block>, j: nat)
      requires mine != [] && Separate(mine, all) && Linked(all, block) && j + 1 < |all|
      ensures Linked(all[j + 1..], block) && Separate(mine, all[j + 1..])
      ensures LinkedTo(all[..j + 1], block, all[j + 1])
      ensures mine[|mine| - 1] !in all && all[j] !in mine && all[j] !in all[j + 1..]
    {
      LinkSlice(all, j + 1, block, null);
      ApartSets(mine, all);
      LinkKnown(all, j, block);
    }

    lemma FullSlices(all: seq<Block>, j: nat)
      requires j + 1 < |all| && AllFull(all[1..], block)
      ensures AllFull(all[j + 1..], block) && AllFull(all[..j + 1][1..], block)
    {
      assert all[j + 1..] == all[1..][j..];
      assert all[..j + 1][1..] == all[1..][..j];
    }

    lemma ApartSets(mine: seq<Block>, all: seq<Block>)
      requires Separate(mine, all)
      ensures forall b | b in mine :: b !in all
    {
      forall b | b in mine ensures b !in all {
        var i :| 0 <= i < |mine| && mine[i] == b;
        forall j | 0 <= j < |all| ensures all[j] != b {
          assert Apart(mine[i], all[j]);
        }
      }
    }

    /** The second half of `appendMoveFullBlocks`, on the bag that gives. */
    method CutAfter(predecessor: Block, ghost j: nat, ghost end: Block)
      requires |blocks| > 0 && head == blocks[0] && block > 0 && head.size < block && j < |blocks|
               && predecessor == blocks[j]
      requires LinkedTo(blocks[..j + 1], block, end) && AllFull(blocks[..j + 1][1..], block)
      modifies this`tail, this`sizeInBlocks, this`blocks, predecessor`next
      ensures Valid() && blocks == old(blocks)[..j + 1] && View() == old(View())[..j + 1]
    {
      hide ViewOf, LinkedTo, AllFull, Separate;
      ghost var kept := blocks[..j + 1];
      ghost var v := View();
      ViewShows(blocks);
      KeptLink(kept, j, block, end);
      predecessor.next := null;
      KeptJoined(kept, j, block);
      tail := predecessor;
      ghost var all := blocks;
      blocks := kept;
      ViewIs(all, v);
      ViewSplit(all, j + 1);
      Recount();
    }

    lemma KeptLink(kept: seq<Block>, j: nat, block: nat, end: Block?)
      requires |kept| == j + 1 && LinkedTo(kept, block, end)
      ensures LinkedTo(kept[..j], block, kept[j]) && kept[j].data.Length == block
      ensures Separate(kept[..j], [kept[j]]) && kept[j] !in kept[..j]
    {
      LinkSlice(kept, j, block, end);
      assert kept[j..] == [kept[j]];
      assert LinkedAt(kept, j, block, end);
    }

    lemma KeptJoined(kept: seq<Block>, j: nat, block: nat)
      requires |kept| == j + 1 && LinkedTo(kept[..j], block, kept[j]) && kept[j].data.Length == block
      requires Separate(kept[..j], [kept[j]]) && kept[j].next == null
      ensures Linked(kept, block)
    {
      LinkOne(kept[j], block);
      LinkJoin(kept[..j], [kept[j]], block, null);
      assert kept[..j] + [kept[j]] == kept;
    }

    lemma ViewLength()
      ensures |View()| == |blocks|
    {
      hide ViewOf;
      ViewShows(blocks);
    }

    lemma SizeBound(c: nat)
      requires Valid() && c < |blocks|
      ensures blocks[c].size <= block
    {
      assert c > 0 ==> blocks[1..][c - 1] == blocks[c];
    }

    /** `replace` in one block of the bag. */
    method SetObject(b: Block, ix: nat, p: int, ghost c: nat)
      requires Valid() && c < |blocks| && b == blocks[c] && ix < b.size
      modifies b.data
      ensures Valid() && At(old(View()), c, ix) && View() == old(View())[c := old(View())[c][ix := p]]
    {
      hide ViewOf, LinkedTo, AllFull;
      ghost var v := View();
      ViewShows(blocks);
      LinkKnown(blocks, c, block);
      SizeBound(c);
      b.Replace(ix, p);
      hide Block.Stack;
      ViewChanged(blocks, v, c);
    }

    /** `appendMoveAll`: the other bag ends up empty, and nothing is lost or doubled. */
    method AppendMoveAll(other: BlockBag)
      requires Valid() && other.Valid() && other != this && other.block == block && Separate(blocks, other.blocks)
      modifies this, other, tail`next, head, head.data, other.head
      ensures Valid() && other.Valid() && EmptyView(other.View())
      ensures forall x :: Count(View(), x) == old(Count(View(), x)) + old(Count(other.View(), x))
    {
      hide ViewOf, LinkedTo, AllFull, Separate, SameTotal, EmptyView, Count;
      ghost var v, w := View(), other.View();
      MoveFull(other);
      ghost var v1, w1 := View(), other.View();
      Drain(other);
      ghost var u := other.View();
      TotalTrans(View(), u, v1, w1, v, w);
      AllTaken(View(), u, v, w);
      ViewShows(other.blocks);
      Recount();
      ViewIs(other.blocks, u);
    }

    method MoveFull(other: BlockBag)
      requires Valid() && other.Valid() && other != this && other.block == block && Separate(blocks, other.blocks)
      modifies this, other, tail`next, other.head`next
      ensures Valid() && other.Valid() && head == old(head) && other.head == old(other.head)
      ensures |other.blocks| == 1 && Separate(blocks, other.blocks)
      ensures SameTotal(View(), other.View(), old(View()), old(other.View()))
    {
      hide Linked;
      MovedApart(blocks, other.blocks, block);
      hide ViewOf, LinkedTo, AllFull, Separate, SameTotal;
      other.ViewLength();
      MovedCount(View(), other.View());
      AppendMoveFullBlocks(other, other.head, 0);
    }

    /** The loop of `appendMoveAll`, on a bag with one block. */
    method Drain(other: BlockBag)
      requires Valid() && other.Valid() && other != this && |other.blocks| == 1 && other.block == block
      requires Separate(blocks, other.blocks)
      modifies this, other, head`size, head.data, other.head`size
      ensures Valid() && other.Valid() && EmptyView(other.View()) && other.blocks == old(other.blocks)
      ensures SameTotal(View(), other.View(), old(View()), old(other.View()))
    {
      hide ViewOf, LinkedTo, AllFull, Separate, SameTotal, EmptyView;
      ghost var v0, w0 := View(), other.View();
      other.ViewLength();
      TotalSame(v0, w0);
      while true
        invariant Valid() && other.Valid() && other.blocks == old(other.blocks) && Separate(blocks, other.blocks)
        invariant head == old(head) || (fresh(head) && fresh(head.data))
        invariant |other.View()| == 1 && SameTotal(View(), other.View(), v0, w0)
        decreases |other.View()[0]|
      {
        ghost var v, w := View(), other.View();
        ViewShows(blocks);
        ViewShows(other.blocks);
        var done := other.IsEmpty();
        ViewIs(blocks, v);
        ViewIs(other.blocks, w);
        if done {
          break;
        }
        MoveOne(other);
        TotalTrans(View(), other.View(), v, w, v0, w0);
      }
    }

    /** One turn of that loop. */
    method MoveOne(other: BlockBag)
      requires Valid() && other.Valid() && other != this && |other.blocks| == 1 && other.block == block
      requires Separate(blocks, other.blocks) && !EmptyView(other.View())
      modifies this, other, head`size, head.data, other.head`size
      ensures Valid() && other.Valid() && other.blocks == old(other.blocks) && Separate(blocks, other.blocks)
      ensures |other.View()[0]| < |old(other.View())[0]|
      ensures head == old(head) || (fresh(head) && fresh(head.data))
      ensures |other.View()| == 1 && SameTotal(View(), other.View(), old(View()), old(other.View()))
    {
      hide Block.Stack, ViewOf, LinkedTo, AllFull, Separate, SameTotal, EmptyView, AddView;
      ghost var v, w := View(), other.View();
      HeadsApart(blocks, other.blocks);
      ApartSets(blocks, other.blocks);
      other.ValidView();
      ValidView();
      ViewShows(blocks);
      var p := other.Remove();
      ViewIs(blocks, v);
      OneMoved(v, w, block, p);
      ghost var u := other.View();
      ViewShows(other.blocks);
      ghost var before := blocks;
      Add(p);
      ViewIs(other.blocks, u);
      StillApart(before, blocks, other.blocks);
    }
  }

  /** Two pairs of bags that hold the same objects together. */
  ghost predicate SameTotal(a: seq<seq<int>>, b: seq<seq<int>>, c: seq<seq<int>>, d: seq<seq<int>>) {
    forall x :: Count(a, x) + Count(b, x) == Count(c, x) + Count(d, x)
  }

  lemma TotalSame(a: seq<seq<int>>, b: seq<seq<int>>)
    ensures SameTotal(a, b, a, b)
  {
  }

  lemma TotalTrans(a: seq<seq<int>>, b: seq<seq<int>>, c: seq<seq<int>>, d: seq<seq<int>>, e: seq<seq<int>>,
      f: seq<seq<int>>)
    requires SameTotal(a, b, c, d) && SameTotal(c, d, e, f)
    ensures SameTotal(a, b, e, f)
  {
  }

  /** The counts when one object goes from a bag with one block to another bag. */
  lemma OneMoved(v: seq<seq<int>>, w: seq<seq<int>>, block: nat, p: int)
    requires ViewOk(v, block) && ViewOk(w, block) && !EmptyView(w) && |Trimmed(w)| > 0 && |Trimmed(w)[0]| > 0
    requires p == Trimmed(w)[0][|Trimmed(w)[0]| - 1]
    ensures SameTotal(AddView(v, block, p), RemoveView(w), v, w)
    ensures |w| == 1 ==> |RemoveView(w)| == 1 && |RemoveView(w)[0]| < |w[0]|
  {
    hide Count;
    forall x ensures Count(AddView(v, block, p), x) + Count(RemoveView(w), x) == Count(v, x) + Count(w, x) {
      AddViewOk(v, block, p, x);
      RemoveViewOk(w, block, x);
    }
  }

  lemma MovedCount(v: seq<seq<int>>, w: seq<seq<int>>)
    requires |w| > 0
    ensures SameTotal(v + w[1..], w[..1], v, w)
  {
    hide Count;
    forall x ensures Count(v + w[1..], x) + Count(w[..1], x) == Count(v, x) + Count(w, x) {
      CountConcat(v, w[1..], x);
      CountConcat(w[..1], w[1..], x);
      assert w[..1] + w[1..] == w;
    }
  }

  lemma AllTaken(a: seq<seq<int>>, b: seq<seq<int>>, v: seq<seq<int>>, w: seq<seq<int>>)
    requires SameTotal(a, b, v, w) && EmptyView(b)
    ensures forall x :: Count(a, x) == Count(v, x) + Count(w, x)
  {
    forall x ensures Count(a, x) == Count(v, x) + Count(w, x) {
      CountOne([], x);
    }
  }

  lemma MovedApart(mine: seq<Block>, theirs: seq<Block>, block: nat)
    requires theirs != [] && Separate(mine, theirs) && Linked(theirs, block)
    ensures Separate(mine + theirs[1..], theirs[..1])
  {
    var a, b := mine + theirs[1..], theirs[..1];
    forall i, j | 0 <= i < |a| && 0 <= j < |b| ensures Apart(a[i], b[j]) {
      if i < |mine| {
        assert Apart(mine[i], theirs[0]);
      } else {
        assert Apart(theirs[0], theirs[i - |mine| + 1]);
      }
    }
  }

  lemma HeadsApart(a: seq<Block>, b: seq<Block>)
    requires a != [] && b != [] && Separate(a, b)
    ensures a[0] !in b && b[0] !in a && a[0].data !in Arrays(b) && b[0].data !in Arrays(a)
    ensures forall i | 0 <= i < |a| :: a[i] != b[0] && a[i].data != b[0].data
    ensures forall i | 0 <= i < |b| :: b[i] != a[0] && b[i].data != a[0].data
  {
    forall i | 0 <= i < |a| ensures a[i] != b[0] && a[i].data != b[0].data {
      assert Apart(a[i], b[0]);
    }
    forall i | 0 <= i < |b| ensures b[i] != a[0] && b[i].data != a[0].data {
      assert Apart(a[0], b[i]);
    }
  }

  lemma StillApart(before: seq<Block>, after: seq<Block>, others: seq<Block>)
    requires Separate(before, others)
    requires after == before
             || (|after| > 0 && after[1..] == before && forall i | 0 <= i < |others| :: Apart(after[0], others[i]))
    ensures Separate(after, others)
  {
    if after != before {
      forall i, j | 0 <= i < |after| && 0 <= j < |others| ensures Apart(after[i], others[j]) {
        if i > 0 {
          assert after[i] == before[i - 1] && Apart(before[i - 1], others[j]);
        }
      }
    }
  }

  /* --------------------------------------------------------------- iterators */

  /** Iteration goes from the last object of a block down to its first, then to the next block. */
  predicate Before(b: int, i: int, c: int, j: int) {
    b < c || (b == c && i > j)
  }

  /** A place where an iterator can stand: at an object, or past the end. */
  ghost predicate InView(v: seq<seq<int>>, b: nat, i: int) {
    (b == |v| && i == -1) || (i >= 0 && At(v, b, i))
  }

  /** One step of the iteration order: (c, j) has (b, i) before it, and nothing else that (b, i) had not. */
  ghost predicate Next(v: seq<seq<int>>, b: nat, i: int, c: nat, j: int) {
    forall d: nat, k: nat | At(v, d, k) :: Before(d, k, c, j) <==> Before(d, k, b, i) || (d == b && k == i)
  }

  class Cursor {
    var curr: Block?
    var ix: int
    ghost var b: nat

    /** The iterator stands on an object of the bag, or past its end. */
    ghost predicate On(bag: BlockBag)
      reads this, bag`blocks, bag.blocks`size
    {
      && b <= |bag.blocks| && (curr == null <==> b == |bag.blocks|) && (curr == null ==> ix == -1)
      && (curr != null ==> curr == bag.blocks[b] && 0 <= ix < curr.size)
    }

    /** `begin`. */
    constructor (bag: BlockBag)
      requires bag.Valid()
      ensures On(bag) && forall c: nat, j: nat | At(bag.View(), c, j) :: !Before(c, j, b, ix)
    {
      curr := bag.head;
      ix := bag.head.size;
      b := 0;
      new;
      hide ViewOf;
      ghost var v := bag.View();
      ViewShows(bag.blocks);
      bag.SizeBound(0);
      LinkKnown(bag.blocks, 0, bag.block);
      Advance(bag);
      ViewIs(bag.blocks, v);
    }

    /** `operator++`. */
    method Advance(bag: BlockBag)
      requires bag.Valid() && b < |bag.blocks| && curr == bag.blocks[b] && 0 <= ix <= curr.size
      modifies this
      ensures On(bag) && bag.Valid() && bag.View() == old(bag.View())
      ensures (b == old(b) && ix == old(ix) - 1) || b == old(b) + 1
      ensures Next(bag.View(), old(b), old(ix), b, ix)
    {
      hide Block.Stack, Shows, ViewOf, LinkedTo;
      ghost var v := bag.View();
      bag.ValidView();
      ViewShows(bag.blocks);
      LinkKnown(bag.blocks, b, bag.block);
      ix := ix - 1;
      if ix < 0 {
        curr := curr.next;
        b := b + 1;
        if curr != null {
          bag.SizeKnown(b);
          LinkKnown(bag.blocks, b, bag.block);
        }
        ix := if curr == null then -1 else curr.size - 1;
      }
      ViewIs(bag.blocks, v);
    }

    /** `operator*`. */
    method Get(bag: BlockBag) returns (p: int)
      requires bag.Valid() && On(bag) && curr != null
      ensures At(bag.View(), b, ix) && p == bag.View()[b][ix]
    {
      hide ViewOf, LinkedTo;
      LinkKnown(bag.blocks, b, bag.block);
      ViewAt(bag.blocks, b);
      bag.SizeBound(b);
      p := curr.Peek(ix);
    }

    lemma Somewhere(bag: BlockBag)
      requires bag.Valid() && On(bag)
      ensures InView(bag.View(), b, ix)
    {
      hide ViewOf, LinkedTo;
      bag.ViewLength();
      if curr != null {
        Here(bag);
      }
    }

    lemma Here(bag: BlockBag)
      requires bag.Valid() && On(bag) && curr != null
      ensures curr.data.Length == bag.block && curr.size <= bag.block
      ensures At(bag.View(), b, ix) && curr.Peek(ix) == bag.View()[b][ix]
    {
      hide ViewOf, LinkedTo;
      LinkKnown(bag.blocks, b, bag.block);
      ViewAt(bag.blocks, b);
      bag.SizeBound(b);
    }

    /** `swap` of the objects under two iterators. */
    method SwapWith(bag: BlockBag, other: Cursor)
      requires bag.Valid() && On(bag) && other.On(bag) && curr != null && other.curr != null
      modifies Arrays(bag.blocks)
      ensures bag.Valid() && On(bag) && other.On(bag)
      ensures At(old(bag.View()), b, ix) && At(old(bag.View()), other.b, other.ix)
      ensures bag.View() == Swap(old(bag.View()), b, ix, other.b, other.ix)
    {
      hide ViewOf, LinkedTo, AllFull;
      ghost var v := bag.View();
      Here(bag);
      other.Here(bag);
      var mine := curr.Peek(ix);
      var temp := other.curr.Peek(other.ix);
      bag.SetObject(other.curr, other.ix, mine, other.b);
      bag.SetObject(curr, ix, temp, b);
      SwapIs(v, b, ix, other.b, other.ix);
    }
  }
}
