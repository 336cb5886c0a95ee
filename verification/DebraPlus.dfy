/** The rotation of DEBRA+: before the oldest bag is used again, the objects in it that some
    thread has announced are swapped to its front, and the blocks behind them go to the pool. */
module DebraPlusRotation {
  import opened BlockBags
  import opened FiniteSets
  import Limbo
  import opened PointerSets

  const SCAN_THRESHOLD := 4

  /* ----------------------------------------------------------- announcements */

  /** The announced objects: what the threads' lists hold, without the cells set to null. */
  ghost function Announced(announce: seq<seq<int>>): set<int> {
    if announce == [] then {} else Announced(announce[..|announce| - 1]) + Keys(announce[|announce| - 1])
  }

  ghost function TotalLength(announce: seq<seq<int>>): nat {
    if announce == [] then 0 else TotalLength(announce[..|announce| - 1]) + |announce[|announce| - 1]|
  }

  lemma {:induction false} AnnouncedIff(announce: seq<seq<int>>, x: int)
    ensures x in Announced(announce) <==> exists t | 0 <= t < |announce| :: x in Keys(announce[t])
  {
    if announce != [] {
      var n := |announce| - 1;
      AnnouncedIff(announce[..n], x);
      if x in Announced(announce[..n]) {
        var t :| 0 <= t < n && x in Keys(announce[..n][t]);
        assert x in Keys(announce[t]);
      }
      if t :| 0 <= t < n && x in Keys(announce[t]) {
        assert x in Keys(announce[..n][t]);
      }
    }
  }

  lemma {:induction false} KeysAtMost(s: seq<int>)
    ensures |Keys(s)| <= |s|
  {
    if s != [] {
      var n := |s| - 1;
      KeysAtMost(s[..n]);
      assert Keys(s) <= Keys(s[..n]) + {s[n]};
      SubsetSize(Keys(s), Keys(s[..n]) + {s[n]});
    }
  }

  /** A set built for as many elements as can be announced has room for all of them. */
  lemma {:induction false} AnnouncedAtMost(announce: seq<seq<int>>)
    ensures |Announced(announce)| <= TotalLength(announce)
  {
    if announce != [] {
      var n := |announce| - 1;
      AnnouncedAtMost(announce[..n]);
      KeysAtMost(announce[n]);
    }
  }

  ghost predicate AtMostEach(announce: seq<seq<int>>, m: nat) {
    forall t | 0 <= t < |announce| :: |announce[t]| <= m
  }

  lemma {:induction false} LengthsAtMost(announce: seq<seq<int>>, m: nat)
    requires AtMostEach(announce, m)
    ensures TotalLength(announce) <= |announce| * m
  {
    if announce != [] {
      var n := |announce| - 1;
      LengthsAtMost(announce[..n], m);
      assert (n + 1) * m == n * m + m;
    }
  }

  /** A set built for numProcesses lists of at most maxProtected cells has room for whatever
      such lists announce. */
  lemma AnnouncementsFit(announce: seq<seq<int>>, numProcesses: nat, maxProtected: nat, comparing: PointerSet)
    requires |announce| == numProcesses && AtMostEach(announce, maxProtected)
    requires comparing.Valid() && comparing.tableSize >= 2 * (numProcesses * maxProtected)
    ensures |Announced(announce)| < comparing.tableSize
  {
    AnnouncedAtMost(announce);
    LengthsAtMost(announce, maxProtected);
  }

  /** "hash all announcements". */
  method Collect(announce: seq<seq<int>>, comparing: PointerSet)
    requires comparing.Valid() && |Announced(announce)| < comparing.tableSize
    modifies comparing`size, comparing.keys
    ensures comparing.Valid() && comparing.Contents() == Announced(announce)
  {
    comparing.Clear();
    var other := 0;
    assert announce[..0] == [];
    while other < |announce|
      invariant 0 <= other <= |announce|
      invariant comparing.Valid() && comparing.Contents() == Announced(announce[..other])
    {
      CollectOne(announce, other, comparing);
      other := other + 1;
    }
    assert announce[..other] == announce;
  }

  method CollectOne(announce: seq<seq<int>>, other: nat, comparing: PointerSet)
    requires other < |announce| && comparing.Valid() && |Announced(announce)| < comparing.tableSize
    requires comparing.Contents() == Announced(announce[..other])
    modifies comparing`size, comparing.keys
    ensures comparing.Valid() && comparing.Contents() == Announced(announce[..other + 1])
  {
    hide PointerSet.Valid, PointerSet.Contents, Announced, Keys;
    var list := announce[other];
    ghost var before := Announced(announce[..other]);
    var sz := |list|;
    var ixHP := 0;
    assert Keys(list[..0]) == {} by { NoKeys(); }
    while ixHP < sz
      invariant 0 <= ixHP <= sz
      invariant comparing.Valid() && comparing.Contents() == before + Keys(list[..ixHP])
    {
      var hp := list[ixHP];
      Grows(list, ixHP);
      if hp != EMPTY {
        Room(announce, other, ixHP, comparing.Contents());
        comparing.SizeIs();
        comparing.Insert(hp);
      }
      ixHP := ixHP + 1;
    }
    assert list[..ixHP] == list;
    OneMoreList(announce, other);
  }

  lemma NoKeys()
    ensures Keys([]) == {}
  {
  }

  lemma OneMoreList(announce: seq<seq<int>>, other: nat)
    requires other < |announce|
    ensures Announced(announce[..other + 1]) == Announced(announce[..other]) + Keys(announce[other])
  {
    assert announce[..other + 1][..other] == announce[..other];
  }

  lemma Grows(list: seq<int>, i: nat)
    requires i < |list|
    ensures Keys(list[..i + 1]) == Keys(list[..i]) + (if list[i] != EMPTY then {list[i]} else {})
  {
    assert list[..i + 1] == list[..i] + [list[i]];
  }

  lemma Room(announce: seq<seq<int>>, other: nat, i: nat, found: set<int>)
    requires other < |announce| && i < |announce[other]| && announce[other][i] != EMPTY
    requires found == Announced(announce[..other]) + Keys(announce[other][..i])
    ensures announce[other][i] in found || |found| + 1 <= |Announced(announce)|
  {
    var hp := announce[other][i];
    forall x | x in found + {hp} ensures x in Announced(announce) {
      if x in Announced(announce[..other]) {
        AnnouncedIff(announce[..other], x);
        var t :| 0 <= t < other && x in Keys(announce[..other][t]);
        assert x in Keys(announce[t]);
      } else {
        assert x in Keys(announce[other]);
      }
      AnnouncedIff(announce, x);
    }
    SubsetSize(found + {hp}, Announced(announce));
  }

  /* --------------------------------------------------------------- partition */

  /** What the loop has done so far: the iterators are at (b, i) and (c, j); the objects before
      the first are all announced, those from there to the second are all not. */
  ghost predicate Partitioned(v: seq<seq<int>>, marked: set<int>, b: nat, i: int, c: nat, j: int) {
    && (forall d: nat, k: nat | At(v, d, k) && Before(d, k, b, i) :: v[d][k] in marked)
    && (forall d: nat, k: nat | At(v, d, k) && !Before(d, k, b, i) && Before(d, k, c, j) :: v[d][k] !in marked)
  }

  /** Where the iterators may stand: nextswap is never ahead. */
  ghost predicate InOrder(v: seq<seq<int>>, b: nat, i: int, c: nat, j: int) {
    InView(v, b, i) && InView(v, c, j) && !Before(c, j, b, i)
  }

  /** An object that is not announced is passed. */
  lemma Passes(v: seq<seq<int>>, marked: set<int>, b: nat, i: int, c: nat, j: nat, c': nat, j': int)
    requires Partitioned(v, marked, b, i, c, j) && InOrder(v, b, i, c, j) && At(v, c, j)
    requires Next(v, c, j, c', j') && InView(v, c', j') && v[c][j] !in marked
    ensures Partitioned(v, marked, b, i, c', j') && InOrder(v, b, i, c', j')
  {
  }

  /** An announced object goes to the front: (b, i) and (c, j) move on after the swap. */
  lemma Swaps(v: seq<seq<int>>, marked: set<int>, b: nat, i: nat, c: nat, j: nat, b': nat, i': int, c': nat, j': int)
    requires Partitioned(v, marked, b, i, c, j) && InOrder(v, b, i, c, j) && At(v, b, i) && At(v, c, j)
             && v[c][j] in marked
    requires Next(v, b, i, b', i') && InView(v, b', i') && Next(v, c, j, c', j') && InView(v, c', j')
    ensures Partitioned(Swap(v, c, j, b, i), marked, b', i', c', j') && InOrder(v, b', i', c', j')
  {
    var w := Swap(v, c, j, b, i);
    assert (b, i) != (c, j) ==> Before(b, i, c, j) && v[b][i] !in marked;
    assert w[b][i] == v[c][j] && w[c][j] == v[b][i];
    forall d: nat, k: nat | At(w, d, k) && !(d == b && k == i) && !(d == c && k == j) ensures w[d][k] == v[d][k] {
    }
  }

  /** Two iterators at the beginning are at the same place. */
  lemma BothFirst(v: seq<seq<int>>, b: nat, i: int, c: nat, j: int)
    requires InView(v, b, i) && InView(v, c, j)
    requires forall d: nat, k: nat | At(v, d, k) :: !Before(d, k, b, i) && !Before(d, k, c, j)
    ensures b == c && i == j
  {
    assert i >= 0 && At(v, b, i) ==> !Before(b, i, c, j);
    assert j >= 0 && At(v, c, j) ==> !Before(c, j, b, i);
  }

  ghost predicate SameCounts(v: seq<seq<int>>, w: seq<seq<int>>) {
    forall x :: Count(v, x) == Count(w, x)
  }

  lemma SwapSameCounts(v: seq<seq<int>>, b: nat, i: nat, c: nat, j: nat, w: seq<seq<int>>)
    requires At(v, b, i) && At(v, c, j) && SameCounts(v, w)
    ensures SameCounts(Swap(v, b, i, c, j), w)
  {
    hide Count;
    forall x ensures Count(Swap(v, b, i, c, j), x) == Count(w, x) {
      SwapCount(v, b, i, c, j, x);
    }
  }

  /** The partition loop. */
  method Partition(bag: BlockBag, comparing: PointerSet) returns (nextswap: Cursor)
    requires bag.Valid() && comparing.Valid() && comparing.keys !in Arrays(bag.blocks)
    modifies Arrays(bag.blocks)
    ensures bag.Valid() && fresh(nextswap) && nextswap.On(bag)
    ensures SameCounts(bag.View(), old(bag.View()))
    ensures Partitioned(bag.View(), old(comparing.Contents()), nextswap.b, nextswap.ix, |bag.View()|, -1)
  {
    hide ViewOf, LinkedTo, AllFull, SameCounts, Partitioned, Exact;
    ghost var marked := comparing.Contents();
    ghost var v0 := bag.View();
    var it := new Cursor(bag);
    nextswap := new Cursor(bag);
    it.Somewhere(bag);
    nextswap.Somewhere(bag);
    BothFirst(v0, nextswap.b, nextswap.ix, it.b, it.ix);
    Start(v0, marked, it.b, it.ix);
    while it.curr != null
      invariant bag.Valid() && comparing.Valid() && comparing.Contents() == marked
      invariant fresh(it) && fresh(nextswap) && it != nextswap && it.On(bag) && nextswap.On(bag)
      invariant InOrder(bag.View(), nextswap.b, nextswap.ix, it.b, it.ix)
      invariant SameCounts(bag.View(), v0)
      invariant Partitioned(bag.View(), marked, nextswap.b, nextswap.ix, it.b, it.ix)
      decreases |bag.blocks| - it.b, it.ix
    {
      Turn(bag, comparing, it, nextswap, v0, marked);
    }
  }

  lemma Start(v: seq<seq<int>>, marked: set<int>, b: nat, i: int)
    requires forall d: nat, k: nat | At(v, d, k) :: !Before(d, k, b, i)
    ensures Partitioned(v, marked, b, i, b, i) && SameCounts(v, v)
  {
  }

  /** The turn at an announced object. */
  method SwapToFront(bag: BlockBag, it: Cursor, nextswap: Cursor, ghost v0: seq<seq<int>>, ghost marked: set<int>)
    requires bag.Valid() && it != nextswap && it.On(bag) && nextswap.On(bag) && it.curr != null
    requires InOrder(bag.View(), nextswap.b, nextswap.ix, it.b, it.ix) && At(bag.View(), it.b, it.ix)
    requires SameCounts(bag.View(), v0) && Partitioned(bag.View(), marked, nextswap.b, nextswap.ix, it.b, it.ix)
    requires bag.View()[it.b][it.ix] in marked
    modifies Arrays(bag.blocks), it, nextswap
    ensures bag.Valid() && it.On(bag) && nextswap.On(bag)
    ensures (it.b == old(it.b) && it.ix == old(it.ix) - 1) || it.b == old(it.b) + 1
    ensures InOrder(bag.View(), nextswap.b, nextswap.ix, it.b, it.ix)
    ensures SameCounts(bag.View(), v0) && Partitioned(bag.View(), marked, nextswap.b, nextswap.ix, it.b, it.ix)
  {
    hide ViewOf, SameCounts, Partitioned, BlockBag.Valid;
    ghost var v := bag.View();
    ghost var b, i, c, j := nextswap.b, nextswap.ix, it.b, it.ix;
    nextswap.Here(bag);
    it.SwapWith(bag, nextswap);
    nextswap.Advance(bag);
    it.Advance(bag);
    nextswap.Somewhere(bag);
    it.Somewhere(bag);
    Swaps(v, marked, b, i, c, j, nextswap.b, nextswap.ix, it.b, it.ix);
    SwapSameCounts(v, c, j, b, i, v0);
  }

  /** One turn of the loop. */
  method Turn(bag: BlockBag, comparing: PointerSet, it: Cursor, nextswap: Cursor, ghost v0: seq<seq<int>>,
      ghost marked: set<int>)
    requires bag.Valid() && comparing.Valid() && comparing.keys !in Arrays(bag.blocks) && comparing.Contents() == marked
    requires it != nextswap && it.On(bag) && nextswap.On(bag) && it.curr != null
    requires InOrder(bag.View(), nextswap.b, nextswap.ix, it.b, it.ix)
    requires SameCounts(bag.View(), v0) && Partitioned(bag.View(), marked, nextswap.b, nextswap.ix, it.b, it.ix)
    modifies Arrays(bag.blocks), it, nextswap
    ensures bag.Valid() && comparing.Valid() && comparing.Contents() == marked
    ensures it.On(bag) && nextswap.On(bag)
    ensures (it.b == old(it.b) && it.ix == old(it.ix) - 1) || it.b == old(it.b) + 1
    ensures InOrder(bag.View(), nextswap.b, nextswap.ix, it.b, it.ix)
    ensures SameCounts(bag.View(), v0) && Partitioned(bag.View(), marked, nextswap.b, nextswap.ix, it.b, it.ix)
  {
    hide ViewOf, SameCounts, Partitioned, InOrder, BlockBag.Valid, PointerSet.Valid, PointerSet.Contents;
    ghost var v := bag.View();
    ghost var c, j := it.b, it.ix;
    it.Here(bag);
    var p := it.Get(bag);
    var announced := comparing.Contains(p);
    if announced {
      SwapToFront(bag, it, nextswap, v0, marked);
    } else {
      it.Advance(bag);
      it.Somewhere(bag);
      Passes(v, marked, nextswap.b, nextswap.ix, c, j, it.b, it.ix);
    }
  }

  /* ----------------------------------------------------------------- hand-over */

  /** Every block but the last holds announced objects only. */
  ghost predicate OnlyLastUnannounced(v: seq<seq<int>>, marked: set<int>) {
    forall d: nat, k: nat | At(v, d, k) && d + 1 < |v| :: v[d][k] in marked
  }

  /** What goes to the pool when the blocks from n on do, after v0 has become v. */
  ghost predicate HandedOver(v0: seq<seq<int>>, v: seq<seq<int>>, n: nat, marked: set<int>) {
    && 1 <= n <= |v| && SameCounts(v, v0)
    && OnlyLastUnannounced(v[..n], marked)
    && (forall x | x in marked :: Count(v[n..], x) == 0)
  }

  lemma {:induction false} NotCounted(v: seq<seq<int>>, x: int)
    requires forall d: nat, k: nat | At(v, d, k) :: v[d][k] != x
    ensures Count(v, x) == 0
  {
    if v != [] {
      var n := |v| - 1;
      forall d: nat, k: nat | At(v[..n], d, k) ensures v[..n][d][k] != x {
        assert At(v, d, k);
      }
      NotCounted(v[..n], x);
      assert forall k: nat | k < |v[n]| :: At(v, n, k);
    }
  }

  lemma BehindNextswap(v0: seq<seq<int>>, v: seq<seq<int>>, marked: set<int>, b: nat, i: int)
    requires Partitioned(v, marked, b, i, |v|, -1) && InView(v, b, i) && SameCounts(v, v0) && |v| > 0
    ensures HandedOver(v0, v, if b < |v| then b + 1 else |v|, marked)
  {
    hide SameCounts;
    var n := if b < |v| then b + 1 else |v|;
    forall x | x in marked ensures Count(v[n..], x) == 0 {
      forall d: nat, k: nat | At(v[n..], d, k) ensures v[n..][d][k] != x {
        assert At(v, n + d, k);
      }
      NotCounted(v[n..], x);
    }
    forall d: nat, k: nat | At(v[..n], d, k) && d + 1 < |v[..n]| ensures v[..n][d][k] in marked {
      assert At(v, d, k) && Before(d, k, b, i);
    }
  }

  /** The scan of `rotateEpochBags`: collect, partition, hand over. */
  method Reclaim(freeable: BlockBag, pool: BlockBag, comparing: PointerSet, announce: seq<seq<int>>)
      returns (ghost n: nat, ghost v: seq<seq<int>>)
    requires freeable.Valid() && pool.Valid() && freeable != pool && freeable.block == pool.block
    requires Separate(pool.blocks, freeable.blocks) && comparing.Valid()
    requires comparing.keys !in Arrays(freeable.blocks) && comparing.keys !in Arrays(pool.blocks)
    requires |Announced(announce)| < comparing.tableSize
    modifies comparing`size, comparing.keys, Arrays(freeable.blocks), freeable.blocks`next, pool.tail`next
    modifies pool`tail, pool`sizeInBlocks, pool`blocks, freeable`tail, freeable`sizeInBlocks, freeable`blocks
    ensures freeable.Valid() && pool.Valid() && comparing.Valid()
    ensures HandedOver(old(freeable.View()), v, n, Announced(announce)) && |v| == |old(freeable.blocks)|
    ensures n <= |old(freeable.blocks)| && freeable.blocks == old(freeable.blocks)[..n] && freeable.View() == v[..n]
    ensures pool.blocks == old(pool.blocks) + old(freeable.blocks)[n..] && pool.View() == old(pool.View()) + v[n..]
  {
    hide ViewOf, BlockBag.Valid, PointerSet.Valid, PointerSet.Contents, Separate, SameCounts, Partitioned,
         Announced, HandedOver;
    ghost var marked := Announced(announce);
    ghost var v0 := freeable.View();
    ArraysApart(pool.blocks, freeable.blocks);
    Collect(announce, comparing);
    var nextswap := Partition(freeable, comparing);
    v := freeable.View();
    nextswap.Somewhere(freeable);
    freeable.ViewLength();
    freeable.ValidView();
    BehindNextswap(v0, v, marked, nextswap.b, nextswap.ix);
    var curr := nextswap.curr;
    n := if curr != null then nextswap.b + 1 else |freeable.blocks|;
    if curr != null {
      pool.AppendMoveFullBlocks(freeable, curr, nextswap.b);
    } else {
      Whole(freeable.blocks, v, n);
    }
  }

  lemma Whole(blocks: seq<Block>, v: seq<seq<int>>, n: nat)
    requires n == |blocks| == |v|
    ensures blocks[..n] == blocks && blocks[n..] == [] && v[..n] == v && v[n..] == []
  {
  }

  lemma ArraysApart(a: seq<Block>, b: seq<Block>)
    requires Separate(a, b)
    ensures forall i | 0 <= i < |a| :: a[i].data !in Arrays(b)
  {
    forall i, d | 0 <= i < |a| && d in Arrays(b) ensures a[i].data != d {
      var j :| 0 <= j < |b| && b[j].data == d;
      assert Apart(a[i], b[j]);
    }
  }

  /** Nothing is lost or doubled, and no announced object leaves the bag for the pool. */
  lemma HandOverIsSafe(v0: seq<seq<int>>, v: seq<seq<int>>, n: nat, marked: set<int>, w: seq<seq<int>>, x: int)
    requires HandedOver(v0, v, n, marked)
    ensures Count(v[..n], x) + Count(w + v[n..], x) == Count(v0, x) + Count(w, x)
    ensures x in marked ==> Count(w + v[n..], x) == Count(w, x) && Count(v[..n], x) == Count(v0, x)
  {
    hide Count;
    CountConcat(v[..n], v[n..], x);
    CountConcat(w, v[n..], x);
    assert v == v[..n] + v[n..];
  }

  /* ------------------------------------------------------------------- rotation */

  /** Two lists of blocks share no block and no array. */
  ghost predicate Strangers(a: seq<Block>, b: seq<Block>) {
    Separate(a, b) && Separate(b, a)
  }

  ghost predicate AllStrangers(a: seq<Block>, b: seq<Block>, c: seq<Block>, p: seq<Block>) {
    && Strangers(a, b) && Strangers(a, c) && Strangers(a, p)
    && Strangers(b, c) && Strangers(b, p) && Strangers(c, p)
  }

  lemma StrangersCut(a: seq<Block>, b: seq<Block>, n: nat)
    requires Strangers(a, b) && n <= |a|
    ensures Strangers(a[..n], b) && Strangers(a[n..], b)
  {
    forall i, j | 0 <= i < |a[n..]| && 0 <= j < |b| ensures Apart(a[n..][i], b[j]) && Apart(b[j], a[n..][i]) {
      assert Apart(a[n + i], b[j]);
    }
  }

  lemma StrangersJoin(a: seq<Block>, b: seq<Block>, c: seq<Block>)
    requires Strangers(a, c) && Strangers(b, c)
    ensures Strangers(a + b, c)
  {
    forall i, j | 0 <= i < |a + b| && 0 <= j < |c| ensures Apart((a + b)[i], c[j]) && Apart(c[j], (a + b)[i]) {
      if i >= |a| {
        assert Apart(b[i - |a|], c[j]);
      }
    }
  }

  lemma OwnParts(a: seq<Block>, block: nat)
    requires Linked(a, block)
    ensures forall n: nat | n <= |a| :: Strangers(a[..n], a[n..])
  {
    forall n: nat | n <= |a| ensures Strangers(a[..n], a[n..]) {
      LinkSlice(a, n, block, null);
      forall i, j | 0 <= i < |a[n..]| && 0 <= j < |a[..n]| ensures Apart(a[n..][i], a[..n][j]) {
        assert Apart(a[..n][j], a[n..][i]);
      }
    }
  }

  /** The blocks of a from n on go to the end of p. */
  lemma StrangersMove(a: seq<Block>, b: seq<Block>, c: seq<Block>, p: seq<Block>, n: nat)
    requires AllStrangers(a, b, c, p) && n <= |a| && Strangers(a[..n], a[n..])
    ensures AllStrangers(a[..n], b, c, p + a[n..])
  {
    hide Separate;
    StrangersCut(a, b, n);
    StrangersCut(a, c, n);
    StrangersCut(a, p, n);
    StrangersJoin(p, a[n..], a[..n]);
    StrangersJoin(p, a[n..], b);
    StrangersJoin(p, a[n..], c);
  }

  /** A bag of the reclaimer; it shares nothing with the table of keys. */
  ghost predicate BagOk(bag: BlockBag, block: nat, keys: array<int>)
    reads bag, bag.blocks
  {
    bag.Valid() && bag.block == block && keys !in Arrays(bag.blocks)
  }

  /** Three bags and the pool share nothing. */
  ghost predicate RingOk(a: BlockBag, b: BlockBag, c: BlockBag, pool: BlockBag, keys: array<int>)
    reads a, a.blocks, b, b.blocks, c, c.blocks, pool, pool.blocks
  {
    && BagOk(a, pool.block, keys) && BagOk(b, pool.block, keys) && BagOk(c, pool.block, keys)
    && BagOk(pool, pool.block, keys)
    && a != b && a != c && a != pool && b != c && b != pool && c != pool
    && AllStrangers(a.blocks, b.blocks, c.blocks, pool.blocks)
  }

  /** What the scan of the bag a needs, and what keeps it away from b and c. */
  lemma RingFacts(a: BlockBag, b: BlockBag, c: BlockBag, pool: BlockBag, keys: array<int>)
    requires RingOk(a, b, c, pool, keys)
    ensures a.Valid() && pool.Valid() && a.block == pool.block && Separate(pool.blocks, a.blocks)
    ensures keys !in Arrays(a.blocks) && keys !in Arrays(pool.blocks) && pool.tail in pool.blocks
    ensures a != b && a != c && a != pool && b != c && b != pool && c != pool
    ensures BagOk(b, pool.block, keys) && BagOk(c, pool.block, keys)
    ensures forall k | k in b.blocks ::
              k !in a.blocks && k !in pool.blocks && k.data !in Arrays(a.blocks) && k.data != keys
    ensures forall k | k in c.blocks ::
              k !in a.blocks && k !in pool.blocks && k.data !in Arrays(a.blocks) && k.data != keys
    ensures forall n: nat | n <= |a.blocks| :: Strangers(a.blocks[..n], a.blocks[n..])
  {
    ArraysApart(b.blocks, a.blocks);
    ArraysApart(c.blocks, a.blocks);
    pool.ApartSets(b.blocks, a.blocks);
    pool.ApartSets(c.blocks, a.blocks);
    pool.ApartSets(b.blocks, pool.blocks);
    pool.ApartSets(c.blocks, pool.blocks);
    OwnParts(a.blocks, pool.block);
  }

  lemma RingMoved(a: BlockBag, b: BlockBag, c: BlockBag, pool: BlockBag, keys: array<int>, p: seq<Block>, f: seq<Block>,
      n: nat)
    requires AllStrangers(f, b.blocks, c.blocks, p) && n <= |f| && Strangers(f[..n], f[n..])
    requires a.Valid() && pool.Valid() && a.block == pool.block && keys !in Arrays(f) && keys !in Arrays(p)
    requires a.blocks == f[..n] && pool.blocks == p + f[n..]
    requires a != b && a != c && a != pool && b != c && b != pool && c != pool
    requires BagOk(b, pool.block, keys) && BagOk(c, pool.block, keys)
    ensures RingOk(a, b, c, pool, keys)
  {
    hide BlockBag.Valid, Strangers;
    StrangersMove(f, b.blocks, c.blocks, p, n);
    assert Arrays(a.blocks) <= Arrays(f) && Arrays(pool.blocks) <= Arrays(p) + Arrays(f);
  }

  /** One turn of the bags: freeable is scanned, the others stay as they are. */
  method Rotate(freeable: BlockBag, ghost b: BlockBag, ghost c: BlockBag, pool: BlockBag, comparing: PointerSet,
      announce: seq<seq<int>>)
    returns (ghost n: nat, ghost v: seq<seq<int>>)
    requires comparing.Valid() && |Announced(announce)| < comparing.tableSize
    requires RingOk(freeable, b, c, pool, comparing.keys)
    modifies comparing`size, comparing.keys, Arrays(freeable.blocks), freeable.blocks`next, pool.tail`next
    modifies pool`tail, pool`sizeInBlocks, pool`blocks, freeable`tail, freeable`sizeInBlocks, freeable`blocks
    ensures comparing.Valid() && RingOk(freeable, b, c, pool, comparing.keys)
    ensures b.View() == old(b.View()) && c.View() == old(c.View())
    ensures |old(freeable.View())| < SCAN_THRESHOLD
            ==> freeable.View() == old(freeable.View()) && pool.View() == old(pool.View())
    ensures |old(freeable.View())| >= SCAN_THRESHOLD ==>
              && HandedOver(old(freeable.View()), v, n, Announced(announce))
              && freeable.View() == v[..n] && pool.View() == old(pool.View()) + v[n..]
  {
    hide BagOk, Linked, Arrays, BlockBag.View, ViewOf, Announced, HandedOver, Separate, Strangers, LinkedTo,
         AllFull, PointerSet.Valid;
    RingFacts(freeable, b, c, pool, comparing.keys);
    n, v := 0, [];
    freeable.ViewLength();
    if freeable.sizeInBlocks >= SCAN_THRESHOLD {
      ghost var p, f := pool.blocks, freeable.blocks;
      n, v := Reclaim(freeable, pool, comparing, announce);
      assert forall k | k in b.blocks + c.blocks :: k.next == old(k.next) && k.size == old(k.size);
      RingMoved(freeable, b, c, pool, comparing.keys, p, f, n);
    }
  }

  lemma AllNew(a: seq<Block>, b: seq<Block>)
    requires |a| == |b| == 1 && a[0] != b[0] && a[0].data != b[0].data
    ensures Strangers(a, b) && Strangers(b, a)
  {
  }

  lemma RingTurns(a: BlockBag, b: BlockBag, c: BlockBag, pool: BlockBag, keys: array<int>)
    requires RingOk(a, b, c, pool, keys)
    ensures RingOk(b, c, a, pool, keys)
  {
  }

  method NewBags(block: nat) returns (a: BlockBag, b: BlockBag, c: BlockBag, p: BlockBag)
    requires block > 0
    ensures a.Valid() && b.Valid() && c.Valid() && p.Valid()
    ensures a.block == b.block == c.block == p.block == block
    ensures EmptyView(a.View()) && EmptyView(b.View()) && EmptyView(c.View()) && EmptyView(p.View())
    ensures a != b && a != c && a != p && b != c && b != p && c != p && fresh(a) && fresh(b) && fresh(c) && fresh(p)
    ensures AllStrangers(a.blocks, b.blocks, c.blocks, p.blocks)
  {
    hide ViewOf, EmptyView, BlockBag.Valid, Strangers;
    a := new BlockBag(block);
    b := new BlockBag(block);
    c := new BlockBag(block);
    p := new BlockBag(block);
    AllNew(a.blocks, b.blocks);
    AllNew(a.blocks, c.blocks);
    AllNew(b.blocks, c.blocks);
    AllNew(a.blocks, p.blocks);
    AllNew(b.blocks, p.blocks);
    AllNew(c.blocks, p.blocks);
  }

  /** One thread's part of the reclaimer. */
  class BagRotator {
    const bags: (BlockBag, BlockBag, BlockBag)
    const pool: BlockBag
    const comparing: PointerSet
    var index: nat
    var currentBag: BlockBag

    function BagAt(i: nat): BlockBag
      requires i < Limbo.EPOCH_BAGS
    {
      if i == 0 then bags.0 else if i == 1 then bags.1 else bags.2
    }

    function Following(i: nat): nat {
      (i + 1) % Limbo.EPOCH_BAGS
    }

    /** The bag after the current one. */
    function Oldest(): BlockBag
      reads this`index
    {
      BagAt(Following(index))
    }

    ghost predicate Valid()
      reads this, bags.0, bags.0.blocks, bags.1, bags.1.blocks, bags.2, bags.2.blocks
      reads pool, pool.blocks, comparing, comparing.keys
    {
      && index < Limbo.EPOCH_BAGS && currentBag == BagAt(index) && comparing.Valid()
      && RingOk(bags.0, bags.1, bags.2, pool, comparing.keys)
    }

    /** The set of announcements has room for all that the threads can announce. */
    constructor (mix: int -> int, numProcesses: nat, maxProtected: nat, block: nat)
      requires block > 0
      ensures Valid() && comparing.tableSize >= 2 * (numProcesses * maxProtected)
      ensures EmptyView(bags.0.View()) && EmptyView(bags.1.View()) && EmptyView(bags.2.View())
    {
      hide ViewOf, EmptyView, Strangers, PointerSet.Valid, BlockBag.Valid;
      var b0, b1, b2, p := NewBags(block);
      bags := (b0, b1, b2);
      pool := p;
      comparing := new PointerSet(mix, numProcesses * maxProtected);
      index := 0;
      currentBag := b0;
    }

    /** `rotateEpochBags`. */
    method RotateEpochBags(announce: seq<seq<int>>) returns (ghost n: nat, ghost v: seq<seq<int>>)
      requires Valid() && |Announced(announce)| < comparing.tableSize
      modifies this, comparing, comparing.keys, pool, pool.tail
      modifies Oldest(), Oldest().blocks, Arrays(Oldest().blocks)
      ensures Valid() && index == Following(old(index)) && currentBag == old(Oldest())
      ensures Scanned(n, v, old(Oldest().View()), old(AllViews()), old(pool.View()), Announced(announce))
    {
      hide RingOk, Scanned, ViewOf, PointerSet.Valid, Announced;
      TakeOldest();
      n, v := ScanCurrent(announce);
    }

    /** The oldest bag becomes the current one. */
    method TakeOldest()
      requires Valid()
      modifies this`index, this`currentBag
      ensures Valid() && index == Following(old(index)) && currentBag == old(Oldest())
      ensures currentBag.View() == old(Oldest().View())
      ensures AllViews() == old(AllViews()) && pool.View() == old(pool.View())
    {
      hide RingOk, ViewOf, PointerSet.Valid;
      index := Following(index);
      currentBag := BagAt(index);
    }

    ghost function AllViews(): (w: seq<seq<seq<int>>>)
      reads bags.0`blocks, bags.0.blocks`size, set b | b in bags.0.blocks :: b.data
      reads bags.1`blocks, bags.1.blocks`size, set b | b in bags.1.blocks :: b.data
      reads bags.2`blocks, bags.2.blocks`size, set b | b in bags.2.blocks :: b.data
      ensures |w| == Limbo.EPOCH_BAGS && forall i: nat | i < Limbo.EPOCH_BAGS :: w[i] == BagAt(i).View()
    {
      [bags.0.View(), bags.1.View(), bags.2.View()]
    }

    /** What the scan does to the current bag and the pool, and not to the other bags. */
    ghost predicate Scanned(n: nat, v: seq<seq<int>>, f: seq<seq<int>>, w: seq<seq<seq<int>>>, p: seq<seq<int>>,
        marked: set<int>)
      requires |w| == Limbo.EPOCH_BAGS
      reads this`currentBag, currentBag`blocks, currentBag.blocks`size, set b | b in currentBag.blocks :: b.data
      reads bags.0`blocks, bags.0.blocks`size, set b | b in bags.0.blocks :: b.data
      reads bags.1`blocks, bags.1.blocks`size, set b | b in bags.1.blocks :: b.data
      reads bags.2`blocks, bags.2.blocks`size, set b | b in bags.2.blocks :: b.data
      reads pool`blocks, pool.blocks`size, set b | b in pool.blocks :: b.data
    {
      && (forall i: nat | i < Limbo.EPOCH_BAGS && BagAt(i) != currentBag :: BagAt(i).View() == w[i])
      && (|f| < SCAN_THRESHOLD ==> currentBag.View() == f && pool.View() == p)
      && (|f| >= SCAN_THRESHOLD
          ==> HandedOver(f, v, n, marked) && currentBag.View() == v[..n] && pool.View() == p + v[n..])
    }

    lemma ScannedIs(j: nat, k: nat, n: nat, v: seq<seq<int>>, f: seq<seq<int>>, w: seq<seq<seq<int>>>, p: seq<seq<int>>,
        marked: set<int>)
      requires index < Limbo.EPOCH_BAGS && j == Following(index) && k == Following(j) && currentBag == BagAt(index)
      requires |w| == Limbo.EPOCH_BAGS && BagAt(j).View() == w[j] && BagAt(k).View() == w[k]
      requires |f| < SCAN_THRESHOLD ==> currentBag.View() == f && pool.View() == p
      requires |f| >= SCAN_THRESHOLD
               ==> HandedOver(f, v, n, marked) && currentBag.View() == v[..n] && pool.View() == p + v[n..]
      ensures Scanned(n, v, f, w, p, marked)
    {
      hide HandedOver, ViewOf;
    }

    method ScanCurrent(announce: seq<seq<int>>) returns (ghost n: nat, ghost v: seq<seq<int>>)
      requires Valid() && |Announced(announce)| < comparing.tableSize
      modifies comparing, comparing.keys, pool, pool.tail, currentBag, currentBag.blocks, Arrays(currentBag.blocks)
      ensures Valid()
      ensures Scanned(n, v, old(currentBag.View()), old(AllViews()), old(pool.View()), Announced(announce))
    {
      hide BagOk;
      Turned();
      ghost var second := Following(index);
      ghost var third := Following(second);
      ghost var f, w, p := currentBag.View(), AllViews(), pool.View();
      ghost var b, c := BagAt(second), BagAt(third);
      hide HandedOver, Announced, RingOk, ViewOf, PointerSet.Valid, Scanned, AllViews, Following, BagAt;
      // the scan does not write to this object
      ghost var me: object, arrays: set<object> := this, Arrays(currentBag.blocks);
      assert me !in arrays && me !in currentBag.blocks;
      n, v := Rotate(currentBag, b, c, pool, comparing, announce);
      assert index == old(index) && currentBag == old(currentBag);
      ScannedIs(second, third, n, v, f, w, p, Announced(announce));
      TurnedBack(second, third);
    }

    ghost predicate RingFrom(i: nat, j: nat, k: nat)
      requires i < Limbo.EPOCH_BAGS && j < Limbo.EPOCH_BAGS && k < Limbo.EPOCH_BAGS
      reads bags.0, bags.0.blocks, bags.1, bags.1.blocks, bags.2, bags.2.blocks, pool, pool.blocks
    {
      RingOk(BagAt(i), BagAt(j), BagAt(k), pool, comparing.keys)
    }

    lemma Turned()
      requires Valid()
      ensures var j := Following(index); var k := Following(j);
              j < Limbo.EPOCH_BAGS && k < Limbo.EPOCH_BAGS && RingFrom(index, j, k)
    {
      hide RingOk;
      RingTurns(bags.0, bags.1, bags.2, pool, comparing.keys);
      RingTurns(bags.1, bags.2, bags.0, pool, comparing.keys);
    }

    lemma TurnedBack(j: nat, k: nat)
      requires index < Limbo.EPOCH_BAGS && j == Following(index) && k == Following(j) && j < Limbo.EPOCH_BAGS
               && k < Limbo.EPOCH_BAGS
      requires RingFrom(index, j, k) && currentBag == BagAt(index) && comparing.Valid()
      ensures Valid()
    {
      hide RingOk;
      RingTurns(BagAt(index), BagAt(j), BagAt(k), pool, comparing.keys);
      RingTurns(BagAt(j), BagAt(k), BagAt(index), pool, comparing.keys);
    }
  }
}
