/** Statistics of a tree by depth: the plain recursion, and the constructor that cuts the tree
    at some depth, adds up the tables of the subtrees below the cut, and then walks the top. */
module TreeStatistics {

  const MAX_HEIGHT := 1024
  const SIZE_MAX := 0xFFFF_FFFF_FFFF_FFFF

  /* -------------------------------------------------------- trees and levels */

  /** What a node handler tells of a node. */
  datatype Tree = Tree(isLeaf: bool, numKeys: nat, sumOfKeys: nat, children: seq<Tree>)

  /** The children that are visited. */
  function Kids(t: Tree): seq<Tree> {
    if t.isLeaf then [] else t.children
  }

  /** The next level of a forest. */
  function Next(ts: seq<Tree>): seq<Tree> {
    if ts == [] then [] else Next(ts[..|ts| - 1]) + Kids(ts[|ts| - 1])
  }

  function LevelOf(ts: seq<Tree>, d: nat): seq<Tree>
    decreases d
  {
    if d == 0 then ts else LevelOf(Next(ts), d - 1)
  }

  datatype Kind = Internals | Leaves | Keys | KeySum

  function Weight(k: Kind, t: Tree): nat {
    match k
    case Internals => if t.isLeaf then 0 else 1
    case Leaves => if t.isLeaf then 1 else 0
    case Keys => t.numKeys
    case KeySum => t.sumOfKeys
  }

  function WeightSum(k: Kind, ts: seq<Tree>): nat {
    if ts == [] then 0 else WeightSum(k, ts[..|ts| - 1]) + Weight(k, ts[|ts| - 1])
  }

  lemma {:induction false} WeightJoin(k: Kind, a: seq<Tree>, b: seq<Tree>)
    ensures WeightSum(k, a + b) == WeightSum(k, a) + WeightSum(k, b)
  {
    if b == [] {
      assert a + b == a;
    } else {
      var n := |b| - 1;
      WeightJoin(k, a, b[..n]);
      assert (a + b)[..|a + b| - 1] == a + b[..n];
    }
  }

  lemma {:induction false} NextJoin(a: seq<Tree>, b: seq<Tree>)
    ensures Next(a + b) == Next(a) + Next(b)
  {
    if b == [] {
      assert a + b == a;
    } else {
      var n := |b| - 1;
      NextJoin(a, b[..n]);
      hide Kids;
      assert a + b != [] && (a + b)[..|a + b| - 1] == a + b[..n] && (a + b)[|a + b| - 1] == b[n];
      assert Next(a + b) == Next(a + b[..n]) + Kids(b[n]);
      assert Next(b) == Next(b[..n]) + Kids(b[n]);
    }
  }

  lemma {:induction false} LevelJoin(a: seq<Tree>, b: seq<Tree>, d: nat)
    ensures LevelOf(a + b, d) == LevelOf(a, d) + LevelOf(b, d)
    decreases d
  {
    hide Next;
    if d > 0 {
      NextJoin(a, b);
      LevelJoin(Next(a), Next(b), d - 1);
    }
  }

  lemma {:induction false} LevelOfLevel(ts: seq<Tree>, c: nat, d: nat)
    ensures LevelOf(LevelOf(ts, c), d) == LevelOf(ts, c + d)
    decreases c
  {
    hide Next;
    if c > 0 {
      LevelOfLevel(Next(ts), c - 1, d);
      assert LevelOf(ts, c) == LevelOf(Next(ts), c - 1) && LevelOf(ts, c + d) == LevelOf(Next(ts), c - 1 + d);
    } else {
      assert LevelOf(ts, 0) == ts;
    }
  }

  lemma NextOfOne(t: Tree)
    ensures Next([t]) == Kids(t)
  {
    assert Next([t][..0]) == [];
  }

  lemma LevelStep(ts: seq<Tree>, c: nat)
    ensures LevelOf(ts, c + 1) == Next(LevelOf(ts, c))
  {
    LevelOfLevel(ts, c, 1);
    assert LevelOf(LevelOf(ts, c), 1) == LevelOf(Next(LevelOf(ts, c)), 0);
  }

  /** A level below an empty one is empty. */
  lemma EmptyBelow(ts: seq<Tree>, c: nat, d: nat)
    requires LevelOf(ts, c) == [] && c <= d
    ensures LevelOf(ts, d) == []
  {
    LevelOfLevel(ts, c, d - c);
    NothingBelow(d - c);
  }

  lemma {:induction false} NothingBelow(d: nat)
    ensures LevelOf([], d) == []
  {
    if d > 0 {
      NothingBelow(d - 1);
    }
  }

  /** The parts of a forest are no higher than the forest. */
  lemma PartIsLower(a: seq<Tree>, b: seq<Tree>, d: nat)
    requires LevelOf(a + b, d) == []
    ensures LevelOf(a, d) == [] && LevelOf(b, d) == []
  {
    LevelJoin(a, b, d);
  }

  /* ----------------------------------------------------------------- tables */

  /** What a forest whose roots are at the given depth adds to the table at depth d, when nothing
      below maxDepth is visited. */
  function Part(k: Kind, ts: seq<Tree>, depth: nat, maxDepth: nat, d: nat): nat {
    if depth <= d <= maxDepth then WeightSum(k, LevelOf(ts, d - depth)) else 0
  }

  function PartTotal(ts: seq<Tree>, depth: nat, maxDepth: nat, n: nat): nat {
    if n == 0 then 0 else PartTotal(ts, depth, maxDepth, n - 1) + Part(KeySum, ts, depth, maxDepth, n - 1)
  }

  lemma PartJoin(k: Kind, a: seq<Tree>, b: seq<Tree>, depth: nat, maxDepth: nat, d: nat)
    ensures Part(k, a + b, depth, maxDepth, d) == Part(k, a, depth, maxDepth, d) + Part(k, b, depth, maxDepth, d)
  {
    hide LevelOf, WeightSum;
    if depth <= d <= maxDepth {
      LevelJoin(a, b, d - depth);
      WeightJoin(k, LevelOf(a, d - depth), LevelOf(b, d - depth));
    }
  }

  lemma {:induction false} PartTotalJoin(a: seq<Tree>, b: seq<Tree>, depth: nat, maxDepth: nat, n: nat)
    ensures PartTotal(a + b, depth, maxDepth, n) == PartTotal(a, depth, maxDepth, n) + PartTotal(b, depth, maxDepth, n)
  {
    if n > 0 {
      PartTotalJoin(a, b, depth, maxDepth, n - 1);
      PartJoin(KeySum, a, b, depth, maxDepth, n - 1);
    }
  }

  lemma PartOfNone(k: Kind, depth: nat, maxDepth: nat, d: nat)
    ensures Part(k, [], depth, maxDepth, d) == 0
  {
    if depth <= d <= maxDepth {
      NothingBelow(d - depth);
    }
  }

  lemma {:induction false} PartTotalOfNone(depth: nat, maxDepth: nat, n: nat)
    ensures PartTotal([], depth, maxDepth, n) == 0
  {
    if n > 0 {
      PartTotalOfNone(depth, maxDepth, n - 1);
      PartOfNone(KeySum, depth, maxDepth, n - 1);
    }
  }

  /** A tree is its root and the forest of its children, one deeper. */
  lemma PartOfTree(k: Kind, t: Tree, depth: nat, maxDepth: nat, d: nat)
    requires depth <= maxDepth
    ensures Part(k, [t], depth, maxDepth, d)
            == (if d == depth then Weight(k, t) else 0) + Part(k, Kids(t), depth + 1, maxDepth, d)
  {
    NextOfOne(t);
    assert WeightSum(k, [t]) == WeightSum(k, [t][..0]) + Weight(k, t);
  }

  lemma {:induction false} PartTotalOfTree(t: Tree, depth: nat, maxDepth: nat, n: nat)
    requires depth <= maxDepth
    ensures PartTotal([t], depth, maxDepth, n)
            == (if depth < n then t.sumOfKeys else 0) + PartTotal(Kids(t), depth + 1, maxDepth, n)
  {
    if n > 0 {
      PartTotalOfTree(t, depth, maxDepth, n - 1);
      PartOfTree(KeySum, t, depth, maxDepth, n - 1);
    }
  }

  /** The four tables. */
  datatype Stats = Stats(internals: seq<nat>, leaves: seq<nat>, keys: seq<nat>, sum: nat) {
    ghost predicate Sized() {
      |internals| == |leaves| == |keys| == MAX_HEIGHT
    }
  }

  ghost predicate AddedAt(s: Stats, s': Stats, ts: seq<Tree>, depth: nat, maxDepth: nat, d: nat)
    requires s.Sized() && s'.Sized() && d < MAX_HEIGHT
  {
    && s'.internals[d] == s.internals[d] + Part(Internals, ts, depth, maxDepth, d)
    && s'.leaves[d] == s.leaves[d] + Part(Leaves, ts, depth, maxDepth, d)
    && s'.keys[d] == s.keys[d] + Part(Keys, ts, depth, maxDepth, d)
  }

  /** The tables after a forest has been added to them. */
  ghost predicate Added(s: Stats, s': Stats, ts: seq<Tree>, depth: nat, maxDepth: nat) {
    && s.Sized() && s'.Sized()
    && (forall d: nat | d < MAX_HEIGHT :: AddedAt(s, s', ts, depth, maxDepth, d))
    && s'.sum == s.sum + PartTotal(ts, depth, maxDepth, MAX_HEIGHT)
  }

  lemma AddedNone(s: Stats, depth: nat, maxDepth: nat)
    requires s.Sized()
    ensures Added(s, s, [], depth, maxDepth)
  {
    forall d: nat | d < MAX_HEIGHT ensures AddedAt(s, s, [], depth, maxDepth, d) {
      PartOfNone(Internals, depth, maxDepth, d);
      PartOfNone(Leaves, depth, maxDepth, d);
      PartOfNone(Keys, depth, maxDepth, d);
    }
    PartTotalOfNone(depth, maxDepth, MAX_HEIGHT);
  }

  lemma AddedBoth(s: Stats, s': Stats, s'': Stats, a: seq<Tree>, b: seq<Tree>, depth: nat, maxDepth: nat)
    requires Added(s, s', a, depth, maxDepth) && Added(s', s'', b, depth, maxDepth)
    ensures Added(s, s'', a + b, depth, maxDepth)
  {
    hide Part, PartTotal;
    forall d: nat | d < MAX_HEIGHT ensures AddedAt(s, s'', a + b, depth, maxDepth, d) {
      assert AddedAt(s, s', a, depth, maxDepth, d) && AddedAt(s', s'', b, depth, maxDepth, d);
      PartJoin(Internals, a, b, depth, maxDepth, d);
      PartJoin(Leaves, a, b, depth, maxDepth, d);
      PartJoin(Keys, a, b, depth, maxDepth, d);
    }
    PartTotalJoin(a, b, depth, maxDepth, MAX_HEIGHT);
  }

  /** The tables after one node has been counted. */
  ghost function Counted(s: Stats, t: Tree, depth: nat): (s': Stats)
    requires s.Sized() && depth < MAX_HEIGHT
    ensures s'.Sized()
  {
    Stats(s.internals[depth := s.internals[depth] + Weight(Internals, t)],
          s.leaves[depth := s.leaves[depth] + Weight(Leaves, t)],
          s.keys[depth := s.keys[depth] + t.numKeys], s.sum + t.sumOfKeys)
  }

  lemma AddedTree(s: Stats, s': Stats, t: Tree, depth: nat, maxDepth: nat)
    requires s.Sized() && depth < MAX_HEIGHT && depth <= maxDepth
    requires Added(Counted(s, t, depth), s', Kids(t), depth + 1, maxDepth)
    ensures Added(s, s', [t], depth, maxDepth)
  {
    hide Part, PartTotal;
    forall d: nat | d < MAX_HEIGHT ensures AddedAt(s, s', [t], depth, maxDepth, d) {
      assert AddedAt(Counted(s, t, depth), s', Kids(t), depth + 1, maxDepth, d);
      PartOfTree(Internals, t, depth, maxDepth, d);
      PartOfTree(Leaves, t, depth, maxDepth, d);
      PartOfTree(Keys, t, depth, maxDepth, d);
    }
    PartTotalOfTree(t, depth, maxDepth, MAX_HEIGHT);
  }

  lemma AddedTooDeep(s: Stats, ts: seq<Tree>, depth: nat, maxDepth: nat)
    requires s.Sized() && depth > maxDepth
    ensures Added(s, s, ts, depth, maxDepth)
  {
    TotalTooDeep(ts, depth, maxDepth, MAX_HEIGHT);
  }

  lemma {:induction false} TotalTooDeep(ts: seq<Tree>, depth: nat, maxDepth: nat, n: nat)
    requires depth > maxDepth
    ensures PartTotal(ts, depth, maxDepth, n) == 0
  {
    if n > 0 {
      TotalTooDeep(ts, depth, maxDepth, n - 1);
    }
  }

  /* ------------------------------------------------- subtrees below the cut */

  /** The tables of a subtree whose root is at depth c, moved down by c. */
  ghost function Shifted(s: Stats, u: Stats, c: nat): (s': Stats)
    requires s.Sized() && u.Sized()
    ensures s'.Sized()
  {
    Stats(seq(MAX_HEIGHT, d requires 0 <= d < MAX_HEIGHT =>
            if d < c then s.internals[d] else s.internals[d] + u.internals[d - c]),
          seq(MAX_HEIGHT, d requires 0 <= d < MAX_HEIGHT =>
            if d < c then s.leaves[d] else s.leaves[d] + u.leaves[d - c]),
          seq(MAX_HEIGHT, d requires 0 <= d < MAX_HEIGHT => if d < c then s.keys[d] else s.keys[d] + u.keys[d - c]),
          s.sum + u.sum)
  }

  function Zero(): (s: Stats)
    ensures s.Sized()
  {
    var z := seq(MAX_HEIGHT, d => 0 as nat);
    Stats(z, z, z, 0)
  }

  lemma AddedShifted(s: Stats, u: Stats, t: Tree, c: nat)
    requires s.Sized() && Added(Zero(), u, [t], 0, SIZE_MAX) && c <= MAX_HEIGHT && LevelOf([t], MAX_HEIGHT - c) == []
    ensures Added(s, Shifted(s, u, c), [t], c, SIZE_MAX)
  {
    forall d: nat | d < MAX_HEIGHT ensures AddedAt(s, Shifted(s, u, c), [t], c, SIZE_MAX, d) {
      if d >= c {
        assert AddedAt(Zero(), u, [t], 0, SIZE_MAX, d - c);
      }
    }
    TotalShifted([t], c, MAX_HEIGHT);
    TotalIsOver([t], MAX_HEIGHT - c, MAX_HEIGHT);
  }

  lemma {:induction false} TotalShifted(ts: seq<Tree>, c: nat, n: nat)
    requires c <= n <= MAX_HEIGHT
    ensures PartTotal(ts, c, SIZE_MAX, n) == PartTotal(ts, 0, SIZE_MAX, n - c)
    decreases n
  {
    if n == c {
      TotalAbove(ts, c, n);
    } else {
      TotalShifted(ts, c, n - 1);
    }
  }

  lemma {:induction false} TotalAbove(ts: seq<Tree>, c: nat, n: nat)
    requires n <= c
    ensures PartTotal(ts, c, SIZE_MAX, n) == 0
  {
    if n > 0 {
      TotalAbove(ts, c, n - 1);
    }
  }

  /** Below its last level a forest adds nothing. */
  lemma {:induction false} TotalIsOver(ts: seq<Tree>, h: nat, n: nat)
    requires LevelOf(ts, h) == [] && h <= n
    ensures PartTotal(ts, 0, SIZE_MAX, n) == PartTotal(ts, 0, SIZE_MAX, h)
    decreases n
  {
    if n > h {
      TotalIsOver(ts, h, n - 1);
      EmptyBelow(ts, h, n - 1);
    }
  }

  /** A tree counted in two parts, from depth c down and above it. */
  lemma TopAndBottom(s: Stats, s': Stats, s'': Stats, t: Tree, c: nat)
    requires 0 < c <= MAX_HEIGHT
    requires Added(s, s', LevelOf([t], c), c, SIZE_MAX) && Added(s', s'', [t], 0, c - 1)
    ensures Added(s, s'', [t], 0, SIZE_MAX)
  {
    hide LevelOf;
    forall d: nat | d < MAX_HEIGHT ensures AddedAt(s, s'', [t], 0, SIZE_MAX, d) {
      assert AddedAt(s, s', LevelOf([t], c), c, SIZE_MAX, d) && AddedAt(s', s'', [t], 0, c - 1, d);
      CutAt(t, c, d);
    }
    TotalCut(t, c, MAX_HEIGHT);
  }

  lemma CutAt(t: Tree, c: nat, d: nat)
    requires d < MAX_HEIGHT && c > 0
    ensures forall k ::
              Part(k, LevelOf([t], c), c, SIZE_MAX, d) + Part(k, [t], 0, c - 1, d) == Part(k, [t], 0, SIZE_MAX, d)
  {
    if d >= c {
      LevelOfLevel([t], c, d - c);
    }
  }

  lemma {:induction false} TotalCut(t: Tree, c: nat, n: nat)
    requires n <= MAX_HEIGHT && c > 0
    ensures PartTotal(LevelOf([t], c), c, SIZE_MAX, n) + PartTotal([t], 0, c - 1, n) == PartTotal([t], 0, SIZE_MAX, n)
  {
    if n > 0 {
      TotalCut(t, c, n - 1);
      CutAt(t, c, n - 1);
    }
  }

  lemma ShiftedAt(s: Stats, u: Stats, c: nat, d: nat)
    requires s.Sized() && u.Sized() && c + d < MAX_HEIGHT
    ensures var g := Shifted(s, u, c);
            && g.internals[c + d] == s.internals[c + d] + u.internals[d]
            && g.leaves[c + d] == s.leaves[c + d] + u.leaves[d]
            && g.keys[c + d] == s.keys[c + d] + u.keys[d]
  {
  }

  /** A table that is as it should be up to depth n, and as it was from there on. */
  ghost predicate Moved(a: seq<nat>, before: seq<nat>, after: seq<nat>, n: nat) {
    && |a| == |before| == |after| == MAX_HEIGHT && n <= MAX_HEIGHT
    && (forall e | 0 <= e < n :: a[e] == after[e]) && (forall e | n <= e < MAX_HEIGHT :: a[e] == before[e])
  }

  /** Fetch-and-add at the first depth that is as it was. */
  method AddAt(a: array<nat>, d: nat, x: nat, ghost before: seq<nat>, ghost after: seq<nat>)
    requires Moved(a[..], before, after, d) && d < MAX_HEIGHT && after[d] == before[d] + x
    modifies a
    ensures Moved(a[..], before, after, d + 1)
  {
    a[d] := a[d] + x;
  }

  /* ------------------------------------------------------------ the meaning */

  /** What the statistics of a tree should be: at each depth, the sums over that level. */
  ghost predicate StatsOf(s: Stats, root: Tree) {
    && s.Sized()
    && (forall d: nat | d < MAX_HEIGHT :: s.internals[d] == WeightSum(Internals, LevelOf([root], d)))
    && (forall d: nat | d < MAX_HEIGHT :: s.leaves[d] == WeightSum(Leaves, LevelOf([root], d)))
    && (forall d: nat | d < MAX_HEIGHT :: s.keys[d] == WeightSum(Keys, LevelOf([root], d)))
    && s.sum == LevelTotal(root, MAX_HEIGHT)
  }

  ghost function LevelTotal(root: Tree, n: nat): nat {
    if n == 0 then 0 else LevelTotal(root, n - 1) + WeightSum(KeySum, LevelOf([root], n - 1))
  }

  lemma {:induction false} TotalMeans(root: Tree, n: nat)
    requires n <= MAX_HEIGHT
    ensures PartTotal([root], 0, SIZE_MAX, n) == LevelTotal(root, n)
  {
    if n > 0 {
      TotalMeans(root, n - 1);
    }
  }

  lemma AddedMeans(s: Stats, root: Tree)
    requires Added(Zero(), s, [root], 0, SIZE_MAX)
    ensures StatsOf(s, root)
  {
    TotalMeans(root, MAX_HEIGHT);
    forall d: nat | d < MAX_HEIGHT
      ensures s.internals[d] == WeightSum(Internals, LevelOf([root], d))
      ensures s.leaves[d] == WeightSum(Leaves, LevelOf([root], d))
      ensures s.keys[d] == WeightSum(Keys, LevelOf([root], d))
    {
      assert AddedAt(Zero(), s, [root], 0, SIZE_MAX, d);
    }
  }

  /** Counting a tree with one node twice is wrong. */
  lemma TwiceIsWrong(s: Stats, s': Stats, root: Tree)
    requires Added(Zero(), s, [root], 0, SIZE_MAX) && Added(s, s', [root], 0, SIZE_MAX)
    ensures !StatsOf(s', root)
  {
    assert AddedAt(Zero(), s, [root], 0, SIZE_MAX, 0) && AddedAt(s, s', [root], 0, SIZE_MAX, 0);
    assert LevelOf([root], 0) == [root];
    assert WeightSum(Internals, [root]) == Weight(Internals, root)
           && WeightSum(Leaves, [root]) == Weight(Leaves, root) by {
      assert [root][..0] == [];
    }
  }

  /* ---------------------------------------------------------------- the cut */

  /** The queue of the breadth-first search: from start on it holds the level at depth c, and
      behind it the children of the nodes of that level that have been seen. */
  ghost predicate Queue(root: Tree, qn: seq<Tree>, qd: seq<nat>, start: nat, seen: nat, c: nat) {
    var level := LevelOf([root], c);
    && |qn| == |qd| && start + |level| <= |qn| && seen <= |level|
    && qn[start..start + |level|] == level && qn[start + |level|..] == Next(level[..seen])
    && (forall i | start <= i < |qd| :: qd[i] == if i < start + |level| then c else c + 1)
  }

  lemma QueueStart(root: Tree)
    ensures Queue(root, [root], [0], 0, 0, 0)
  {
  }

  /** The next node is still of this level; its children go to the end. */
  lemma QueueSees(root: Tree, qn: seq<Tree>, qd: seq<nat>, start: nat, seen: nat, c: nat)
    requires Queue(root, qn, qd, start, seen, c) && start + seen < |qn| && qd[start + seen] == c
    ensures seen < |LevelOf([root], c)| && qn[start + seen] == LevelOf([root], c)[seen]
    ensures var more := Kids(qn[start + seen]); Queue(root, qn + more, qd + seq(|more|, i => c + 1), start, seen + 1, c)
  {
    var level := LevelOf([root], c);
    var more := Kids(qn[start + seen]);
    assert qn[start..start + |level|][seen] == level[seen];
    assert level[..seen + 1][..seen] == level[..seen];
    assert (qn + more)[start + |level|..] == qn[start + |level|..] + more;
    assert (qn + more)[start..start + |level|] == level;
  }

  lemma QueueDepth(root: Tree, qn: seq<Tree>, qd: seq<nat>, start: nat, seen: nat, c: nat)
    requires Queue(root, qn, qd, start, seen, c) && start + seen < |qn|
    ensures qd[start + seen] == if seen < |LevelOf([root], c)| then c else c + 1
  {
  }

  /** When a level has been seen, the next one is all that is left. */
  lemma QueueRest(root: Tree, qn: seq<Tree>, qd: seq<nat>, start: nat, seen: nat, c: nat)
    requires Queue(root, qn, qd, start, seen, c) && seen == |LevelOf([root], c)|
    ensures start + seen <= |qn| && qn[start + seen..] == LevelOf([root], c + 1)
  {
    LevelStep([root], c);
    hide LevelOf;
    assert LevelOf([root], c)[..seen] == LevelOf([root], c);
  }

  /** The next node is of the next level. */
  lemma QueueTurns(root: Tree, qn: seq<Tree>, qd: seq<nat>, start: nat, seen: nat, c: nat)
    requires Queue(root, qn, qd, start, seen, c) && start + seen < |qn| && qd[start + seen] != c
    ensures seen == |LevelOf([root], c)| && qd[start + seen] == c + 1 && LevelOf([root], c + 1) != []
    ensures Queue(root, qn, qd, start + seen, 0, c + 1)
  {
    hide LevelOf;
    QueueDepth(root, qn, qd, start, seen, c);
    QueueRest(root, qn, qd, start, seen, c);
    var next := LevelOf([root], c + 1);
    assert |qn| == start + seen + |next|;
    assert qn[start + seen..start + seen + |next|] == next;
    assert next[..0] == [] && Next(next[..0]) == [] && qn[start + seen + |next|..] == [];
  }

  /** The loop that pushes the children of a node at depth c. */
  method PushChildren(node: Tree, c: nat, qn: seq<Tree>, qd: seq<nat>) returns (qn': seq<Tree>, qd': seq<nat>)
    ensures qn' == qn + Kids(node) && qd' == qd + seq(|Kids(node)|, i => c + 1)
  {
    qn', qd' := qn, qd;
    if !node.isLeaf {
      var i := 0;
      while i < |node.children|
        invariant 0 <= i <= |node.children|
        invariant qn' == qn + node.children[..i] && qd' == qd + seq(i, _ => c + 1)
      {
        qn', qd' := qn' + [node.children[i]], qd' + [1 + c];
        i := i + 1;
      }
    }
  }

  /** The breadth-first search: it stops at the first level with enough nodes, or at the last. */
  method Cut(root: Tree, minNodes: nat) returns (qn: seq<Tree>, ixStartOfDepth: nat, ix: nat, currDepth: nat)
    requires minNodes > 1 && LevelOf([root], MAX_HEIGHT) == []
    ensures ixStartOfDepth <= ix <= |qn| && qn[ixStartOfDepth..ix] == LevelOf([root], currDepth)
            && currDepth < MAX_HEIGHT
    ensures currDepth == 0 <==> Kids(root) == []
    ensures ix - ixStartOfDepth >= minNodes || LevelOf([root], currDepth + 1) == []
  {
    hide Queue, LevelOf;
    var qd: seq<nat>;
    qn, qd := [root], [0];
    ix, currDepth, ixStartOfDepth := 0, 0, 0;
    var nodesSeenAtDepth := 0;
    QueueStart(root);
    LevelZero([root]);
    while ix < |qn|
      invariant |qd| == |qn| && Queue(root, qn, qd, ixStartOfDepth, nodesSeenAtDepth, currDepth)
      invariant ix == ixStartOfDepth + nodesSeenAtDepth <= |qn| && nodesSeenAtDepth <= |LevelOf([root], currDepth)|
      invariant LevelOf([root], currDepth) != [] && currDepth < MAX_HEIGHT
      decreases MAX_HEIGHT - currDepth, |LevelOf([root], currDepth)| - nodesSeenAtDepth
    {
      var node, depth := qn[ix], qd[ix];
      ix := ix + 1;
      if depth != currDepth {
        QueueTurns(root, qn, qd, ixStartOfDepth, nodesSeenAtDepth, currDepth);
        if nodesSeenAtDepth >= minNodes {
          ix := ix - 1;
          break;
        }
        WithinHeight(root, currDepth + 1);
        currDepth := depth;
        nodesSeenAtDepth := 0;
        ixStartOfDepth := ix - 1;
      }
      QueueSees(root, qn, qd, ixStartOfDepth, nodesSeenAtDepth, currDepth);
      nodesSeenAtDepth := nodesSeenAtDepth + 1;
      qn, qd := PushChildren(node, depth, qn, qd);
    }
    Finished(root, qn, qd, ixStartOfDepth, nodesSeenAtDepth, currDepth, minNodes);
  }

  lemma LevelZero(ts: seq<Tree>)
    ensures LevelOf(ts, 0) == ts
  {
  }

  lemma WithinHeight(root: Tree, c: nat)
    requires LevelOf([root], MAX_HEIGHT) == [] && LevelOf([root], c) != []
    ensures c < MAX_HEIGHT
  {
    if c >= MAX_HEIGHT {
      EmptyBelow([root], MAX_HEIGHT, c);
    }
  }

  lemma Finished(root: Tree, qn: seq<Tree>, qd: seq<nat>, start: nat, seen: nat, c: nat, minNodes: nat)
    requires minNodes > 1 && Queue(root, qn, qd, start, seen, c) && LevelOf([root], c) != []
    requires start + seen >= |qn| || (seen == |LevelOf([root], c)| && seen >= minNodes)
    ensures start + seen <= |qn| && qn[start..start + seen] == LevelOf([root], c) && (c == 0 <==> Kids(root) == [])
    ensures seen >= minNodes || LevelOf([root], c + 1) == []
  {
    var level := LevelOf([root], c);
    NextOfOne(root);
    LevelStep([root], c);
    assert level[..|level|] == level;
    if c > 0 && Kids(root) == [] {
      EmptyBelow([root], 1, c);
    }
  }

  class TreeStats {
    const internalsAtDepth: array<nat>
    const leavesAtDepth: array<nat>
    const keysAtDepth: array<nat>
    var sumOfKeys: nat

    ghost predicate Valid() {
      && internalsAtDepth.Length == leavesAtDepth.Length == keysAtDepth.Length == MAX_HEIGHT
      && internalsAtDepth != leavesAtDepth && internalsAtDepth != keysAtDepth && leavesAtDepth != keysAtDepth
    }

    ghost function Tables(): (s: Stats)
      requires Valid()
      reads this, internalsAtDepth, leavesAtDepth, keysAtDepth
      ensures s.Sized()
    {
      Stats(internalsAtDepth[..], leavesAtDepth[..], keysAtDepth[..], sumOfKeys)
    }

    constructor (root: Tree, parallelConstruction: bool, maxThreads: nat)
      requires LevelOf([root], MAX_HEIGHT) == [] && maxThreads > 0
      ensures Valid() && fresh(internalsAtDepth) && fresh(leavesAtDepth) && fresh(keysAtDepth)
      ensures StatsOf(Tables(), root) <==> !parallelConstruction || Kids(root) != []
      ensures !parallelConstruction ==> Added(Zero(), Tables(), [root], 0, SIZE_MAX)
      decreases if parallelConstruction then 2 else 0
    {
      internalsAtDepth := new nat[MAX_HEIGHT](_ => 0);
      leavesAtDepth := new nat[MAX_HEIGHT](_ => 0);
      keysAtDepth := new nat[MAX_HEIGHT](_ => 0);
      sumOfKeys := 0;
      new;
      hide LevelOf, StatsOf;
      assert Tables() == Zero();
      if !parallelConstruction {
        ComputeStats(root, 0, SIZE_MAX);
        AddedMeans(Tables(), root);
      } else {
        var qn, ixStartOfDepth, ix, currDepth := Cut(root, 4 * maxThreads);
        AddSubtrees(root, qn, ixStartOfDepth, ix, currDepth, maxThreads);
        ghost var s := Tables();
        ComputeStats(root, 0, if currDepth == 0 then SIZE_MAX else currDepth - 1);
        if currDepth == 0 {
          LevelZero([root]);
          TwiceIsWrong(s, Tables(), root);
        } else {
          TopAndBottom(Zero(), s, Tables(), root, currDepth);
          AddedMeans(Tables(), root);
        }
      }
    }

    /** The loop over the subtrees below the cut. */
    method AddSubtrees(ghost root: Tree, qn: seq<Tree>, ixStartOfDepth: nat, ix: nat, currDepth: nat, maxThreads: nat)
      requires Valid() && Tables() == Zero() && LevelOf([root], MAX_HEIGHT) == [] && currDepth < MAX_HEIGHT
               && maxThreads > 0
      requires ixStartOfDepth <= ix <= |qn| && qn[ixStartOfDepth..ix] == LevelOf([root], currDepth)
      modifies this`sumOfKeys, internalsAtDepth, leavesAtDepth, keysAtDepth
      ensures Added(Zero(), Tables(), LevelOf([root], currDepth), currDepth, SIZE_MAX)
      decreases 1, 1
    {
      hide Added, Tables, LevelOf;
      ghost var level := LevelOf([root], currDepth);
      LevelOfLevel([root], currDepth, MAX_HEIGHT - currDepth);
      AddedNone(Zero(), currDepth, SIZE_MAX);
      var i := ixStartOfDepth;
      assert level[..0] == [];
      while i < ix
        invariant ixStartOfDepth <= i <= ix
        invariant Added(Zero(), Tables(), level[..i - ixStartOfDepth], currDepth, SIZE_MAX)
      {
        ghost var s, j := Tables(), i - ixStartOfDepth;
        assert qn[i] == level[j];
        MemberIsLower(level, j, MAX_HEIGHT - currDepth);
        AddSubtree(qn[i], currDepth, maxThreads);
        AddedBoth(Zero(), s, Tables(), level[..j], [level[j]], currDepth, SIZE_MAX);
        assert level[..j] + [level[j]] == level[..j + 1];
        i := i + 1;
      }
      assert level[..i - ixStartOfDepth] == level;
    }

    /** The tables of one subtree, built by the plain recursion, are added further down. */
    method AddSubtree(node: Tree, currDepth: nat, maxThreads: nat)
      requires Valid() && currDepth < MAX_HEIGHT && LevelOf([node], MAX_HEIGHT - currDepth) == [] && maxThreads > 0
      modifies this`sumOfKeys, internalsAtDepth, leavesAtDepth, keysAtDepth
      ensures Added(old(Tables()), Tables(), [node], currDepth, SIZE_MAX)
      decreases 1, 0
    {
      hide LevelOf, Added, StatsOf, Tables, Shifted;
      EmptyBelow([node], MAX_HEIGHT - currDepth, MAX_HEIGHT);
      var ts := new TreeStats(node, false, maxThreads);
      ghost var s, u := Tables(), ts.Tables();
      AddTables(ts, currDepth);
      AddedShifted(s, u, node, currDepth);
    }

    method AddTables(ts: TreeStats, currDepth: nat)
      requires Valid() && ts.Valid() && ts != this && currDepth < MAX_HEIGHT
      requires {ts.internalsAtDepth, ts.leavesAtDepth, ts.keysAtDepth} !! {internalsAtDepth, leavesAtDepth, keysAtDepth}
      modifies this`sumOfKeys, internalsAtDepth, leavesAtDepth, keysAtDepth
      ensures Tables() == Shifted(old(Tables()), ts.Tables(), currDepth)
    {
      ghost var s, u := Tables(), ts.Tables();
      ghost var goal := Shifted(s, u, currDepth);
      var d := 0;
      while d < MAX_HEIGHT - currDepth
        invariant 0 <= d <= MAX_HEIGHT - currDepth && Tables().sum == s.sum && ts.Tables() == u
        invariant Moved(internalsAtDepth[..], s.internals, goal.internals, currDepth + d)
        invariant Moved(leavesAtDepth[..], s.leaves, goal.leaves, currDepth + d)
        invariant Moved(keysAtDepth[..], s.keys, goal.keys, currDepth + d)
      {
        ShiftedAt(s, u, currDepth, d);
        hide Shifted, Moved;
        AddAt(internalsAtDepth, d + currDepth, ts.internalsAtDepth[d], s.internals, goal.internals);
        AddAt(leavesAtDepth, d + currDepth, ts.leavesAtDepth[d], s.leaves, goal.leaves);
        AddAt(keysAtDepth, d + currDepth, ts.keysAtDepth[d], s.keys, goal.keys);
        d := d + 1;
      }
      sumOfKeys := sumOfKeys + ts.sumOfKeys;
    }

    /** The plain recursion.  It returns at once below maxDepth. */
    method ComputeStats(node: Tree, depth: nat, maxDepth: nat)
      requires Valid() && depth <= MAX_HEIGHT && LevelOf([node], MAX_HEIGHT - depth) == []
      modifies this`sumOfKeys, internalsAtDepth, leavesAtDepth, keysAtDepth
      ensures Added(old(Tables()), Tables(), [node], depth, maxDepth)
      decreases node
    {
      ghost var s := Tables();
      if depth > maxDepth {
        AddedTooDeep(s, [node], depth, maxDepth);
        return;
      }
      keysAtDepth[depth] := keysAtDepth[depth] + node.numKeys;
      sumOfKeys := sumOfKeys + node.sumOfKeys;
      if node.isLeaf {
        leavesAtDepth[depth] := leavesAtDepth[depth] + 1;
        assert Tables() == Counted(s, node, depth);
        AddedNone(Tables(), depth + 1, maxDepth);
      } else {
        internalsAtDepth[depth] := internalsAtDepth[depth] + 1;
        assert Tables() == Counted(s, node, depth);
        ComputeChildren(node, depth, maxDepth);
      }
      AddedTree(s, Tables(), node, depth, maxDepth);
    }

    /** `getHeight`. */
    method GetHeight(ghost root: Tree) returns (d: nat)
      requires Valid() && StatsOf(Tables(), root) && LevelOf([root], MAX_HEIGHT) == []
      ensures LevelOf([root], d) == [] && forall e: nat | e < d :: LevelOf([root], e) != []
    {
      d := 0;
      hide LevelOf;
      while d < MAX_HEIGHT && internalsAtDepth[d] + leavesAtDepth[d] > 0
        invariant d <= MAX_HEIGHT && forall e: nat | e < d :: LevelOf([root], e) != []
      {
        EveryNodeCounts(LevelOf([root], d));
        assert Tables().internals[d] == internalsAtDepth[d] && Tables().leaves[d] == leavesAtDepth[d];
        d := d + 1;
      }
      if d < MAX_HEIGHT {
        EveryNodeCounts(LevelOf([root], d));
        assert Tables().internals[d] == internalsAtDepth[d] && Tables().leaves[d] == leavesAtDepth[d];
      }
    }

    /** The loop over the children. */
    method ComputeChildren(node: Tree, depth: nat, maxDepth: nat)
      requires Valid() && depth < MAX_HEIGHT && LevelOf([node], MAX_HEIGHT - depth) == [] && !node.isLeaf
      modifies this`sumOfKeys, internalsAtDepth, leavesAtDepth, keysAtDepth
      ensures Added(old(Tables()), Tables(), Kids(node), depth + 1, maxDepth)
      decreases node, 0
    {
      hide Added, Tables;
      ghost var s := Tables();
      var i := 0;
      AddedNone(s, depth + 1, maxDepth);
      assert node.children[..0] == [];
      while i < |node.children|
        invariant 0 <= i <= |node.children|
        invariant Added(s, Tables(), node.children[..i], depth + 1, maxDepth)
      {
        ghost var s' := Tables();
        ChildIsLower(node, i, MAX_HEIGHT - depth);
        ComputeStats(node.children[i], depth + 1, maxDepth);
        AddedBoth(s, s', Tables(), node.children[..i], [node.children[i]], depth + 1, maxDepth);
        assert node.children[..i] + [node.children[i]] == node.children[..i + 1];
        i := i + 1;
      }
      assert node.children[..i] == node.children;
    }
  }

  lemma ChildIsLower(node: Tree, i: nat, h: nat)
    requires !node.isLeaf && i < |node.children| && h > 0 && LevelOf([node], h) == []
    ensures LevelOf([node.children[i]], h - 1) == []
  {
    NextOfOne(node);
    MemberIsLower(node.children, i, h - 1);
  }

  lemma MemberIsLower(level: seq<Tree>, j: nat, h: nat)
    requires j < |level| && LevelOf(level, h) == []
    ensures LevelOf([level[j]], h) == []
  {
    assert level == level[..j] + level[j..] && level[j..] == [level[j]] + level[j + 1..];
    PartIsLower(level[..j], level[j..], h);
    PartIsLower([level[j]], level[j + 1..], h);
  }

  lemma {:induction false} EveryNodeCounts(ts: seq<Tree>)
    ensures WeightSum(Internals, ts) + WeightSum(Leaves, ts) == |ts|
  {
    if ts != [] {
      EveryNodeCounts(ts[..|ts| - 1]);
    }
  }
}
