/** Epochs agreed on by a tournament tree: each thread announces at a leaf, and values climb
    while both children agree.  Node 1 is the root and holds the epoch; node ix has the
    children 2 ix and 2 ix + 1; the leaf of thread tid is tid + width. */
module EpochTreeModel {

  import opened Limbo
  import opened PowersOfTwo

  const INCREMENT: nat := 2
  const ROOT: nat := 1

  predicate Quiescent(v: nat) {
    v % 2 == 1
  }

  function Sibling(ix: nat): nat {
    if ix % 2 == 0 then ix + 1 else ix - 1
  }

  /* ------------------------------------------------------------ constructor */

  /** The tree before the root is set: real leaves and all nodes above one are 0, leaves
      without a thread and nodes that have only such leaves below are quiescent. */
  ghost predicate Settled(v: seq<nat>, n: nat, width: nat) {
    && |v| == 2 * width
    && (forall ix: nat | width <= ix < 2 * width :: v[ix] == if ix < width + n then 0 else 1)
    && (forall ix: nat | 1 <= ix < width :: FollowsChildren(v, ix))
  }

  ghost predicate FollowsChildren(v: seq<nat>, ix: nat)
    requires 2 * ix + 1 < |v|
  {
    v[ix] == if v[2 * ix] == 1 && v[2 * ix + 1] == 1 then 1 else 0
  }

  /** Node ix is 1 only if its children are; and it is 1 if they are, except where the
      propagation from `from` is under way or has not begun. */
  ghost predicate NodeOk(v: seq<nat>, ix: nat, done: nat, from: nat)
    requires 2 * ix + 1 < |v|
  {
    && v[ix] <= 1 && (v[ix] == 1 ==> v[2 * ix] == 1 && v[2 * ix + 1] == 1)
    && (v[ix] == 0 && v[2 * ix] == 1 && v[2 * ix + 1] == 1 ==> ix == from / 2 || 2 * ix >= done)
  }

  ghost predicate Partly(v: seq<nat>, n: nat, width: nat, done: nat, from: nat) {
    && |v| == 2 * width && 1 <= n <= width <= done <= 2 * width && v[0] == 0
    && (forall ix: nat | width <= ix < 2 * width :: v[ix] == if ix < width + n then 0 else 1)
    && (forall ix: nat | 1 <= ix < width :: NodeOk(v, ix, done, from))
  }

  method PropagateQ(nodes: array<nat>, ghost n: nat, ghost width: nat, ghost done: nat, currIx: nat)
    requires 1 <= currIx < nodes.Length && Partly(nodes[..], n, width, done, currIx) && nodes[currIx] == 1
    modifies nodes
    ensures Partly(nodes[..], n, width, done, 0)
    decreases currIx
  {
    var parentIx := currIx / 2;
    var leftIx := 2 * parentIx;
    var siblingIx := if currIx == leftIx then leftIx + 1 else leftIx;
    assert siblingIx == Sibling(currIx);
    var siblingVal := nodes[siblingIx];
    ghost var v := nodes[..];
    if Quiescent(siblingVal) {
      assert parentIx > 0 ==> NodeOk(v, parentIx, done, currIx);
      nodes[parentIx] := 1;
      assert nodes[..] == v[parentIx := 1];
      Climb(v, n, width, done, currIx);
      PropagateQ(nodes, n, width, done, parentIx);
    } else {
      Stop(v, n, width, done, currIx);
    }
  }

  /** A node with two quiescent children may become quiescent. */
  lemma Climb(v: seq<nat>, n: nat, width: nat, done: nat, from: nat)
    requires 1 <= from < |v| && Partly(v, n, width, done, from) && v[from] == 1 && v[Sibling(from)] % 2 == 1
    ensures from >= 2 && Partly(v[from / 2 := 1], n, width, done, from / 2)
  {
    var p := from / 2;
    var v' := v[p := 1];
    assert Sibling(from) < width && Sibling(from) > 0 ==> NodeOk(v, Sibling(from), done, from);
    assert v[Sibling(from)] == 1;
    forall ix: nat | 1 <= ix < width ensures NodeOk(v', ix, done, p) {
      assert NodeOk(v, ix, done, from);
    }
  }

  lemma Stop(v: seq<nat>, n: nat, width: nat, done: nat, from: nat)
    requires 1 <= from < |v| && Partly(v, n, width, done, from) && v[Sibling(from)] % 2 == 0
    ensures Partly(v, n, width, done, 0)
  {
    forall ix: nat | 1 <= ix < width ensures NodeOk(v, ix, done, 0) {
      assert NodeOk(v, ix, done, from);
    }
  }

  lemma NextLeaf(v: seq<nat>, n: nat, width: nat, ix: nat)
    requires Partly(v, n, width, ix, 0) && width + n <= ix < 2 * width
    ensures Partly(v, n, width, ix + 1, ix) && v[ix] == 1
  {
    var done := ix + 1;
    forall j: nat | 1 <= j < width ensures NodeOk(v, j, done, ix) {
      assert NodeOk(v, j, ix, 0);
    }
  }

  lemma AllSettled(v: seq<nat>, n: nat, width: nat)
    requires Partly(v, n, width, 2 * width, 0)
    ensures Settled(v, n, width)
  {
    forall ix: nat | 1 <= ix < width ensures FollowsChildren(v, ix) {
      assert NodeOk(v, ix, 2 * width, 0);
    }
  }

  /** The constructor of the tree for n threads. */
  method NewTree(n: nat) returns (nodes: array<nat>, width: nat)
    requires 1 <= n <= LARGEST
    ensures fresh(nodes) && width == RoundUpPow2(n) && InitialTree(nodes[..], n, width)
  {
    hide RoundUpPow2, Pow2;
    ghost var k := RoundUpIsNextPow2(n);
    width := RoundUpPow2(n);
    nodes := new nat[2 * width](_ => 0);
    var ix := width + n;
    while ix < 2 * width
      invariant width + n <= ix <= 2 * width
      invariant forall j | 0 <= j < 2 * width :: nodes[j] == if width + n <= j < ix then 1 else 0
    {
      nodes[ix] := 1;
      ix := ix + 1;
    }
    ix := width + n;
    while ix < 2 * width
      invariant width + n <= ix <= 2 * width
      invariant Partly(nodes[..], n, width, ix, 0)
    {
      NextLeaf(nodes[..], n, width, ix);
      PropagateQ(nodes, n, width, ix + 1, ix);
      ix := ix + 1;
    }
    ghost var v := nodes[..];
    AllSettled(v, n, width);
    nodes[ROOT] := INCREMENT;
    assert nodes[..] == v[ROOT := INCREMENT];
  }

  ghost predicate InitialTree(v: seq<nat>, n: nat, width: nat) {
    exists w: seq<nat> :: Settled(w, n, width) && |w| > ROOT && v == w[ROOT := INCREMENT]
  }

  /* -------------------------------------------------------------- protocol */

  datatype Pc =
    | Outside
    | Announce(e: nat)                          // the epoch read differs from the own leaf
    | Rotate
    | Started                                   // about to count, and maybe to try to advance
    | AtNode(ix: nat, val: nat)                 // the loop head of `tryAdvance`
    | ReadRoot(ix: nat, val: nat)
    | CasRoot(ix: nat, val: nat)
    | ReadParent(ix: nat, val: nat)
    | CasParent(ix: nat, val: nat, parentVal: nat)
    | Inside                                    // the body of the operation

  /** opNum is ghost: how many operations the thread has begun. */
  datatype Data = Data(index: nat, time: nat, pc: Pc, opNum: nat)

  /** Ghost record of a retired object: the epoch at its retirement, and the operation
      each thread was running then, or 0. */
  datatype Ret = Ret(epoch: nat, running: seq<nat>)

  datatype State = State(
    v: seq<nat>,
    width: nat,
    td: seq<Data>,
    store: Store,
    rec: map<nat, Ret>,
    block: nat,
    minTime: nat
  )

  function Leaf(s: State, t: nat): nat {
    t + s.width
  }

  /** The thread has begun an operation and not ended it. */
  function Operation(d: Data): nat {
    if d.pc.Outside? then 0 else d.opNum
  }

  ghost predicate Init(s: State) {
    && 2 <= |s.td| <= LARGEST && s.width == RoundUpPow2(|s.td|)
    && InitialTree(s.v, |s.td|, s.width) && s.rec == map[] && s.minTime > 0
    && s.store.place == map[] && |s.store.bags| == |s.td|
    && forall t | 0 <= t < |s.td| :: s.td[t] == Data(0, 0, Outside, 0) && s.store.bags[t] == [EMPTY, EMPTY, EMPTY]
  }

  function SetPc(s: State, t: nat, pc: Pc): State
    requires t < |s.td|
  {
    s.(td := s.td[t := s.td[t].(pc := pc)])
  }

  function SetNode(s: State, ix: nat, val: nat): State
    requires ix < |s.v|
  {
    s.(v := s.v[ix := val])
  }

  /** `startOp`: the read of the root; the own leaf is written by nobody else. */
  ghost predicate StartRead(s: State, t: nat, s': State) {
    && t < |s.td| && s.td[t].pc == Outside && ROOT < |s.v| && Leaf(s, t) < |s.v|
    && var ann := s.v[Leaf(s, t)];
    && var d := s.td[t].(opNum := s.td[t].opNum + 1);
    && s' == s.(td := s.td[t := d.(pc := if s.v[ROOT] != ann - ann % 2 then Announce(s.v[ROOT]) else Started)])
  }

  ghost predicate AnnounceStep(s: State, t: nat, s': State) {
    && t < |s.td| && s.td[t].pc.Announce? && Leaf(s, t) < |s.v|
    && s' == SetPc(SetNode(s, Leaf(s, t), s.td[t].pc.e), t, Rotate)
  }

  /** `rotateEpochBags`, after the announcement. */
  ghost predicate RotateStep(s: State, t: nat, s': State) {
    && t < |s.td| && s.td[t].pc.Rotate?
    && var d := s.td[t];
    && var next := (d.index + 1) % EPOCH_BAGS;
    && Has(s.store, t, next)
    && s' == s.(td := s.td[t := d.(index := next, pc := Started)],
                store := FreeFull(s.store, t, next), rec := s.rec - Freed(s.store, t, next))
  }

  /** Read-only operations do not count; every minTime others one tries to advance. */
  ghost predicate CountStep(s: State, t: nat, s': State) {
    && t < |s.td| && s.td[t].pc.Started? && s.minTime > 0 && Leaf(s, t) < |s.v|
    && var d := s.td[t];
    && (|| s' == SetPc(s, t, Inside)
        || s' == s.(td := s.td[t := d.(time := d.time + 1,
                                       pc := if (d.time + 1) % s.minTime == 0
                                             then AtNode(Leaf(s, t), s.v[Leaf(s, t)])
                                             else Inside)]))
  }

  /** `tryAdvance` reads the sibling. */
  ghost predicate SiblingStep(s: State, t: nat, s': State) {
    && t < |s.td| && s.td[t].pc.AtNode? && ROOT < s.td[t].pc.ix && Sibling(s.td[t].pc.ix) < |s.v|
    && var ix := s.td[t].pc.ix;
    && var val := s.td[t].pc.val;
    && var w := s.v[Sibling(ix)];
    && s' == SetPc(s, t, if w != val && !Quiescent(w) then Inside
                         else if ix / 2 == ROOT then ReadRoot(ix, val) else ReadParent(ix, val))
  }

  ghost predicate ReadRootStep(s: State, t: nat, s': State) {
    && t < |s.td| && s.td[t].pc.ReadRoot? && ROOT < |s.v|
    && s' == SetPc(s, t, if s.v[ROOT] != s.td[t].pc.val then Inside else CasRoot(s.td[t].pc.ix, s.td[t].pc.val))
  }

  ghost predicate CasRootStep(s: State, t: nat, s': State) {
    && t < |s.td| && s.td[t].pc.CasRoot? && ROOT < |s.v|
    && s' == SetPc(if s.v[ROOT] == s.td[t].pc.val then SetNode(s, ROOT, s.v[ROOT] + INCREMENT) else s, t, Inside)
  }

  ghost predicate ReadParentStep(s: State, t: nat, s': State) {
    && t < |s.td| && s.td[t].pc.ReadParent? && s.td[t].pc.ix < |s.v|
    && var pc := s.td[t].pc;
    && s' == SetPc(s, t, if s.v[pc.ix / 2] >= pc.val then Inside else CasParent(pc.ix, pc.val, s.v[pc.ix / 2]))
  }

  ghost predicate CasParentStep(s: State, t: nat, s': State) {
    && t < |s.td| && s.td[t].pc.CasParent? && s.td[t].pc.ix < |s.v|
    && var pc := s.td[t].pc;
    && s' == if s.v[pc.ix / 2] == pc.parentVal then SetPc(SetNode(s, pc.ix / 2, pc.val), t, AtNode(pc.ix / 2, pc.val))
             else SetPc(s, t, Inside)
  }

  function Snapshot(s: State): Ret
    requires ROOT < |s.v|
  {
    Ret(s.v[ROOT], seq(|s.td|, u requires 0 <= u < |s.td| => Operation(s.td[u])))
  }

  /** `retire` of an object that is neither in limbo nor in the pool. */
  ghost predicate RetireStep(s: State, t: nat, p: nat, s': State) {
    && t < |s.td| && s.td[t].pc == Inside && p !in s.store.place && p !in s.store.pool
    && Has(s.store, t, s.td[t].index) && ROOT < |s.v|
    && s' == s.(store := Retire(s.store, t, s.td[t].index, s.block, p), rec := s.rec[p := Snapshot(s)])
  }

  ghost predicate Allocate(s: State, p: nat, s': State) {
    s' == s.(store := Reuse(s.store, p))
  }

  /** The body of the operation ends; `endOp` itself does nothing. */
  ghost predicate EndStep(s: State, t: nat, s': State) {
    t < |s.td| && s.td[t].pc == Inside && s' == SetPc(s, t, Outside)
  }

  /** The steps of a thread that leave the tree alone. */
  ghost predicate ReadStep(s: State, t: nat, s': State) {
    || StartRead(s, t, s') || CountStep(s, t, s') || SiblingStep(s, t, s')
    || ReadRootStep(s, t, s') || ReadParentStep(s, t, s') || EndStep(s, t, s')
  }

  ghost predicate WriteStep(s: State, t: nat, s': State) {
    AnnounceStep(s, t, s') || CasRootStep(s, t, s') || CasParentStep(s, t, s')
  }

  ghost predicate Next(s: State, s': State) {
    || (exists t: nat :: ReadStep(s, t, s'))
    || (exists t: nat :: WriteStep(s, t, s'))
    || (exists t: nat :: RotateStep(s, t, s'))
    || (exists t: nat, p: nat :: RetireStep(s, t, p, s'))
    || (exists p: nat :: Allocate(s, p, s'))
  }

  ghost predicate StepAt(run: seq<State>, i: nat) {
    i + 1 < |run| && Next(run[i], run[i + 1])
  }

  /** A run: any finite interleaving from an initial state. */
  ghost predicate Run(run: seq<State>) {
    |run| > 0 && Init(run[0]) && forall i: nat | i + 1 < |run| :: StepAt(run, i)
  }
}

/** The order of the values in the tree, and the grace period it gives. */
module EpochTreeSafety {

  import opened Limbo
  import opened PowersOfTwo
  import opened EpochTreeModel

  /* --------------------------------------------------------------- the tree */

  /** Node a is ix or above it. */
  predicate Above(a: nat, ix: nat) {
    if ix == 0 then a == 0 else a == ix || Above(a, ix / 2)
  }

  /** A child that counts is not behind its parent; the root may be one increment ahead. */
  ghost predicate EdgeOk(v: seq<nat>, ix: nat)
    requires ix < |v|
  {
    && (!Quiescent(v[ix]) ==> !Quiescent(v[ix / 2]))
    && (!Quiescent(v[ix]) ==> v[ix / 2] <= v[ix] + (if ix / 2 == ROOT then INCREMENT else 0))
  }

  ghost predicate TreeOk(s: State) {
    && |s.v| == 2 * s.width && 2 <= |s.td| <= s.width && !Quiescent(s.v[ROOT])
    && (forall ix: nat | 2 <= ix < |s.v| :: EdgeOk(s.v, ix))
    && (forall t: nat | t < |s.td| :: LeafOk(s, t))
  }

  ghost predicate LeafOk(s: State, t: nat)
    requires 0 < s.width && t < |s.td| <= s.width && |s.v| == 2 * s.width
  {
    !Quiescent(s.v[Leaf(s, t)]) && s.v[Leaf(s, t)] <= s.v[ROOT]
  }

  /** The node counts and has reached the value. */
  ghost predicate Reached(v: seq<nat>, ix: nat, val: nat) {
    2 <= ix < |v| && !Quiescent(v[ix]) && v[ix] >= val && val % 2 == 0
  }

  /** The node does not count, or has reached the value. */
  ghost predicate Agrees(v: seq<nat>, ix: nat, val: nat) {
    ix < |v| && (Quiescent(v[ix]) || v[ix] >= val)
  }

  ghost predicate PcOk(v: seq<nat>, leaf: nat, pc: Pc) {
    leaf < |v| && |v| > ROOT
    && match pc
       case Announce(e) => e % 2 == 0 && v[leaf] + INCREMENT <= e <= v[ROOT]
       case AtNode(ix, val) => Reached(v, ix, val)
       case ReadRoot(ix, val) => Reached(v, ix, val) && Agrees(v, Sibling(ix), val) && ix / 2 == ROOT
       case CasRoot(ix, val) => Reached(v, ix, val) && Agrees(v, Sibling(ix), val) && ix / 2 == ROOT
       case ReadParent(ix, val) => Reached(v, ix, val) && Agrees(v, Sibling(ix), val) && ix / 2 > ROOT
       case CasParent(ix, val, parentVal) =>
         Reached(v, ix, val) && Agrees(v, Sibling(ix), val) && ix / 2 > ROOT && parentVal < val
       case _ => true
  }

  ghost predicate DataOk(s: State, t: nat)
    requires t < |s.td|
  {
    && PcOk(s.v, Leaf(s, t), s.td[t].pc)
    && s.td[t].index < EPOCH_BAGS && (!s.td[t].pc.Outside? ==> s.td[t].opNum > 0)
    && |s.store.bags| == |s.td| && |s.store.bags[t]| == EPOCH_BAGS
  }

  /* -------------------------------------------------------------- the limbo */

  /** An object retired at the given epoch may be in a bag of that age. */
  ghost predicate OldEnough(d: Data, leaf: nat, bag: nat, epoch: nat) {
    && d.index < EPOCH_BAGS && bag < EPOCH_BAGS
    && var a := Age(d.index, bag);
    && match d.pc
       case Announce(e) => e >= epoch + INCREMENT * a
       case Rotate => leaf >= epoch + INCREMENT * a
       case _ => a >= 1 ==> leaf >= epoch + INCREMENT * (a - 1)
  }

  ghost predicate SameOperation(s: State, u: nat, n: nat) {
    u < |s.td| && n > 0 && Operation(s.td[u]) == n
  }

  /** A thread has announced nothing later than the retirement in its present operation,
      if that was running then and its announcement, if any, was made by then. */
  ghost predicate StillBehind(s: State, r: Ret, u: nat)
    requires u < |s.td| == |r.running| <= s.width && |s.v| == 2 * s.width
  {
    && r.running[u] <= s.td[u].opNum
    && (SameOperation(s, u, r.running[u]) ==>
          s.v[Leaf(s, u)] <= r.epoch && (s.td[u].pc.Announce? ==> s.td[u].pc.e <= r.epoch))
  }

  ghost predicate RetOk(s: State, r: Ret, w: Place) {
    && |s.v| == 2 * s.width && 0 < |s.td| <= s.width
    && r.epoch <= s.v[ROOT] && r.epoch % 2 == 0 && |r.running| == |s.td|
    && (forall u: nat | u < |s.td| :: StillBehind(s, r, u))
    && w.tid < |s.td| && OldEnough(s.td[w.tid], s.v[Leaf(s, w.tid)], w.bag, r.epoch)
  }

  ghost predicate Inv(s: State) {
    && TreeOk(s) && s.rec.Keys == s.store.place.Keys && StoreOk(s.store)
    && (forall t: nat | t < |s.td| :: DataOk(s, t))
    && (forall p | p in s.rec :: RetOk(s, s.rec[p], s.store.place[p]))
  }

  /* ------------------------------------------------------------------ steps */

  /** Values only grow, and whether a node counts never changes. */
  ghost predicate Rises(v: seq<nat>, v': seq<nat>) {
    |v'| == |v| && forall ix: nat | ix < |v| :: v[ix] <= v'[ix] && (Quiescent(v[ix]) <==> Quiescent(v'[ix]))
  }

  /** Operation numbers grow; inside an operation the leaf is fixed, except that a pending
      announcement may be made. */
  ghost predicate Moved(s: State, s': State, u: nat)
    requires u < |s.td| == |s'.td| <= s.width == s'.width && |s.v| == |s'.v| == 2 * s.width
  {
    var d, d' := s.td[u], s'.td[u];
    && d.opNum <= d'.opNum
    && (!d'.pc.Outside? ==>
          if d.pc.Outside? then d'.opNum == d.opNum + 1
          else
            && d'.opNum == d.opNum
            && (s'.v[Leaf(s', u)] == s.v[Leaf(s, u)] || (d.pc.Announce? && s'.v[Leaf(s', u)] == d.pc.e))
            && (d'.pc.Announce? ==> d'.pc == d.pc))
  }

  ghost predicate Moves(s: State, s': State) {
    && |s'.td| == |s.td| <= s.width == s'.width && |s.v| == 2 * s.width
    && Rises(s.v, s'.v)
    && forall u: nat | u < |s.td| :: Moved(s, s', u)
  }

  lemma PcStay(v: seq<nat>, v': seq<nat>, leaf: nat, pc: Pc)
    requires PcOk(v, leaf, pc) && Rises(v, v') && v'[leaf] == v[leaf]
    ensures PcOk(v', leaf, pc)
  {
  }

  lemma RetStay(s: State, s': State, r: Ret, w: Place)
    requires RetOk(s, r, w) && Moves(s, s')
    requires OldEnough(s'.td[w.tid], s'.v[Leaf(s', w.tid)], w.bag, r.epoch)
    ensures RetOk(s', r, w)
  {
    forall u: nat | u < |s'.td| ensures StillBehind(s', r, u) {
      assert StillBehind(s, r, u) && Moved(s, s', u);
      assert SameOperation(s', u, r.running[u]) ==> SameOperation(s, u, r.running[u]);
    }
  }

  /** The steps of a thread that leave the tree alone. */
  lemma ReadTree(s: State, t: nat, s': State)
    requires Inv(s) && ReadStep(s, t, s')
    ensures s' == s.(td := s'.td) && t < |s.td| && s'.td == s.td[t := s'.td[t]] && TreeOk(s')
  {
    hide RetOk, StoreOk;
    assert DataOk(s, t);
    forall u: nat | u < |s'.td| ensures LeafOk(s', u) {
      assert LeafOk(s, u);
    }
    forall ix: nat | 2 <= ix < |s'.v| ensures EdgeOk(s'.v, ix) {
      assert EdgeOk(s.v, ix);
    }
  }

  lemma ReadOk(s: State, t: nat, s': State)
    requires Inv(s) && ReadStep(s, t, s')
    ensures Moves(s, s') && TreeOk(s') && s'.v == s.v && s'.width == s.width
    ensures s'.store == s.store && s'.rec == s.rec && t < |s.td| && s'.td == s.td[t := s'.td[t]]
    ensures DataOk(s', t)
  {
    hide RetOk, StoreOk;
    ReadTree(s, t, s');
    assert DataOk(s, t);
    assert LeafOk(s, t);
    hide EdgeOk;
    forall u: nat | u < |s'.td| ensures Moved(s, s', u) {
    }
  }

  lemma ReadAges(s: State, t: nat, s': State, bag: nat, epoch: nat)
    requires t < |s.td| && t < |s'.td| && Leaf(s, t) < |s.v| && Leaf(s', t) < |s'.v| && ROOT < |s.v|
    requires Inv(s) && ReadStep(s, t, s') && epoch <= s.v[ROOT] && epoch % 2 == 0
    requires OldEnough(s.td[t], s.v[Leaf(s, t)], bag, epoch)
    ensures OldEnough(s'.td[t], s'.v[Leaf(s', t)], bag, epoch)
  {
    hide RetOk, StoreOk, EdgeOk;
    assert DataOk(s, t);
    assert LeafOk(s, t);
  }

  lemma ReadStepOk(s: State, t: nat, s': State)
    requires Inv(s) && ReadStep(s, t, s')
    ensures Inv(s')
  {
    hide StoreOk, TreeOk, Moves, ReadStep, OldEnough, StillBehind;
    ReadOk(s, t, s');
    forall u: nat | u < |s'.td| ensures DataOk(s', u) {
      assert DataOk(s, u);
    }
    forall p | p in s'.rec ensures RetOk(s', s'.rec[p], s'.store.place[p]) {
      var r, w := s.rec[p], s.store.place[p];
      assert RetOk(s, r, w);
      if w.tid == t {
        ReadAges(s, t, s', w.bag, r.epoch);
      }
      RetStay(s, s', r, w);
    }
  }

  /** A write at node ix that keeps the tree in order. */
  lemma WriteTree(s: State, s': State, ix: nat, val: nat)
    requires TreeOk(s) && 1 <= ix < |s.v| && s'.v == s.v[ix := val] && s'.width == s.width && |s'.td| == |s.td|
    requires s.v[ix] <= val && !Quiescent(s.v[ix]) && !Quiescent(val)
    requires val >= INCREMENT && (s.width <= ix ==> val <= s.v[ROOT])
    requires ix < s.width ==> Agrees(s.v, 2 * ix, if ix == ROOT then val - INCREMENT else val)
    requires ix < s.width ==> Agrees(s.v, 2 * ix + 1, if ix == ROOT then val - INCREMENT else val)
    ensures TreeOk(s') && Rises(s.v, s'.v)
  {
    forall j: nat | 2 <= j < |s'.v| ensures EdgeOk(s'.v, j) {
      assert EdgeOk(s.v, j);
      assert j / 2 == ix ==> j == 2 * ix || j == 2 * ix + 1;
    }
    forall u: nat | u < |s'.td| ensures LeafOk(s', u) {
      assert LeafOk(s, u);
    }
  }

  lemma AnnounceOk(s: State, t: nat, s': State)
    requires Inv(s) && AnnounceStep(s, t, s')
    ensures Moves(s, s') && TreeOk(s') && DataOk(s', t)
  {
    hide RetOk, StoreOk;
    assert DataOk(s, t) && LeafOk(s, t);
    WriteTree(s, s', Leaf(s, t), s.td[t].pc.e);
    forall u: nat | u < |s'.td| ensures Moved(s, s', u) {
    }
  }

  lemma ParentCounts(v: seq<nat>, ix: nat, val: nat)
    requires Reached(v, ix, val)
    requires EdgeOk(v, ix)
    ensures ix / 2 < |v| && !Quiescent(v[ix / 2])
    ensures {ix, Sibling(ix)} == {2 * (ix / 2), 2 * (ix / 2) + 1}
  {
  }

  lemma CasRootOk(s: State, t: nat, s': State)
    requires Inv(s) && CasRootStep(s, t, s')
    ensures Moves(s, s') && TreeOk(s') && DataOk(s', t)
  {
    hide RetOk, StoreOk;
    var pc := s.td[t].pc;
    assert DataOk(s, t) && LeafOk(s, t);
    assert EdgeOk(s.v, pc.ix);
    ParentCounts(s.v, pc.ix, pc.val);
    if s.v[ROOT] == pc.val {
      WriteTree(s, s', ROOT, pc.val + INCREMENT);
    } else {
      SameTree(s, s');
    }
    InnerNode(s, pc.ix);
    forall u: nat | u < |s'.td| ensures Moved(s, s', u) {
    }
  }

  lemma CasParentOk(s: State, t: nat, s': State)
    requires Inv(s) && CasParentStep(s, t, s')
    ensures Moves(s, s') && TreeOk(s') && DataOk(s', t)
  {
    hide RetOk, StoreOk, EdgeOk;
    var pc := s.td[t].pc;
    assert DataOk(s, t) && LeafOk(s, t);
    assert EdgeOk(s.v, pc.ix);
    ParentCounts(s.v, pc.ix, pc.val);
    InnerNode(s, pc.ix);
    if s.v[pc.ix / 2] == pc.parentVal {
      WriteTree(s, s', pc.ix / 2, pc.val);
    } else {
      SameTree(s, s');
    }
    forall u: nat | u < |s'.td| ensures Moved(s, s', u) {
    }
  }

  lemma SameTree(s: State, s': State)
    requires TreeOk(s) && s'.v == s.v && s'.width == s.width && |s'.td| == |s.td|
    ensures TreeOk(s') && Rises(s.v, s'.v)
  {
    forall j: nat | 2 <= j < |s'.v| ensures EdgeOk(s'.v, j) {
      assert EdgeOk(s.v, j);
    }
    forall u: nat | u < |s'.td| ensures LeafOk(s', u) {
      assert LeafOk(s, u);
    }
  }

  lemma InnerNode(s: State, ix: nat)
    requires TreeOk(s) && ix < |s.v|
    ensures ix / 2 < s.width && forall u: nat | u < |s.td| :: Leaf(s, u) != ix / 2
  {
  }

  lemma WriteKeeps(s: State, t: nat, s': State)
    requires Inv(s) && WriteStep(s, t, s')
    ensures Moves(s, s') && TreeOk(s') && DataOk(s', t)
    ensures s'.store == s.store && s'.rec == s.rec && t < |s.td| && s'.td == s.td[t := s'.td[t]] && s'.width == s.width
    ensures forall u: nat | u < |s.td| && u != t :: s'.v[Leaf(s', u)] == s.v[Leaf(s, u)]
  {
    hide StoreOk, RetOk, EdgeOk;
    if AnnounceStep(s, t, s') {
      AnnounceOk(s, t, s');
    } else {
      if CasRootStep(s, t, s') { CasRootOk(s, t, s'); } else { CasParentOk(s, t, s'); }
      assert DataOk(s, t);
      InnerNode(s, s.td[t].pc.ix);
    }
  }

  lemma WriteAges(s: State, t: nat, s': State, bag: nat, epoch: nat)
    requires Inv(s) && WriteStep(s, t, s') && OldEnough(s.td[t], s.v[Leaf(s, t)], bag, epoch)
    ensures OldEnough(s'.td[t], s'.v[Leaf(s', t)], bag, epoch)
  {
    hide RetOk, StoreOk, EdgeOk;
    if !AnnounceStep(s, t, s') {
      assert DataOk(s, t);
      InnerNode(s, s.td[t].pc.ix);
    }
  }

  lemma WriteStepOk(s: State, t: nat, s': State)
    requires Inv(s) && WriteStep(s, t, s')
    ensures Inv(s')
  {
    hide StoreOk, TreeOk, Moves, WriteStep, OldEnough, StillBehind, PcOk;
    WriteKeeps(s, t, s');
    forall u: nat | u < |s'.td| ensures DataOk(s', u) {
      assert DataOk(s, u);
      if u != t {
        Risen(s, s');
        PcStay(s.v, s'.v, Leaf(s, u), s.td[u].pc);
      }
    }
    forall p | p in s'.rec ensures RetOk(s', s'.rec[p], s'.store.place[p]) {
      var r, w := s.rec[p], s.store.place[p];
      assert RetOk(s, r, w);
      if w.tid == t {
        WriteAges(s, t, s', w.bag, r.epoch);
      }
      RetStay(s, s', r, w);
    }
  }

  lemma Risen(s: State, s': State)
    requires Moves(s, s')
    ensures Rises(s.v, s'.v)
  {
  }

  /** An object in the bag that is about to be freed was retired two epochs ago or earlier,
      so every thread has announced since, in a new operation. */
  lemma OldestIsSafe(s: State, t: nat, p: nat, u: nat)
    requires Inv(s) && t < |s.td| && s.td[t].pc.Rotate? && u < |s.td|
    requires p in s.rec && s.store.place[p] == Place(t, (s.td[t].index + 1) % EPOCH_BAGS)
    ensures |s.rec[p].running| == |s.td| && !SameOperation(s, u, s.rec[p].running[u])
  {
    hide StoreOk, EdgeOk;
    assert DataOk(s, t) && LeafOk(s, t);
    assert RetOk(s, s.rec[p], s.store.place[p]);
    assert Age(s.td[t].index, (s.td[t].index + 1) % EPOCH_BAGS) == 2;
    assert StillBehind(s, s.rec[p], u);
    RootBound(s, u);
  }

  /** Every node above a real leaf counts and, below the root, is not ahead of it. */
  lemma {:induction false} NodeBound(s: State, a: nat, ix: nat)
    requires TreeOk(s) && 1 <= ix < |s.v| && !Quiescent(s.v[ix]) && a >= 1 && Above(a, ix)
    ensures a < |s.v| && !Quiescent(s.v[a])
    ensures a > ROOT ==> s.v[a] <= s.v[ix]
    ensures a == ROOT && ix > ROOT ==> s.v[a] <= s.v[ix] + INCREMENT
    decreases ix
  {
    if a != ix {
      assert EdgeOk(s.v, ix);
      OnlyRootAboveRoot(a);
      NodeBound(s, a, ix / 2);
    }
  }

  lemma OnlyRootAboveRoot(a: nat)
    ensures a >= 1 && Above(a, ROOT) ==> a == ROOT
  {
    assert Above(a, ROOT) <==> a == ROOT || Above(a, 0);
  }

  lemma {:induction false} RootAbove(ix: nat)
    requires ix >= 1
    ensures Above(ROOT, ix)
    decreases ix
  {
    if ix > 1 {
      RootAbove(ix / 2);
    }
  }

  lemma RootBound(s: State, u: nat)
    requires TreeOk(s) && u < |s.td|
    ensures s.v[ROOT] <= s.v[Leaf(s, u)] + INCREMENT
  {
    assert LeafOk(s, u);
    RootAbove(Leaf(s, u));
    NodeBound(s, ROOT, Leaf(s, u));
  }

  lemma RotateKeeps(s: State, t: nat, s': State)
    requires Inv(s) && RotateStep(s, t, s')
    ensures Moves(s, s') && TreeOk(s') && StoreOk(s'.store) && s'.rec.Keys == s'.store.place.Keys
    ensures forall u: nat | u < |s'.td| :: DataOk(s', u)
    ensures forall p | p in s'.rec :: p in s.rec && s'.rec[p] == s.rec[p] && s'.store.place[p] == s.store.place[p]
    ensures forall p | p in s.rec && p !in s'.rec :: s.store.place[p] == Place(t, (s.td[t].index + 1) % EPOCH_BAGS)
  {
    hide StoreOk, RetOk;
    FreeFullOk(s.store, t, (s.td[t].index + 1) % EPOCH_BAGS);
    forall u: nat | u < |s'.td| ensures DataOk(s', u) && Moved(s, s', u) && LeafOk(s', u) {
      assert DataOk(s, u) && LeafOk(s, u);
    }
    forall ix: nat | 2 <= ix < |s'.v| ensures EdgeOk(s'.v, ix) {
      assert EdgeOk(s.v, ix);
    }
  }

  lemma RotatedRet(s: State, t: nat, s': State, r: Ret, w: Place)
    requires RotateStep(s, t, s') && Moves(s, s') && RetOk(s, r, w)
    ensures RetOk(s', r, w)
  {
    hide Moves, StillBehind;
    assert OldEnough(s'.td[w.tid], s'.v[Leaf(s', w.tid)], w.bag, r.epoch);
    hide OldEnough;
    RetStay(s, s', r, w);
  }

  lemma RotateOk(s: State, t: nat, s': State)
    requires Inv(s) && RotateStep(s, t, s')
    ensures Inv(s')
  {
    hide StoreOk, DataOk, RetOk, Moves, TreeOk;
    RotateKeeps(s, t, s');
    forall p | p in s'.rec ensures RetOk(s', s'.rec[p], s'.store.place[p]) {
      RotatedRet(s, t, s', s.rec[p], s.store.place[p]);
    }
  }

  /** A step that touches neither the tree nor a thread. */
  lemma SameThreads(s: State, s': State)
    requires Inv(s) && s'.v == s.v && s'.td == s.td && s'.width == s.width
    requires |s'.store.bags| == |s.store.bags|
    requires forall t: nat | t < |s.store.bags| :: |s'.store.bags[t]| == |s.store.bags[t]|
    ensures TreeOk(s') && Moves(s, s')
    ensures forall u: nat | u < |s'.td| :: DataOk(s', u)
    ensures forall r, w | RetOk(s, r, w) :: RetOk(s', r, w)
  {
    hide StoreOk;
    forall u: nat | u < |s'.td| ensures DataOk(s', u) && LeafOk(s', u) {
      assert DataOk(s, u) && LeafOk(s, u);
    }
    forall ix: nat | 2 <= ix < |s'.v| ensures EdgeOk(s'.v, ix) {
      assert EdgeOk(s.v, ix);
    }
    assert Moves(s, s');
    forall r, w | RetOk(s, r, w) ensures RetOk(s', r, w) {
      RetStay(s, s', r, w);
    }
  }

  lemma SnapshotOk(s: State, w: Place)
    requires TreeOk(s) && (forall u: nat | u < |s.td| :: DataOk(s, u))
    requires w.tid < |s.td| && OldEnough(s.td[w.tid], s.v[Leaf(s, w.tid)], w.bag, s.v[ROOT])
    ensures RetOk(s, Snapshot(s), w)
  {
    var r := Snapshot(s);
    forall u: nat | u < |s.td| ensures StillBehind(s, r, u) {
      assert DataOk(s, u) && LeafOk(s, u);
    }
  }

  lemma RetireStepOk(s: State, t: nat, p: nat, s': State)
    requires Inv(s) && RetireStep(s, t, p, s')
    ensures Inv(s')
  {
    hide StoreOk, RetOk, TreeOk;
    assert DataOk(s, t);
    RetireOk(s.store, t, s.td[t].index, s.block, p);
    SameThreads(s, s');
    SnapshotOk(s, Place(t, s.td[t].index));
    forall q | q in s'.rec ensures RetOk(s', s'.rec[q], s'.store.place[q]) {
      assert q != p ==> RetOk(s, s.rec[q], s.store.place[q]);
    }
  }

  lemma AllocateOk(s: State, p: nat, s': State)
    requires Inv(s) && Allocate(s, p, s')
    ensures Inv(s')
  {
    hide StoreOk, RetOk, TreeOk;
    ReuseOk(s.store, p);
    SameThreads(s, s');
    forall q | q in s'.rec ensures RetOk(s', s'.rec[q], s'.store.place[q]) {
      assert RetOk(s, s.rec[q], s.store.place[q]);
    }
  }

  /* ------------------------------------------------------------------ runs */

  lemma InitOk(s: State)
    requires Init(s)
    ensures Inv(s)
  {
    var n, w := |s.td|, s.width;
    hide RoundUpPow2, Pow2;
    var k := RoundUpIsNextPow2(n);
    var v: seq<nat> :| Settled(v, n, w) && |v| > ROOT && s.v == v[ROOT := INCREMENT];
    forall ix: nat | 2 <= ix < |s.v| ensures EdgeOk(s.v, ix) {
      SettledSmall(v, n, w, ix);
      SettledSmall(v, n, w, ix / 2);
      SettledEdge(v, n, w, ix);
    }
    forall t: nat | t < |s.td| ensures LeafOk(s, t) && DataOk(s, t) {
    }
  }

  lemma SettledSmall(v: seq<nat>, n: nat, width: nat, ix: nat)
    requires Settled(v, n, width) && 1 <= ix < |v|
    ensures v[ix] <= 1
  {
    if ix < width {
      assert FollowsChildren(v, ix);
    }
  }

  lemma SettledEdge(v: seq<nat>, n: nat, width: nat, ix: nat)
    requires Settled(v, n, width) && 2 <= ix < |v|
    ensures v[ix] == 0 ==> v[ix / 2] == 0
  {
    var p := ix / 2;
    assert FollowsChildren(v, p);
  }

  lemma NextOk(s: State, s': State)
    requires Inv(s) && Next(s, s')
    ensures Inv(s')
  {
    hide Inv, ReadStep, WriteStep, RotateStep, RetireStep, Allocate;
    if t: nat :| ReadStep(s, t, s') {
      ReadStepOk(s, t, s');
    } else if t: nat :| WriteStep(s, t, s') {
      WriteStepOk(s, t, s');
    } else if t: nat :| RotateStep(s, t, s') {
      RotateOk(s, t, s');
    } else if t: nat, p: nat :| RetireStep(s, t, p, s') {
      RetireStepOk(s, t, p, s');
    } else {
      var p: nat :| Allocate(s, p, s');
      AllocateOk(s, p, s');
    }
  }

  lemma {:induction false} RunOk(run: seq<State>, i: nat)
    requires Run(run) && i < |run|
    ensures Inv(run[i])
  {
    hide Inv, Next, Init;
    if i == 0 {
      InitOk(run[0]);
    } else {
      RunOk(run, i - 1);
      assert StepAt(run, i - 1);
      NextOk(run[i - 1], run[i]);
    }
  }

  /* --------------------------------------------------------------- theorems */

  /** At every time, every node strictly between the root and the leaf of a thread counts
      and is at most the leaf, and the root is at most one increment above the leaf. */
  lemma TreeIsBehindLeaves(run: seq<State>, i: nat, u: nat, a: nat)
    requires Run(run) && i < |run| && u < |run[i].td| && 1 <= a && Above(a, Leaf(run[i], u))
    ensures a < |run[i].v| && Leaf(run[i], u) < |run[i].v| && !Quiescent(run[i].v[a])
    ensures run[i].v[a] <= run[i].v[Leaf(run[i], u)] + (if a == ROOT then INCREMENT else 0)
    ensures run[i].v[Leaf(run[i], u)] <= run[i].v[ROOT]
  {
    RunOk(run, i);
    var s := run[i];
    assert LeafOk(s, u);
    NodeBound(s, a, Leaf(s, u));
  }

  /** Thread u is in the same operation, from its `startOp` on, in both states. */
  ghost predicate StillIn(run: seq<State>, i: nat, j: nat, u: nat) {
    && i < |run| && j < |run| && u < |run[i].td| && u < |run[j].td|
    && !run[i].td[u].pc.Outside? && !run[j].td[u].pc.Outside? && run[i].td[u].opNum == run[j].td[u].opNum
  }

  lemma QuietMoves(s: State, s': State)
    requires TreeOk(s) && s'.v == s.v && s'.td == s.td && s'.width == s.width
    ensures Moves(s, s')
  {
  }

  lemma StepMoves(s: State, s': State)
    requires Inv(s) && Next(s, s')
    ensures Moves(s, s')
  {
    hide Inv, ReadStep, WriteStep, RotateStep, Moves, TreeOk;
    if t: nat :| ReadStep(s, t, s') {
      ReadOk(s, t, s');
    } else if t: nat :| WriteStep(s, t, s') {
      WriteKeeps(s, t, s');
    } else if t: nat :| RotateStep(s, t, s') {
      RotateKeeps(s, t, s');
    } else {
      KeysAgree(s);
      QuietMoves(s, s');
    }
  }

  lemma KeysAgree(s: State)
    requires Inv(s)
    ensures s.rec.Keys == s.store.place.Keys && TreeOk(s)
  {
  }

  lemma {:induction false} RunMoves(run: seq<State>, i: nat, j: nat, u: nat)
    requires Run(run) && i <= j < |run| && u < |run[i].td|
    ensures |run[j].td| == |run[i].td| && run[i].td[u].opNum <= run[j].td[u].opNum
    ensures i < j && StillIn(run, i, j, u) ==> StillIn(run, i, j - 1, u)
    decreases j - i
  {
    hide Inv, Next, Init;
    if i < j {
      RunMoves(run, i, j - 1, u);
      RunOk(run, j - 1);
      assert StepAt(run, j - 1);
      StepMoves(run[j - 1], run[j]);
      assert Moved(run[j - 1], run[j], u);
    }
  }

  lemma StepHolds(s: State, s': State, p: nat, u: nat)
    requires Inv(s) && Next(s, s') && p in s.rec && u < |s.td| == |s.rec[p].running|
    requires SameOperation(s, u, s.rec[p].running[u])
    ensures p in s'.rec && s'.rec[p] == s.rec[p]
  {
    hide Inv, ReadStep, WriteStep, SameOperation;
    KeysAgree(s);
    if t: nat :| ReadStep(s, t, s') {
      ReadOk(s, t, s');
    } else if t: nat :| WriteStep(s, t, s') {
      WriteKeeps(s, t, s');
    } else if t: nat :| RotateStep(s, t, s') {
      RotateKeeps(s, t, s');
      if p !in s'.rec {
        OldestIsSafe(s, t, p, u);
      }
    }
  }

  lemma KnowsData(run: seq<State>, i: nat, u: nat)
    requires Run(run) && i < |run| && u < |run[i].td|
    ensures DataOk(run[i], u)
  {
    RunOk(run, i);
  }

  /** While a thread is still in the operation it was in at the retirement, the object
      stays in limbo, under the record made at its retirement. */
  lemma {:induction false} HeldBack(run: seq<State>, i: nat, j: nat, t: nat, p: nat, u: nat)
    requires Run(run) && i < j < |run| && RetireStep(run[i], t, p, run[i + 1]) && StillIn(run, i, j, u)
    ensures p in run[j].rec && run[j].rec[p] == Snapshot(run[i]) && p !in run[j].store.pool
    decreases j - i
  {
    hide Inv, Next, Init, PcOk;
    RunMoves(run, i, j, u);
    if j > i + 1 {
      HeldBack(run, i, j - 1, t, p, u);
      RunMoves(run, i, j - 1, u);
      RunOk(run, j - 1);
      assert StepAt(run, j - 1);
      KnowsData(run, i, u);
      StepHolds(run[j - 1], run[j], p, u);
    }
    RunOk(run, j);
    InLimbo(run[j], p);
  }

  lemma InLimbo(s: State, p: nat)
    requires Inv(s) && p in s.rec
    ensures p !in s.store.pool
  {
    assert Placed(s.store, p);
  }

  /** An object leaves limbo only after each thread active at its retirement has begun a
      new operation. */
  lemma GracePeriod(run: seq<State>, i: nat, j: nat, t: nat, p: nat, u: nat)
    requires Run(run) && i < j < |run| && RetireStep(run[i], t, p, run[i + 1]) && p in run[j].store.pool
    ensures !StillIn(run, i, j, u)
  {
    if StillIn(run, i, j, u) {
      HeldBack(run, i, j, t, p, u);
    }
  }
}
