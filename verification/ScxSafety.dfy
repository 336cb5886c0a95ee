/** Invariants of the LLX/SCX protocol and what they give over whole runs. */
module ScxSafety {

  import opened ScxModel
  import opened WordCopies

  /* ------------------------------------------------------------- invariant */

  ghost predicate Decided(s: Shared, h: Handle) {
    h in s.ops && s.ops[h].verdict != InProgress
  }

  ghost predicate Finalizes(b: Body, r: nat) {
    exists i: nat :: i < Num(b) && NodeAt(b, i) == r && FinalizeAt(b, i)
  }

  /** Node r was finalised by the committed SCX h. */
  ghost predicate Sealed(s: Shared, h: Handle, r: nat) {
    h in s.ops && s.ops[h].verdict == Committed && Finalizes(s.ops[h].body, r)
  }

  /** h was once installed in the node, or is its initial handle. */
  ghost predicate Was(s: Shared, h: Handle, r: nat) {
    r < |s.hist| && h in s.hist[r]
  }

  ghost predicate Carries(s: Shared, h: Handle, r: nat) {
    r < |s.ptr| && s.ptr[r] == h
  }

  /** The SCX can never freeze its i-th node. */
  ghost predicate Blocked(s: Shared, h: Handle, b: Body, i: nat) {
    i < Num(b) && !Was(s, h, NodeAt(b, i)) && !Carries(s, SeenAt(b, i), NodeAt(b, i))
  }

  ghost predicate Dead(s: Shared, h: Handle, b: Body) {
    exists i: nat :: Blocked(s, h, b, i)
  }

  ghost predicate FrozenUpTo(s: Shared, h: Handle, b: Body, n: nat) {
    forall i: nat {:trigger NodeAt(b, i)} | i < n && i < Num(b) :: Was(s, h, NodeAt(b, i))
  }

  ghost predicate MarkedUpTo(s: Shared, b: Body, n: nat) {
    forall i: nat {:trigger NodeAt(b, i)} | i < n && i < Num(b) && FinalizeAt(b, i) ::
      NodeAt(b, i) < |s.marked| && s.marked[NodeAt(b, i)]
  }

  ghost predicate Matches(s: Shared, r: nat, vals: map<nat, Value>) {
    r < |s.mem| && forall k: nat | k in vals :: k < |s.mem[r]| && s.mem[r][k] == vals[k]
  }

  /** The value has never been in the field. */
  ghost predicate Fresh(s: Shared, r: nat, k: nat, v: Value) {
    && r < |s.mem| && r < |s.past| && k < |s.mem[r]| && k < |s.past[r]|
    && v !in s.past[r][k] && v != s.mem[r][k]
  }

  ghost predicate Shape(s: Shared) {
    && |s.ptr| == |s.hist| == |s.marked| == |s.mem| == |s.past|
    && (forall r: nat | r < |s.mem| :: |s.past[r]| == |s.mem[r]|)
    && InitHandle in s.ops && s.ops[InitHandle] == InitOp
    && (forall u: nat | u < |s.desc| && s.desc[u].mut.sn % 2 == 0 ::
          s.desc[u].mut == Mutables(s.desc[u].mut.sn, false, InProgress))
  }

  /** h replaced g in node r because it had seen g there. */
  ghost predicate Follows(s: Shared, h: Handle, r: nat, g: Handle) {
    h.Tag? && h in s.ops
    && exists i: nat :: i < Num(s.ops[h].body) && NodeAt(s.ops[h].body, i) == r && SeenAt(s.ops[h].body, i) == g
  }

  ghost predicate Distinct(hs: seq<Handle>) {
    forall j, k | 0 <= j < k < |hs| :: hs[j] != hs[k]
  }

  ghost predicate NodeOk(s: Shared, r: nat)
    requires r < |s.hist| && r < |s.ptr|
  {
    var hs := s.hist[r];
    && |hs| > 0 && hs[|hs| - 1] == s.ptr[r] && hs[0] == InitHandle
    && (forall k | 0 <= k < |hs| :: hs[k] in s.ops)
    && (forall k | 0 <= k < |hs| - 1 :: Decided(s, hs[k]) && !Sealed(s, hs[k], r))
    && Distinct(hs)
    && (forall k | 1 <= k < |hs| :: Follows(s, hs[k], r, hs[k - 1]))
  }

  ghost predicate FieldOk(s: Shared, r: nat)
    requires r < |s.mem| && r < |s.past| && |s.past[r]| == |s.mem[r]|
  {
    forall k: nat | k < |s.mem[r]| :: s.mem[r][k] !in s.past[r][k]
  }

  /** The part of an SCX that never changes. */
  ghost predicate DepOk(s: Shared, h: Handle, b: Body, i: nat) {
    && NodeAt(b, i) < |s.ptr| && Was(s, SeenAt(b, i), NodeAt(b, i))
    && Decided(s, SeenAt(b, i)) && !Sealed(s, SeenAt(b, i), NodeAt(b, i)) && SeenAt(b, i) != h
  }

  ghost predicate BodyOk(s: Shared, h: Handle, b: Body, snaps: seq<map<nat, Value>>, fi: nat) {
    && fi < Num(b) && |snaps| == Num(b) && FieldNode(b) == NodeAt(b, fi)
    && FieldOff(b) in snaps[fi] && snaps[fi][FieldOff(b)] == OldVal(b)
    && FieldNode(b) < |s.mem| && FieldOff(b) < |s.mem[FieldNode(b)]|
    && (forall i: nat | i < Num(b) :: DepOk(s, h, b, i))
    && (forall i: nat, j: nat {:trigger NodeAt(b, i), NodeAt(b, j)}
          | i < Num(b) && j < Num(b) && NodeAt(b, i) == NodeAt(b, j) ::
          SeenAt(b, i) == SeenAt(b, j))
  }

  /** The descriptor still describes this SCX, or the SCX is over. */
  ghost predicate TagOk(s: Shared, h: Handle)
    requires h in s.ops
  {
    && h.Tag? && h.tid < |s.desc| && h.sn % 2 == 1 && h.sn <= s.desc[h.tid].mut.sn
    && (h.sn < s.desc[h.tid].mut.sn ==> Decided(s, h))
    && (h.sn == s.desc[h.tid].mut.sn ==>
          && s.desc[h.tid].body == s.ops[h].body
          && s.desc[h.tid].mut == Mutables(h.sn, s.ops[h].allFrozen, s.ops[h].verdict))
  }

  ghost predicate FateOk(s: Shared, h: Handle)
    requires h in s.ops
  {
    var o := s.ops[h];
    && (o.verdict == Committed ==> o.updated)
    && (o.updated ==> o.allFrozen && MarkedUpTo(s, o.body, Num(o.body)))
    && (o.allFrozen ==> FrozenUpTo(s, h, o.body, Num(o.body)))
    && (o.verdict == Aborted ==> Dead(s, h, o.body))
    && (forall r: nat | Was(s, h, r) :: Was(s, h, NodeAt(o.body, 0)))
  }

  /** Until its update, an SCX finds its nodes as its LLXs saw them. */
  ghost predicate SnapOk(s: Shared, h: Handle, b: Body, snaps: seq<map<nat, Value>>, i: nat) {
    && i < |snaps|
    && (Carries(s, h, NodeAt(b, i)) || Carries(s, SeenAt(b, i), NodeAt(b, i)) ==> Matches(s, NodeAt(b, i), snaps[i]))
  }

  ghost predicate BeforeUpdate(s: Shared, h: Handle, b: Body, snaps: seq<map<nat, Value>>, fi: nat) {
    && (forall i: nat | i < Num(b) :: SnapOk(s, h, b, snaps, i))
    && (Carries(s, h, FieldNode(b)) || Carries(s, SeenAt(b, fi), FieldNode(b)) ==>
          Fresh(s, FieldNode(b), FieldOff(b), NewVal(b)))
  }

  ghost predicate AfterUpdate(s: Shared, b: Body) {
    && FieldNode(b) < |s.past| && FieldOff(b) < |s.past[FieldNode(b)]|
    && OldVal(b) in s.past[FieldNode(b)][FieldOff(b)]
  }

  ghost predicate OpOk(s: Shared, h: Handle)
    requires h in s.ops
  {
    var o := s.ops[h];
    && BodyOk(s, h, o.body, o.snaps, o.fi) && TagOk(s, h) && FateOk(s, h)
    && (if o.updated then AfterUpdate(s, o.body) else BeforeUpdate(s, h, o.body, o.snaps, o.fi))
  }

  ghost predicate Glob(s: Shared) {
    && Shape(s)
    && (forall r: nat | r < |s.ptr| :: NodeOk(s, r) && FieldOk(s, r))
    && (forall h | h in s.ops && h.Tag? :: OpOk(s, h))
  }

  /* ------------------------------------------------- what a thread knows */

  ghost predicate HeldOk(s: Shared, r: nat, e: Held) {
    && r < |s.ptr| && Was(s, e.h, r) && Decided(s, e.h) && !Sealed(s, e.h, r)
    && (Carries(s, e.h, r) ==> Matches(s, r, e.vals))
  }

  ghost predicate HelpOk(s: Shared, t: nat, a: Help) {
    && a.tag in s.ops && a.tag.Tag? && a.snap == s.ops[a.tag].body && a.msn == a.tag.sn
    && (if a.own then a.tag.tid == t && t < |s.desc| && a.tag.sn == s.desc[t].mut.sn
        else Was(s, a.tag, NodeAt(a.snap, 0)))
  }

  ghost predicate Owning(pc: Pc) {
    match pc
    case Freeze(a, _) => a.own
    case Reread(a, _, _) => a.own
    case ReadFrozen(a, _) => a.own
    case AbortRead(a) => a.own
    case AbortCas(a, _) => a.own
    case BitRead(a) => a.own
    case BitCas(a, _) => a.own
    case Mark(a, _) => a.own
    case Update(a) => a.own
    case CommitRead(a) => a.own
    case CommitCas(a, _) => a.own
    case Renew(_, _) => true
    case RenewWrite(_, _, _) => true
    case _ => false
  }

  ghost predicate LlxOkPc(s: Shared, t: nat, pc: Pc) {
    match pc
    case LlxMarked(r) => r < |s.ptr|
    case LlxPtr(r, _) => r < |s.ptr|
    case LlxState(r, _, h) => Was(s, h, r)
    case LlxCheck(r, _, h) => Was(s, h, r) && Decided(s, h)
    case LlxCopy(r, _, h, vals) => HeldOk(s, r, Held(h, vals))
    case Snapshot(_, _, h, msn, got) =>
      && h in s.ops && h.Tag? && Was(s, h, NodeAt(s.ops[h].body, 0))
      && h.tid < |s.desc|
      && (s.desc[h.tid].mut.sn == h.sn ==>
            && (msn >= 0 ==> msn == h.sn)
            && (forall i: nat | i in got :: i < |s.ops[h].body| && got[i] == s.ops[h].body[i]))
    case Initialize(v, snaps, fi) =>
      && t < |s.desc| && v == s.desc[t].mut
      && InitializeOk(s, t, s.desc[t].body, snaps, fi)
    case _ => true
  }

  ghost predicate InitializeOk(s: Shared, t: nat, b: Body, snaps: seq<map<nat, Value>>, fi: nat) {
    && fi < Num(b) && |snaps| == Num(b) && FieldNode(b) == NodeAt(b, fi)
    && FieldOff(b) in snaps[fi] && snaps[fi][FieldOff(b)] == OldVal(b)
    && FieldNode(b) < |s.mem| && FieldOff(b) < |s.mem[FieldNode(b)]|
    && (forall i: nat | i < Num(b) :: HeldOk(s, NodeAt(b, i), Held(SeenAt(b, i), snaps[i])))
    && (forall i: nat, j: nat {:trigger NodeAt(b, i), NodeAt(b, j)}
          | i < Num(b) && j < Num(b) && NodeAt(b, i) == NodeAt(b, j) ::
          SeenAt(b, i) == SeenAt(b, j))
    && (Carries(s, SeenAt(b, fi), FieldNode(b)) ==> Fresh(s, FieldNode(b), FieldOff(b), NewVal(b)))
  }

  /** At most one of the two reasons for a failed freezing CAS. */
  ghost predicate Stuck(s: Shared, h: Handle, b: Body, i: nat) {
    Dead(s, h, b) || (Was(s, h, NodeAt(b, i)) && !Carries(s, h, NodeAt(b, i)))
  }

  ghost predicate HelpOkPc(s: Shared, t: nat, pc: Pc) {
    match pc
    case Freeze(a, i) => HelpOk(s, t, a) && FrozenUpTo(s, a.tag, a.snap, i) && (!a.own ==> i >= 1)
    case Reread(a, i, won) =>
      && HelpOk(s, t, a) && FrozenUpTo(s, a.tag, a.snap, i) && i < Num(a.snap)
      && (if won then Was(s, a.tag, NodeAt(a.snap, i)) else !Carries(s, SeenAt(a.snap, i), NodeAt(a.snap, i)))
    case ReadFrozen(a, i) => HelpOk(s, t, a) && i < Num(a.snap) && Stuck(s, a.tag, a.snap, i)
    case AbortRead(a) => HelpOk(s, t, a) && Dead(s, a.tag, a.snap)
    case AbortCas(a, v) => HelpOk(s, t, a) && Dead(s, a.tag, a.snap) && v.sn == a.msn
    case BitRead(a) => HelpOk(s, t, a) && FrozenUpTo(s, a.tag, a.snap, Num(a.snap))
    case BitCas(a, v) => HelpOk(s, t, a) && FrozenUpTo(s, a.tag, a.snap, Num(a.snap)) && v.sn == a.msn
    case Mark(a, j) => HelpOk(s, t, a) && s.ops[a.tag].allFrozen && MarkedUpTo(s, a.snap, j)
    case Update(a) => HelpOk(s, t, a) && s.ops[a.tag].allFrozen && MarkedUpTo(s, a.snap, Num(a.snap))
    case CommitRead(a) => HelpOk(s, t, a) && s.ops[a.tag].updated
    case CommitCas(a, v) => HelpOk(s, t, a) && s.ops[a.tag].updated && v.sn == a.msn
    case Renew(a, ok) => HelpOk(s, t, a) && a.own && s.ops[a.tag].verdict == (if ok then Committed else Aborted)
    case RenewWrite(a, ok, v) =>
      HelpOk(s, t, a) && a.own && s.ops[a.tag].verdict == (if ok then Committed else Aborted) && v.sn == a.tag.sn
    case _ => true
  }

  ghost predicate ThreadOk(s: State, t: nat)
    requires t < |s.th|
  {
    var x := s.th[t];
    && (forall r: nat | r in x.held :: HeldOk(s.g, r, x.held[r]))
    && LlxOkPc(s.g, t, x.pc) && HelpOkPc(s.g, t, x.pc)
    && t < |s.g.desc| && (s.g.desc[t].mut.sn % 2 == 1 <==> Owning(x.pc))
    && (x.ret.ScxDone? ==>
          && x.ret.tag in s.g.ops && x.ret.tag.Tag?
          && s.g.ops[x.ret.tag].verdict == (if x.ret.ok then Committed else Aborted))
  }

  ghost predicate Inv(s: State) {
    |s.g.desc| == |s.th| && Glob(s.g) && forall t: nat | t < |s.th| :: ThreadOk(s, t)
  }

  /* ------------------------------------- what a step leaves to other threads */

  ghost predicate OpGrows(o: Op, o': Op) {
    && o'.body == o.body && o'.snaps == o.snaps && o'.fi == o.fi
    && (o.verdict != InProgress ==> o'.verdict == o.verdict && o'.updated == o.updated)
    && (o.allFrozen ==> o'.allFrozen) && (o.updated ==> o'.updated)
  }

  ghost predicate NodesGrow(s: Shared, s': Shared) {
    && |s.ptr| <= |s'.ptr| && |s.hist| <= |s'.hist| && |s.marked| <= |s'.marked|
    && |s.mem| <= |s'.mem| && |s.past| <= |s'.past|
    && (forall r: nat | r < |s.hist| :: s.hist[r] <= s'.hist[r])
    && (forall r: nat | r < |s.marked| && s.marked[r] :: s'.marked[r])
    && (forall r: nat | r < |s.mem| && r < |s.past| && r < |s.ptr| ::
          && |s'.mem[r]| == |s.mem[r]| && |s'.past[r]| == |s.past[r]|
          && (Decided(s, s.ptr[r]) ==> s'.mem[r] == s.mem[r] && s'.past[r] == s.past[r]))
  }

  ghost predicate DescGrow(s: Shared, s': Shared, t: nat) {
    && |s'.desc| == |s.desc|
    && (forall u: nat | u < |s.desc| ::
          && s.desc[u].mut.sn <= s'.desc[u].mut.sn
          && (u != t ==> s.desc[u].mut.sn == s'.desc[u].mut.sn && s.desc[u].body == s'.desc[u].body)
          && (u != t && s.desc[u].mut.sn % 2 == 0 ==> s'.desc[u] == s.desc[u]))
  }

  ghost predicate OpsGrow(s: Shared, s': Shared) {
    forall h | h in s.ops :: h in s'.ops && OpGrows(s.ops[h], s'.ops[h])
  }

  /** What never goes back: records and histories. */
  ghost predicate Grows(s: Shared, s': Shared) {
    && OpsGrow(s, s') && |s.hist| <= |s'.hist|
    && forall r: nat | r < |s.hist| :: s.hist[r] <= s'.hist[r]
  }

  ghost predicate Rely(s: Shared, s': Shared, t: nat) {
    NodesGrow(s, s') && DescGrow(s, s', t) && OpsGrow(s, s')
  }

  /** In a growing history without repetitions, an element that is last now was
      last before. */
  lemma StillLast(hs: seq<Handle>, hs': seq<Handle>, g: Handle)
    requires hs <= hs' && g in hs
    requires Distinct(hs')
    ensures g in hs'
    ensures hs'[|hs'| - 1] == g ==> hs[|hs| - 1] == g
  {
    var k :| 0 <= k < |hs| && hs[k] == g;
    assert hs'[k] == g;
  }

  lemma LeftStable(s: Shared, s': Shared, t: nat, g: Handle, r: nat)
    requires Glob(s) && Glob(s') && Rely(s, s', t)
    requires Was(s, g, r)
    ensures Was(s', g, r)
    ensures Carries(s', g, r) ==> Carries(s, g, r)
  {
    hide OpOk, FieldOk, Follows, Sealed, Decided, DescGrow, OpsGrow;
    assert NodeOk(s', r) && NodeOk(s, r);
    assert s.hist[r] <= s'.hist[r];
    hide Distinct;
    StillLast(s.hist[r], s'.hist[r], g);
  }

  lemma SettledStable(s: Shared, s': Shared, t: nat, g: Handle, r: nat)
    requires Glob(s) && Glob(s') && Rely(s, s', t)
    requires Decided(s, g)
    ensures Decided(s', g)
    ensures Sealed(s', g, r) <==> Sealed(s, g, r)
  {
    assert OpGrows(s.ops[g], s'.ops[g]);
  }

  lemma HeldStable(s: Shared, s': Shared, t: nat, r: nat, e: Held)
    requires Glob(s) && Glob(s') && Rely(s, s', t)
    requires HeldOk(s, r, e)
    ensures HeldOk(s', r, e)
    ensures Carries(s', e.h, r) ==> s'.mem[r] == s.mem[r] && s'.past[r] == s.past[r]
  {
    LeftStable(s, s', t, e.h, r);
    SettledStable(s, s', t, e.h, r);
  }

  lemma FrozenStable(s: Shared, s': Shared, t: nat, h: Handle, b: Body, n: nat)
    requires Glob(s) && Glob(s') && Rely(s, s', t)
    requires FrozenUpTo(s, h, b, n)
    ensures FrozenUpTo(s', h, b, n)
  {
    forall i: nat {:trigger NodeAt(b, i)} | i < n && i < Num(b) ensures Was(s', h, NodeAt(b, i)) {
      LeftStable(s, s', t, h, NodeAt(b, i));
    }
  }

  lemma MarkedStable(s: Shared, s': Shared, t: nat, b: Body, n: nat)
    requires Rely(s, s', t)
    requires MarkedUpTo(s, b, n)
    ensures MarkedUpTo(s', b, n)
  {
  }

  /** Once an SCX cannot freeze one of its nodes it never will, provided nobody
      has just frozen it. */
  lemma BlockedStable(s: Shared, s': Shared, t: nat, h: Handle, i: nat)
    requires Glob(s) && Glob(s') && Rely(s, s', t)
    requires h in s.ops && h.Tag? && Blocked(s, h, s.ops[h].body, i)
    ensures Blocked(s', h, s'.ops[h].body, i)
  {
    var b := s.ops[h].body;
    var r := NodeAt(b, i);
    assert OpGrows(s.ops[h], s'.ops[h]);
    assert OpOk(s, h) && DepOk(s, h, b, i);
    LeftStable(s, s', t, SeenAt(b, i), r);
    if Was(s', h, r) {
      JoinedOver(s', h, r);
      var j: nat :| j < Num(b) && NodeAt(b, j) == r && Precedes(s', r, SeenAt(b, j), h);
      assert OpOk(s', h);
      assert SeenAt(b, j) == SeenAt(b, i);
      NotYetFollowed(s, s', h, r, SeenAt(b, i));
    }
  }

  /** g stands right before h in the history of the node. */
  ghost predicate Precedes(s: Shared, r: nat, g: Handle, h: Handle) {
    r < |s.hist| && exists k :: 1 <= k < |s.hist[r]| && s.hist[r][k] == h && s.hist[r][k - 1] == g
  }

  lemma JoinedOver(s: Shared, h: Handle, r: nat)
    requires Glob(s) && Was(s, h, r) && h.Tag?
    ensures h in s.ops
    ensures exists i: nat ::
              i < Num(s.ops[h].body) && NodeAt(s.ops[h].body, i) == r && Precedes(s, r, SeenAt(s.ops[h].body, i), h)
  {
    assert NodeOk(s, r);
    var k :| 0 <= k < |s.hist[r]| && s.hist[r][k] == h;
    assert k >= 1;
    assert Follows(s, s.hist[r][k], r, s.hist[r][k - 1]);
  }

  lemma NotYetFollowed(s: Shared, s': Shared, h: Handle, r: nat, g: Handle)
    requires r < |s.ptr| && r < |s.hist| && r < |s'.ptr| && r < |s'.hist|
    requires NodeOk(s, r) && NodeOk(s', r) && s.hist[r] <= s'.hist[r]
    requires Was(s, g, r) && !Carries(s, g, r) && !Was(s, h, r)
    ensures !Precedes(s', r, g, h)
  {
    NoLateFollower(s.hist[r], s'.hist[r], g, h);
  }

  lemma NoLateFollower(hs: seq<Handle>, hs': seq<Handle>, g: Handle, h: Handle)
    requires hs <= hs' && Distinct(hs') && g in hs && hs[|hs| - 1] != g && h !in hs
    ensures !exists k :: 1 <= k < |hs'| && hs'[k] == h && hs'[k - 1] == g
  {
    var j :| 0 <= j < |hs| && hs[j] == g;
    forall k | 1 <= k < |hs'| && hs'[k - 1] == g ensures hs'[k] != h {
      assert hs'[j] == g;
      assert k - 1 == j;
      assert hs'[k] == hs[k];
    }
  }

  lemma DeadStable(s: Shared, s': Shared, t: nat, h: Handle)
    requires Glob(s) && Glob(s') && Rely(s, s', t)
    requires h in s.ops && h.Tag? && Dead(s, h, s.ops[h].body)
    ensures Dead(s', h, s.ops[h].body)
  {
    var i: nat :| Blocked(s, h, s.ops[h].body, i);
    BlockedStable(s, s', t, h, i);
    assert OpGrows(s.ops[h], s'.ops[h]);
  }

  lemma FreshStable(s: Shared, s': Shared, t: nat, g: Handle, r: nat, k: nat, v: Value)
    requires Glob(s) && Glob(s') && Rely(s, s', t)
    requires Was(s, g, r) && Decided(s, g) && r < |s.ptr|
    requires Carries(s, g, r) ==> Fresh(s, r, k, v)
    ensures Carries(s', g, r) ==> Fresh(s', r, k, v)
  {
    LeftStable(s, s', t, g, r);
  }

  lemma InitializeStable(s: Shared, s': Shared, t: nat, u: nat, b: Body, snaps: seq<map<nat, Value>>, fi: nat)
    requires Glob(s) && Glob(s') && Rely(s, s', t)
    requires InitializeOk(s, u, b, snaps, fi)
    ensures InitializeOk(s', u, b, snaps, fi)
  {
    forall i: nat | i < Num(b)
      ensures HeldOk(s', NodeAt(b, i), Held(SeenAt(b, i), snaps[i]))
    {
      HeldStable(s, s', t, NodeAt(b, i), Held(SeenAt(b, i), snaps[i]));
    }
    assert HeldOk(s, NodeAt(b, fi), Held(SeenAt(b, fi), snaps[fi]));
    FreshStable(s, s', t, SeenAt(b, fi), FieldNode(b), FieldOff(b), NewVal(b));
  }

  lemma LlxPcStable(s: Shared, s': Shared, t: nat, u: nat, pc: Pc)
    requires Glob(s) && Glob(s') && Rely(s, s', t) && u != t && u < |s.desc|
    requires LlxOkPc(s, u, pc) && (pc.Initialize? ==> s.desc[u].mut.sn % 2 == 0)
    ensures LlxOkPc(s', u, pc)
  {
    match pc
    case LlxState(r, _, h) => LeftStable(s, s', t, h, r);
    case LlxCheck(r, _, h) => LeftStable(s, s', t, h, r); SettledStable(s, s', t, h, r);
    case LlxCopy(r, _, h, vals) => HeldStable(s, s', t, r, Held(h, vals));
    case Snapshot(_, _, h, msn, got) =>
      assert OpGrows(s.ops[h], s'.ops[h]);
      LeftStable(s, s', t, h, NodeAt(s.ops[h].body, 0));
      assert OpOk(s, h) && OpOk(s', h);
    case Initialize(v, snaps, fi) => InitializeStable(s, s', t, u, s.desc[u].body, snaps, fi);
    case _ =>
  }

  lemma HelpStable(s: Shared, s': Shared, t: nat, u: nat, a: Help)
    requires Glob(s) && Glob(s') && Rely(s, s', t) && u != t && u < |s.desc|
    requires HelpOk(s, u, a)
    ensures HelpOk(s', u, a)
    ensures OpGrows(s.ops[a.tag], s'.ops[a.tag])
  {
    assert OpGrows(s.ops[a.tag], s'.ops[a.tag]);
    if !a.own {
      LeftStable(s, s', t, a.tag, NodeAt(a.snap, 0));
    }
  }

  lemma StuckStable(s: Shared, s': Shared, t: nat, h: Handle, i: nat)
    requires Glob(s) && Glob(s') && Rely(s, s', t)
    requires h in s.ops && h.Tag? && i < Num(s.ops[h].body)
    requires Stuck(s, h, s.ops[h].body, i)
    ensures Stuck(s', h, s.ops[h].body, i)
  {
    if Dead(s, h, s.ops[h].body) {
      DeadStable(s, s', t, h);
    } else {
      LeftStable(s, s', t, h, NodeAt(s.ops[h].body, i));
    }
  }

  lemma RereadStable(s: Shared, s': Shared, t: nat, u: nat, pc: Pc)
    requires Glob(s) && Glob(s') && Rely(s, s', t) && u != t && u < |s.desc|
    requires pc.Reread? && HelpOkPc(s, u, pc)
    ensures HelpOkPc(s', u, pc)
  {
    var a, i := pc.a, pc.i;
    HelpStable(s, s', t, u, a);
    FrozenStable(s, s', t, a.tag, a.snap, i);
    assert OpOk(s, a.tag) && DepOk(s, a.tag, a.snap, i);
    LeftStable(s, s', t, if pc.won then a.tag else SeenAt(a.snap, i), NodeAt(a.snap, i));
  }

  /** The phases that end a call without an update. */
  lemma AbortPcStable(s: Shared, s': Shared, t: nat, u: nat, pc: Pc)
    requires Glob(s) && Glob(s') && Rely(s, s', t) && u != t && u < |s.desc|
    requires (pc.ReadFrozen? || pc.AbortRead? || pc.AbortCas?) && HelpOkPc(s, u, pc)
    ensures HelpOkPc(s', u, pc)
  {
    HelpStable(s, s', t, u, pc.a);
    match pc
    case ReadFrozen(a, i) => StuckStable(s, s', t, a.tag, i);
    case AbortRead(a) => DeadStable(s, s', t, a.tag);
    case AbortCas(a, v) => DeadStable(s, s', t, a.tag);
  }

  /** The phases that know of frozen nodes. */
  lemma BitPcStable(s: Shared, s': Shared, t: nat, u: nat, pc: Pc)
    requires Glob(s) && Glob(s') && Rely(s, s', t) && u != t && u < |s.desc|
    requires (pc.Freeze? || pc.BitRead? || pc.BitCas?) && HelpOkPc(s, u, pc)
    ensures HelpOkPc(s', u, pc)
  {
    HelpStable(s, s', t, u, pc.a);
    FrozenStable(s, s', t, pc.a.tag, pc.a.snap, if pc.Freeze? then pc.i else Num(pc.a.snap));
  }

  /** The phases from the all-frozen bit to the update. */
  lemma MarkPcStable(s: Shared, s': Shared, t: nat, u: nat, pc: Pc)
    requires Glob(s) && Glob(s') && Rely(s, s', t) && u != t && u < |s.desc|
    requires (pc.Mark? || pc.Update?) && HelpOkPc(s, u, pc)
    ensures HelpOkPc(s', u, pc)
  {
    HelpStable(s, s', t, u, pc.a);
    MarkedStable(s, s', t, pc.a.snap, if pc.Mark? then pc.j else Num(pc.a.snap));
  }

  /** The phases after the update. */
  lemma EndPcStable(s: Shared, s': Shared, t: nat, u: nat, pc: Pc)
    requires Glob(s) && Glob(s') && Rely(s, s', t) && u != t && u < |s.desc|
    requires (pc.CommitRead? || pc.CommitCas? || pc.Renew? || pc.RenewWrite?) && HelpOkPc(s, u, pc)
    ensures HelpOkPc(s', u, pc)
  {
    HelpStable(s, s', t, u, pc.a);
  }

  lemma HelpPcStable(s: Shared, s': Shared, t: nat, u: nat, pc: Pc)
    requires Glob(s) && Glob(s') && Rely(s, s', t) && u != t && u < |s.desc|
    requires HelpOkPc(s, u, pc)
    ensures HelpOkPc(s', u, pc)
  {
    if pc.Reread? {
      RereadStable(s, s', t, u, pc);
    } else if pc.ReadFrozen? || pc.AbortRead? || pc.AbortCas? {
      AbortPcStable(s, s', t, u, pc);
    } else if pc.Freeze? || pc.BitRead? || pc.BitCas? {
      BitPcStable(s, s', t, u, pc);
    } else if pc.Mark? || pc.Update? {
      MarkPcStable(s, s', t, u, pc);
    } else if pc.CommitRead? || pc.CommitCas? || pc.Renew? || pc.RenewWrite? {
      EndPcStable(s, s', t, u, pc);
    }
  }

  lemma KeptStable(s: Shared, s': Shared, t: nat, x: Thread)
    requires Glob(s) && Glob(s') && Rely(s, s', t)
    requires forall r: nat | r in x.held :: HeldOk(s, r, x.held[r])
    requires x.ret.ScxDone? ==> x.ret.tag in s.ops && x.ret.tag.Tag? &&
                                s.ops[x.ret.tag].verdict == (if x.ret.ok then Committed else Aborted)
    ensures forall r: nat | r in x.held :: HeldOk(s', r, x.held[r])
    ensures x.ret.ScxDone? ==> x.ret.tag in s'.ops && s'.ops[x.ret.tag].verdict == s.ops[x.ret.tag].verdict
  {
    forall r: nat | r in x.held ensures HeldOk(s', r, x.held[r]) {
      HeldStable(s, s', t, r, x.held[r]);
    }
    if x.ret.ScxDone? {
      assert OpGrows(s.ops[x.ret.tag], s'.ops[x.ret.tag]);
    }
  }

  lemma ThreadStable(s: State, s': State, t: nat, u: nat)
    requires Glob(s.g) && Glob(s'.g) && Rely(s.g, s'.g, t) && u != t && u < |s.th| == |s'.th| && s'.th[u] == s.th[u]
    requires ThreadOk(s, u)
    ensures ThreadOk(s', u)
  {
    var x := s.th[u];
    KeptStable(s.g, s'.g, t, x);
    LlxPcStable(s.g, s'.g, t, u, x.pc);
    HelpPcStable(s.g, s'.g, t, u, x.pc);
  }

  /* ---------------------------------------------------------- local steps */

  lemma InvAfterPc(s: State, t: nat, s': State, pc: Pc)
    requires Inv(s) && t < |s.th| && s' == SetPc(s, t, pc)
    requires LlxOkPc(s.g, t, pc) && HelpOkPc(s.g, t, pc) && (Owning(pc) <==> Owning(s.th[t].pc))
    ensures Inv(s') && Grows(s.g, s'.g)
  {
    forall u: nat | u < |s'.th| ensures ThreadOk(s', u) {
      assert ThreadOk(s, u);
    }
  }

  lemma InvAfterFinish(s: State, t: nat, s': State, held: map<nat, Held>, ret: Result)
    requires Inv(s) && t < |s.th| && s' == s.(th := s.th[t := Thread(Idle, held, ret)])
    requires !Owning(s.th[t].pc) && !ret.ScxDone?
    requires forall r: nat | r in held :: HeldOk(s.g, r, held[r])
    ensures Inv(s') && Grows(s.g, s'.g)
  {
    forall u: nat | u < |s'.th| ensures ThreadOk(s', u) {
      assert ThreadOk(s, u);
    }
  }

  lemma InvAfterLeave(s: State, t: nat, s': State, a: Help, ok: bool)
    requires Inv(s) && t < |s.th| && s' == Leave(s, t, a, ok)
    requires HelpOk(s.g, t, a) && (Owning(s.th[t].pc) <==> a.own)
    requires a.own ==> s.g.ops[a.tag].verdict == (if ok then Committed else Aborted)
    ensures Inv(s') && Grows(s.g, s'.g)
  {
    assert ThreadOk(s, t);
    if a.own {
      InvAfterPc(s, t, s', Renew(a, ok));
    } else {
      InvAfterFinish(s, t, s', s.th[t].held, LlxFail(a.r, a.m));
    }
  }

  /** Reading the verdict of a tag that some node carried. */
  lemma SeenVerdictOk(g: Shared, s: State, h: Handle)
    requires s.g == g && Glob(g) && h in g.ops
    ensures SeenVerdict(s, h) == Aborted ==> g.ops[h].verdict == Aborted
    ensures SeenVerdict(s, h) == Committed ==> Decided(g, h)
    ensures SeenVerdict(s, h) == InProgress ==> h.Tag? && h.tid < |g.desc|
  {
    if h.Tag? {
      assert OpOk(g, h);
    }
  }

  lemma LlxReadOk(s: State, t: nat, s': State)
    requires Inv(s)
    requires LlxBegin(s, t, s') || LlxReadMarked(s, t, s') || LlxReadPtr(s, t, s') || LlxReadState(s, t, s')
    ensures Inv(s') && Grows(s.g, s'.g)
  {
    hide InitializeOk, BodyOk, OpsGrow, TagOk, OpGrows, Grows, Matches, FieldOff, Num;
    hide HelpOkPc, BeforeUpdate;
    assert ThreadOk(s, t);
    var pc := s.th[t].pc;
    if LlxBegin(s, t, s') {
      InvAfterPc(s, t, s', s'.th[t].pc);
    } else if LlxReadMarked(s, t, s') {
      InvAfterPc(s, t, s', s'.th[t].pc);
    } else if LlxReadPtr(s, t, s') {
      assert NodeOk(s.g, pc.r);
      InvAfterPc(s, t, s', s'.th[t].pc);
    } else {
      assert NodeOk(s.g, pc.r);
      SeenVerdictOk(s.g, s, pc.h);
      if SeenVerdict(s, pc.h) == InProgress {
        assert OpOk(s.g, pc.h);
      }
      InvAfterPc(s, t, s', s'.th[t].pc);
    }
  }

  lemma LlxReadMarkedAgainOk(s: State, t: nat, s': State)
    requires Inv(s) && LlxReadMarkedAgain(s, t, s')
    ensures Inv(s') && Grows(s.g, s'.g)
  {
    assert ThreadOk(s, t);
    var pc := s.th[t].pc;
    if s.g.marked[pc.r] {
      InvAfterFinish(s, t, s', s.th[t].held, LlxFail(pc.r, pc.m));
    } else {
      UnmarkedUnsealed(s.g, pc.h, pc.r);
      InvAfterPc(s, t, s', s'.th[t].pc);
    }
  }

  lemma UnmarkedUnsealed(s: Shared, h: Handle, r: nat)
    requires Glob(s) && r < |s.marked| && !s.marked[r]
    ensures !Sealed(s, h, r)
  {
    if h in s.ops && h.Tag? {
      assert OpOk(s, h);
    }
  }

  lemma LlxCopyFieldOk(s: State, t: nat, s': State)
    requires Inv(s) && LlxCopyField(s, t, s')
    ensures Inv(s') && Grows(s.g, s'.g)
  {
    assert ThreadOk(s, t);
    InvAfterPc(s, t, s', s'.th[t].pc);
  }

  lemma LlxVerifyOk(s: State, t: nat, s': State)
    requires Inv(s) && LlxVerify(s, t, s')
    ensures Inv(s') && Grows(s.g, s'.g)
  {
    assert ThreadOk(s, t);
    var pc := s.th[t].pc;
    if s.g.ptr[pc.r] == pc.h {
      InvAfterFinish(s, t, s', s.th[t].held[pc.r := Held(pc.h, pc.vals)], LlxOk(pc.r));
    } else {
      InvAfterFinish(s, t, s', s.th[t].held, LlxFail(pc.r, pc.m));
    }
  }

  lemma SnapshotWordOk(s: State, t: nat, s': State)
    requires Inv(s) && SnapshotWord(s, t, s')
    ensures Inv(s') && Grows(s.g, s'.g)
  {
    assert ThreadOk(s, t);
    assert TagOk(s.g, s.th[t].pc.h);
    InvAfterPc(s, t, s', s'.th[t].pc);
  }

  /** An accepted snapshot is the descriptor its tag was published with. */
  lemma AcceptedSnapshot(s: Shared, t: nat, pc: Pc)
    requires pc.Snapshot? && LlxOkPc(s, t, pc) && TagOk(s, pc.h)
    requires s.desc[pc.h.tid].mut.sn == pc.h.sn && pc.msn >= 0 && Complete(pc.got, |s.desc[pc.h.tid].body|)
    ensures Assemble(pc.got, |s.desc[pc.h.tid].body|) == s.ops[pc.h].body && pc.msn == pc.h.sn
  {
    var b := Assemble(pc.got, |s.desc[pc.h.tid].body|);
    forall i: nat | i < |b| ensures b[i] == s.ops[pc.h].body[i] {
      assert i in pc.got;
    }
  }

  lemma SnapshotCheckOk(s: State, t: nat, s': State)
    requires Inv(s) && SnapshotCheck(s, t, s')
    ensures Inv(s') && Grows(s.g, s'.g)
  {
    hide BodyOk, Shape;
    assert ThreadOk(s, t);
    var pc := s.th[t].pc;
    assert OpOk(s.g, pc.h);
    if s.g.desc[pc.h.tid].mut.sn == pc.h.sn {
      AcceptedSnapshot(s.g, t, pc);
      var a := Help(pc.h, false, pc.msn, s.g.ops[pc.h].body, pc.r, pc.m);
      assert HelpOk(s.g, t, a);
      assert FrozenUpTo(s.g, a.tag, a.snap, 1);
      InvAfterPc(s, t, s', Freeze(a, 1));
    } else {
      InvAfterFinish(s, t, s', s.th[t].held, LlxFail(pc.r, pc.m));
    }
  }

  lemma InitializeReadOk(s: State, t: nat, s': State)
    requires Inv(s) && InitializeRead(s, t, s')
    ensures Inv(s') && Grows(s.g, s'.g)
  {
    assert ThreadOk(s, t);
    InvAfterPc(s, t, s', s'.th[t].pc);
  }

  lemma RereadOk(s: Shared, t: nat, a: Help, i: nat, won: bool)
    requires HelpOkPc(s, t, Reread(a, i, won))
    ensures won || Carries(s, a.tag, NodeAt(a.snap, i)) ==> NodeAt(a.snap, i) < |s.hist| ==>
              (NodeOk'(s, NodeAt(a.snap, i)) ==> HelpOkPc(s, t, Freeze(a, i + 1)))
    ensures !won && !Carries(s, a.tag, NodeAt(a.snap, i)) ==> HelpOkPc(s, t, ReadFrozen(a, i))
  {
    var b := a.snap;
    var r := NodeAt(b, i);
    if !won && !Carries(s, a.tag, r) && !Was(s, a.tag, r) {
      assert Blocked(s, a.tag, b, i);
    }
  }

  /** The last handle of a node's history is the one it carries. */
  ghost predicate NodeOk'(s: Shared, r: nat)
    requires r < |s.hist|
  {
    r < |s.ptr| && s.ptr[r] in s.hist[r]
  }

  lemma FreezeRereadOk(s: State, t: nat, s': State)
    requires Inv(s) && FreezeReread(s, t, s')
    ensures Inv(s') && Grows(s.g, s'.g)
  {
    hide OpOk;
    assert ThreadOk(s, t);
    var pc := s.th[t].pc;
    assert NodeOk(s.g, NodeAt(pc.a.snap, pc.i));
    RereadOk(s.g, t, pc.a, pc.i, pc.won);
    InvAfterPc(s, t, s', s'.th[t].pc);
  }

  /** A dead SCX has not frozen all its nodes. */
  lemma DeadNotFrozen(s: Shared, h: Handle)
    requires Glob(s) && h in s.ops && h.Tag? && Dead(s, h, s.ops[h].body)
    ensures !FrozenUpTo(s, h, s.ops[h].body, Num(s.ops[h].body))
    ensures !s.ops[h].allFrozen && s.ops[h].verdict != Committed
  {
    assert OpOk(s, h);
    var i: nat :| Blocked(s, h, s.ops[h].body, i);
    assert !Was(s, h, NodeAt(s.ops[h].body, i));
  }

  /** A node leaves a tag only when the fate of that tag is known. */
  lemma LeftDecided(s: Shared, h: Handle, r: nat)
    requires Glob(s) && Was(s, h, r) && !Carries(s, h, r)
    ensures Decided(s, h) && !Sealed(s, h, r)
  {
    assert NodeOk(s, r);
    var k :| 0 <= k < |s.hist[r]| && s.hist[r][k] == h;
  }

  /** What the all-frozen bit tells a helper that found a node taken. */
  lemma StuckFate(s: Shared, h: Handle, i: nat)
    requires Glob(s) && h in s.ops && h.Tag? && i < Num(s.ops[h].body) && Stuck(s, h, s.ops[h].body, i)
    ensures s.ops[h].allFrozen ==> s.ops[h].verdict == Committed
    ensures !s.ops[h].allFrozen ==> Dead(s, h, s.ops[h].body)
  {
    assert OpOk(s, h);
    if Dead(s, h, s.ops[h].body) {
      DeadNotFrozen(s, h);
    } else {
      LeftDecided(s, h, NodeAt(s.ops[h].body, i));
    }
  }

  lemma ReadFrozenBitOk(s: State, t: nat, s': State)
    requires Inv(s) && ReadFrozenBit(s, t, s')
    ensures Inv(s') && Grows(s.g, s'.g)
  {
    assert ThreadOk(s, t);
    var pc := s.th[t].pc;
    assert OpOk(s.g, pc.a.tag);
    StuckFate(s.g, pc.a.tag, pc.i);
    var mut := s.g.desc[pc.a.tag.tid].mut;
    if mut.sn != pc.a.tag.sn {
      InvAfterLeave(s, t, s', pc.a, false);
    } else if mut.allFrozen {
      InvAfterLeave(s, t, s', pc.a, true);
    } else {
      InvAfterPc(s, t, s', s'.th[t].pc);
    }
  }

  lemma AbortWriteReadOk(s: State, t: nat, s': State)
    requires Inv(s) && AbortWriteRead(s, t, s')
    ensures Inv(s') && Grows(s.g, s'.g)
  {
    assert ThreadOk(s, t);
    var a := s.th[t].pc.a;
    var v := s.g.desc[a.tag.tid].mut;
    assert OpOk(s.g, a.tag);
    if v.sn == a.msn && v.verdict != Aborted {
      InvAfterPc(s, t, s', s'.th[t].pc);
    } else {
      InvAfterLeave(s, t, s', a, false);
    }
  }

  lemma BitWriteReadOk(s: State, t: nat, s': State)
    requires Inv(s) && BitWriteRead(s, t, s')
    ensures Inv(s') && Grows(s.g, s'.g)
  {
    assert ThreadOk(s, t);
    var a := s.th[t].pc.a;
    assert OpOk(s.g, a.tag) ;
    if Dead(s.g, a.tag, a.snap) {
      DeadNotFrozen(s.g, a.tag);
    }
    InvAfterPc(s, t, s', s'.th[t].pc);
  }

  lemma CommitWriteReadOk(s: State, t: nat, s': State)
    requires Inv(s) && CommitWriteRead(s, t, s')
    ensures Inv(s') && Grows(s.g, s'.g)
  {
    assert ThreadOk(s, t);
    var a := s.th[t].pc.a;
    var v := s.g.desc[a.tag.tid].mut;
    assert OpOk(s.g, a.tag);
    if v.sn == a.msn && v.verdict != Committed {
      InvAfterPc(s, t, s', s'.th[t].pc);
    } else {
      InvAfterLeave(s, t, s', a, true);
    }
  }

  lemma RenewReadOk(s: State, t: nat, s': State)
    requires Inv(s) && RenewReadStep(s, t, s')
    ensures Inv(s') && Grows(s.g, s'.g)
  {
    assert ThreadOk(s, t);
    InvAfterPc(s, t, s', s'.th[t].pc);
  }

  /* --------------------------------------------------------- shared steps */

  lemma InvAfterShared(s: State, t: nat, s': State)
    requires Inv(s) && Glob(s'.g) && Rely(s.g, s'.g, t) && t < |s.th| == |s'.th|
    requires forall u: nat | u < |s.th| && u != t :: s'.th[u] == s.th[u]
    requires ThreadOk(s', t)
    ensures Inv(s') && Grows(s.g, s'.g)
  {
    forall u: nat | u < |s'.th| && u != t ensures ThreadOk(s', u) {
      ThreadStable(s, s', t, u);
    }
  }

  /** The acting thread after a step that keeps what it holds. */
  lemma ActorOk(s: State, t: nat, s': State, pc: Pc)
    requires Inv(s) && Glob(s'.g) && Rely(s.g, s'.g, t) && t < |s.th| == |s'.th|
    requires s'.th[t] == s.th[t].(pc := pc)
    requires LlxOkPc(s'.g, t, pc) && HelpOkPc(s'.g, t, pc)
    requires s'.g.desc[t].mut.sn % 2 == 1 <==> Owning(pc)
    ensures ThreadOk(s', t)
  {
    assert ThreadOk(s, t);
    KeptStable(s.g, s'.g, t, s.th[t]);
  }

  /* What carries over from one state to the next, piece by piece. */

  lemma SealedSame(s: Shared, s': Shared, h: Handle, r: nat)
    requires OpsGrow(s, s') && Decided(s, h)
    ensures Decided(s', h) && (Sealed(s', h, r) <==> Sealed(s, h, r))
  {
    assert OpGrows(s.ops[h], s'.ops[h]);
  }

  lemma NodeFrame(s: Shared, s': Shared, r: nat)
    requires r < |s.ptr| && r < |s.hist| && NodeOk(s, r) && OpsGrow(s, s')
    requires r < |s'.ptr| && r < |s'.hist| && s'.ptr[r] == s.ptr[r] && s'.hist[r] == s.hist[r]
    ensures NodeOk(s', r)
  {
    var hs := s.hist[r];
    forall k | 0 <= k < |hs| - 1 ensures Decided(s', hs[k]) && !Sealed(s', hs[k], r) {
      SealedSame(s, s', hs[k], r);
    }
    forall k | 1 <= k < |hs| ensures Follows(s', hs[k], r, hs[k - 1]) {
      assert Follows(s, hs[k], r, hs[k - 1]);
      assert OpGrows(s.ops[hs[k]], s'.ops[hs[k]]);
    }
  }

  lemma BodyFrame(s: Shared, s': Shared, h: Handle, b: Body, snaps: seq<map<nat, Value>>, fi: nat)
    requires BodyOk(s, h, b, snaps, fi) && OpsGrow(s, s')
    requires |s.ptr| <= |s'.ptr| && |s.hist| <= |s'.hist| && |s.mem| <= |s'.mem|
    requires forall r: nat | r < |s.hist| :: s.hist[r] <= s'.hist[r]
    requires forall r: nat | r < |s.mem| :: |s'.mem[r]| == |s.mem[r]|
    ensures BodyOk(s', h, b, snaps, fi)
  {
    forall i: nat | i < Num(b) ensures DepOk(s', h, b, i) {
      assert DepOk(s, h, b, i);
      SealedSame(s, s', SeenAt(b, i), NodeAt(b, i));
      assert s.hist[NodeAt(b, i)] <= s'.hist[NodeAt(b, i)];
    }
  }

  lemma TagFrame(s: Shared, s': Shared, h: Handle)
    requires h in s.ops && h in s'.ops && TagOk(s, h) && |s.desc| <= |s'.desc|
    requires s'.desc[h.tid] == s.desc[h.tid] && s'.ops[h].body == s.ops[h].body
    requires s'.ops[h].verdict == s.ops[h].verdict && s'.ops[h].allFrozen == s.ops[h].allFrozen
    ensures TagOk(s', h)
  {
  }

  lemma DeadFrame(s: Shared, s': Shared, h: Handle, b: Body)
    requires s'.ptr == s.ptr && s'.hist == s.hist
    ensures Dead(s', h, b) <==> Dead(s, h, b)
  {
    forall i: nat ensures Blocked(s', h, b, i) <==> Blocked(s, h, b, i) { }
  }

  /** The fate of an SCX when no node's history changes. */
  lemma FateFrame(s: Shared, s': Shared, h: Handle)
    requires h in s.ops && h in s'.ops && FateOk(s, h)
    requires s'.ptr == s.ptr && s'.hist == s.hist && |s.marked| <= |s'.marked|
    requires forall r: nat | r < |s.marked| && s.marked[r] :: s'.marked[r]
    requires s'.ops[h] == s.ops[h]
    ensures FateOk(s', h)
  {
    var b := s.ops[h].body;
    DeadFrame(s, s', h, b);
    forall r: nat | Was(s', h, r) ensures Was(s', h, NodeAt(b, 0)) {
      assert Was(s, h, r);
    }
  }

  lemma BeforeFrame(s: Shared, s': Shared, h: Handle, b: Body, snaps: seq<map<nat, Value>>, fi: nat)
    requires BeforeUpdate(s, h, b, snaps, fi)
    requires s'.ptr == s.ptr && s'.mem == s.mem && s'.past == s.past
    ensures BeforeUpdate(s', h, b, snaps, fi)
  {
    forall i: nat | i < Num(b) ensures SnapOk(s', h, b, snaps, i) {
      assert SnapOk(s, h, b, snaps, i);
    }
    if Carries(s', h, FieldNode(b)) || Carries(s', SeenAt(b, fi), FieldNode(b)) {
      assert Carries(s, h, FieldNode(b)) || Carries(s, SeenAt(b, fi), FieldNode(b));
      assert Fresh(s', FieldNode(b), FieldOff(b), NewVal(b));
    }
  }

  /** An SCX when only descriptors, marks and the records of others change. */
  lemma OpFrame(s: Shared, s': Shared, h: Handle)
    requires h in s.ops && h in s'.ops && OpOk(s, h) && OpsGrow(s, s')
    requires s'.ptr == s.ptr && s'.hist == s.hist && s'.mem == s.mem && s'.past == s.past
    requires s'.ops[h].updated == s.ops[h].updated && TagOk(s', h) && FateOk(s', h)
    ensures OpOk(s', h)
  {
    var o := s.ops[h];
    assert OpGrows(o, s'.ops[h]);
    BodyFrame(s, s', h, o.body, o.snaps, o.fi);
    if !o.updated {
      BeforeFrame(s, s', h, o.body, o.snaps, o.fi);
    }
  }

  lemma BuildWordGlob(s: Shared, s': Shared, t: nat, b: Body)
    requires Glob(s) && t < |s.desc| && s.desc[t].mut.sn % 2 == 0
    requires s' == s.(desc := s.desc[t := s.desc[t].(body := b)])
    ensures Glob(s') && Rely(s, s', t)
  {
    forall h | h in s'.ops && h.Tag? ensures OpOk(s', h) {
      assert OpOk(s, h);
      FateFrame(s, s', h);
      OpFrame(s, s', h);
    }
    forall r: nat | r < |s'.ptr| ensures NodeOk(s', r) && FieldOk(s', r) {
      NodeFrame(s, s', r);
      assert FieldOk(s, r);
    }
  }

  lemma BuildWordOk(s: State, t: nat, s': State)
    requires Inv(s) && BuildWord(s, t, s')
    ensures Inv(s') && Grows(s.g, s'.g)
  {
    assert ThreadOk(s, t);
    BuildWordGlob(s.g, s'.g, t, s'.g.desc[t].body);
    ActorOk(s, t, s', Idle);
    InvAfterShared(s, t, s');
  }

  /** The three steps that settle something about an undecided SCX: its verdict
      or its all-frozen bit. */
  lemma FateGlob(s: Shared, s': Shared, h: Handle, o': Op, mut: Mutables, t: nat)
    requires Glob(s) && h in s.ops && h.Tag? && h.tid < |s.desc|
    requires s.ops[h].verdict == InProgress && h.sn == s.desc[h.tid].mut.sn
    requires OpGrows(s.ops[h], o') && o'.updated == s.ops[h].updated
    requires mut == Mutables(h.sn, o'.allFrozen, o'.verdict)
    requires s' == s.(desc := s.desc[h.tid := s.desc[h.tid].(mut := mut)], ops := s.ops[h := o'])
    requires FateOk(s', h)
    ensures Glob(s') && Rely(s, s', t)
  {
    hide BodyOk, Was, Next, Sealed, SeenAt, MarkedUpTo, BeforeUpdate, Dead;
    assert OpOk(s, h);
    FateRely(s, s', h, o', mut, t);
    hide DescGrow, NodesGrow;
    forall k | k in s'.ops && k.Tag? ensures OpOk(s', k) {
      assert OpOk(s, k);
      if k != h {
        FateFrame(s, s', k);
        FateTags(s, s', h, k);
      }
      OpFrame(s, s', k);
    }
    forall r: nat | r < |s'.ptr| ensures NodeOk(s', r) && FieldOk(s', r) {
      NodeFrame(s, s', r);
      assert FieldOk(s, r);
    }
  }

  lemma FateRely(s: Shared, s': Shared, h: Handle, o': Op, mut: Mutables, t: nat)
    requires h in s.ops && h.Tag? && h.tid < |s.desc| && mut.sn == s.desc[h.tid].mut.sn && mut.sn % 2 == 1
    requires OpGrows(s.ops[h], o')
    requires s' == s.(desc := s.desc[h.tid := s.desc[h.tid].(mut := mut)], ops := s.ops[h := o'])
    ensures Rely(s, s', t)
  {
    hide Decided;
  }

  lemma FateTags(s: Shared, s': Shared, h: Handle, k: Handle)
    requires h.Tag? && k.Tag? && h != k && h in s.ops && k in s.ops && TagOk(s, h) && TagOk(s, k)
    requires k in s'.ops && s'.ops[k] == s.ops[k] && |s'.desc| == |s.desc|
    requires forall u | 0 <= u < |s.desc| && u != h.tid :: s'.desc[u] == s.desc[u]
    requires h.sn == s.desc[h.tid].mut.sn == s'.desc[h.tid].mut.sn
    ensures TagOk(s', k)
  {
  }

  lemma AbortWriteCasOk(s: State, t: nat, s': State)
    requires Inv(s) && AbortWriteCas(s, t, s')
    ensures Inv(s') && Grows(s.g, s'.g)
  {
    hide BodyOk, Rely, Blocked, DescGrow;
    assert ThreadOk(s, t);
    var pc := s.th[t].pc;
    var h := pc.a.tag;
    assert OpOk(s.g, h);
    if s.g.desc[h.tid].mut == pc.v {
      DeadNotFrozen(s.g, h);
      if s.g.ops[h].verdict == InProgress {
        DeadFrame(s.g, s'.g, h, s.g.ops[h].body);
        var o' := s.g.ops[h].(verdict := Aborted);
        FateAfter(s.g, s'.g, h, o');
        FateGlob(s.g, s'.g, h, o', pc.v.(verdict := Aborted), t);
        SharedLeave(s, t, s', pc.a, false);
      } else {
        SameFate(s.g, h);
        assert s'.g == s.g;
        InvAfterLeave(s, t, s', pc.a, false);
      }
    } else {
      InvAfterPc(s, t, s', AbortRead(pc.a));
    }
  }

  /** Storing what is there already changes nothing. */
  lemma SameFate(s: Shared, h: Handle)
    requires h in s.ops && h.Tag? && h.tid < |s.desc|
    ensures s.(desc := s.desc[h.tid := s.desc[h.tid].(mut := s.desc[h.tid].mut)], ops := s.ops[h := s.ops[h]]) == s
  {
    assert s.desc[h.tid := s.desc[h.tid].(mut := s.desc[h.tid].mut)] == s.desc;
    assert s.ops[h := s.ops[h]] == s.ops;
  }

  lemma FateAfter(s: Shared, s': Shared, h: Handle, o': Op)
    requires h in s.ops && FateOk(s, h)
    requires s' == s.(desc := s'.desc, ops := s.ops[h := o'])
    requires OpGrows(s.ops[h], o') && o'.updated == s.ops[h].updated
    requires o'.verdict == Committed ==> o'.updated
    requires o'.verdict == Aborted ==> Dead(s, h, o'.body)
    requires o'.allFrozen ==> FrozenUpTo(s, h, o'.body, Num(o'.body))
    ensures FateOk(s', h)
  {
    DeadFrame(s, s', h, o'.body);
    forall r: nat | Was(s', h, r) ensures Was(s', h, NodeAt(o'.body, 0)) {
      assert Was(s, h, r);
    }
  }

  lemma SharedLeave(s: State, t: nat, s': State, a: Help, ok: bool)
    requires Inv(s) && t < |s.th| && Glob(s'.g) && Rely(s.g, s'.g, t)
    requires s'.th == Leave(s, t, a, ok).th
    requires t < |s'.g.desc|
    requires HelpOk(s.g, t, a) && (Owning(s.th[t].pc) <==> a.own) && s'.g.desc[t].mut.sn == s.g.desc[t].mut.sn
    requires a.own ==> s'.g.ops[a.tag].verdict == (if ok then Committed else Aborted)
    ensures Inv(s') && Grows(s.g, s'.g)
  {
    hide Glob, Rely;
    LeaverOk(s, t, s', a, ok);
    hide ThreadOk;
    InvAfterShared(s, t, s');
  }

  lemma LeaverOk(s: State, t: nat, s': State, a: Help, ok: bool)
    requires Inv(s) && t < |s.th| && Glob(s'.g) && Rely(s.g, s'.g, t)
    requires t < |s'.th| && s'.th[t] == Leave(s, t, a, ok).th[t] && |s'.th| == |s.th|
    requires t < |s'.g.desc|
    requires HelpOk(s.g, t, a) && (Owning(s.th[t].pc) <==> a.own) && s'.g.desc[t].mut.sn == s.g.desc[t].mut.sn
    requires a.own ==> s'.g.ops[a.tag].verdict == (if ok then Committed else Aborted)
    ensures ThreadOk(s', t)
  {
    hide Glob, Rely;
    assert ThreadOk(s, t);
    HelpGrows(s.g, s'.g, t, a);
    if a.own {
      ActorOk(s, t, s', Renew(a, ok));
    } else {
      KeptStable(s.g, s'.g, t, s.th[t]);
    }
  }

  lemma BitStoreGlob(s: Shared, s': Shared, t: nat, a: Help, v: Mutables)
    requires Glob(s) && HelpOkPc(s, t, BitCas(a, v)) && a.tag.tid < |s.desc| && s.desc[a.tag.tid].mut == v
    requires s.ops[a.tag].verdict == InProgress
    requires s' == s.(desc := s.desc[a.tag.tid := s.desc[a.tag.tid].(mut := v.(allFrozen := true))],
                      ops := s.ops[a.tag := s.ops[a.tag].(allFrozen := true)])
    ensures Glob(s') && Rely(s, s', t) && (t < |s.desc| ==> s'.desc[t].mut.sn == s.desc[t].mut.sn)
  {
    var o' := s.ops[a.tag].(allFrozen := true);
    assert OpOk(s, a.tag);
    FateAfter(s, s', a.tag, o');
    FateGlob(s, s', a.tag, o', v.(allFrozen := true), t);
  }

  lemma BitStoreOk(s: State, t: nat, s': State, a: Help)
    requires Inv(s) && BitWriteCas(s, t, s') && s.th[t].pc.a == a && s.g.desc[a.tag.tid].mut == s.th[t].pc.v
    requires s.g.ops[a.tag].verdict == InProgress
    ensures Inv(s') && Grows(s.g, s'.g)
  {
    hide NodesGrow, Shape, OpOk, NodeOk, Glob, Rely;
    assert ThreadOk(s, t);
    BitStoreGlob(s.g, s'.g, t, a, s.th[t].pc.v);
    HelpGrows(s.g, s'.g, t, a);
    ActorOk(s, t, s', Mark(a, 0));
    InvAfterShared(s, t, s');
  }

  lemma BitWriteCasOk(s: State, t: nat, s': State)
    requires Inv(s) && BitWriteCas(s, t, s')
    ensures Inv(s') && Grows(s.g, s'.g)
  {
    hide BodyOk, Shape, LlxOkPc, FrozenUpTo;
    assert ThreadOk(s, t);
    var pc := s.th[t].pc;
    var h := pc.a.tag;
    assert OpOk(s.g, h);
    if s.g.desc[h.tid].mut != pc.v {
      InvAfterPc(s, t, s', BitRead(pc.a));
    } else if s.g.ops[h].verdict == InProgress {
      BitStoreOk(s, t, s', pc.a);
    } else {
      if Dead(s.g, h, s.g.ops[h].body) {
        DeadNotFrozen(s.g, h);
      }
      SameFate(s.g, h);
      assert s'.g == s.g;
      InvAfterPc(s, t, s', Mark(pc.a, 0));
    }
  }

  /** An activation of help survives its own thread's steps. */
  lemma HelpGrows(s: Shared, s': Shared, t: nat, a: Help)
    requires Glob(s) && Glob(s') && Rely(s, s', t)
    requires HelpOk(s, t, a) && t < |s.desc| && s'.desc[t].mut.sn == s.desc[t].mut.sn
    ensures HelpOk(s', t, a)
  {
    assert OpGrows(s.ops[a.tag], s'.ops[a.tag]);
    if !a.own {
      LeftStable(s, s', t, a.tag, NodeAt(a.snap, 0));
    }
  }

  lemma CommitStoreOk(s: State, t: nat, s': State, a: Help)
    requires Inv(s) && CommitWriteCas(s, t, s') && s.th[t].pc.a == a && s.g.desc[a.tag.tid].mut == s.th[t].pc.v
    requires HelpOk(s.g, t, a) && s.g.ops[a.tag].verdict == InProgress
    ensures Inv(s') && Grows(s.g, s'.g)
  {
    hide BodyOk;
    assert ThreadOk(s, t);
    assert OpOk(s.g, a.tag);
    if Dead(s.g, a.tag, s.g.ops[a.tag].body) {
      DeadNotFrozen(s.g, a.tag);
    }
    var o' := s.g.ops[a.tag].(verdict := Committed);
    FateAfter(s.g, s'.g, a.tag, o');
    FateGlob(s.g, s'.g, a.tag, o', s.th[t].pc.v.(verdict := Committed), t);
    hide OpOk, Glob, Rely, FateOk;
    SharedLeave(s, t, s', a, true);
  }

  lemma CommitWriteCasOk(s: State, t: nat, s': State)
    requires Inv(s) && CommitWriteCas(s, t, s')
    ensures Inv(s') && Grows(s.g, s'.g)
  {
    hide BodyOk;
    assert ThreadOk(s, t);
    var pc := s.th[t].pc;
    var h := pc.a.tag;
    assert OpOk(s.g, h);
    if s.g.desc[h.tid].mut == pc.v {
      if s.g.ops[h].verdict == InProgress {
        CommitStoreOk(s, t, s', pc.a);
      } else {
        if Dead(s.g, h, s.g.ops[h].body) {
          DeadNotFrozen(s.g, h);
        }
        SameFate(s.g, h);
        assert s'.g == s.g;
        InvAfterLeave(s, t, s', pc.a, true);
      }
    } else {
      InvAfterPc(s, t, s', CommitRead(pc.a));
    }
  }

  lemma MarkGlob(s: Shared, s': Shared, t: nat, r: nat)
    requires Glob(s) && r < |s.marked| && s' == s.(marked := s.marked[r := true])
    ensures Glob(s') && Rely(s, s', t)
  {
    assert OpsGrow(s, s');
    forall h | h in s'.ops && h.Tag? ensures OpOk(s', h) {
      assert OpOk(s, h);
      FateFrame(s, s', h);
      OpFrame(s, s', h);
    }
    forall q: nat | q < |s'.ptr| ensures NodeOk(s', q) && FieldOk(s', q) {
      NodeFrame(s, s', q);
      assert FieldOk(s, q);
    }
  }

  lemma MarkOne(s: Shared, s': Shared, b: Body, j: nat)
    requires MarkedUpTo(s, b, j) && j < Num(b)
    requires |s'.marked| == |s.marked| && forall r: nat | r < |s.marked| && s.marked[r] :: s'.marked[r]
    requires FinalizeAt(b, j) ==> NodeAt(b, j) < |s'.marked| && s'.marked[NodeAt(b, j)]
    ensures MarkedUpTo(s', b, j + 1)
  {
  }

  lemma MarkStoreOk(s: State, t: nat, s': State, a: Help, j: nat)
    requires Inv(s) && t < |s.th| && s.th[t].pc == Mark(a, j)
    requires j < Num(a.snap) && NodeAt(a.snap, j) < |s.g.marked|
    requires s' == SetPc(s.(g := s.g.(marked := s.g.marked[NodeAt(a.snap, j) := true])), t, Mark(a, j + 1))
    ensures Inv(s') && Grows(s.g, s'.g)
  {
    hide BeforeUpdate, Shape, Glob, Was, MarkedUpTo, Num, NodeOk, OpsGrow, Blocked, DepOk;
    assert ThreadOk(s, t);
    MarkGlob(s.g, s'.g, t, NodeAt(a.snap, j));
    MarkOne(s.g, s'.g, a.snap, j);
    HelpGrows(s.g, s'.g, t, a);
    ActorOk(s, t, s', Mark(a, j + 1));
    InvAfterShared(s, t, s');
  }

  lemma MarkNodeOk(s: State, t: nat, s': State)
    requires Inv(s) && MarkNode(s, t, s')
    ensures Inv(s') && Grows(s.g, s'.g)
  {
    hide FinalizeAt, Glob;
    assert ThreadOk(s, t);
    var pc := s.th[t].pc;
    var b := pc.a.snap;
    if pc.j >= Num(b) {
      InvAfterPc(s, t, s', Update(pc.a));
    } else if !FinalizeAt(b, pc.j) {
      MarkOne(s.g, s.g, b, pc.j);
      hide MarkedUpTo, HelpOk, OpOk;
      InvAfterPc(s, t, s', Mark(pc.a, pc.j + 1));
    } else {
      MarkStoreOk(s, t, s', pc.a, pc.j);
    }
  }

  lemma RenewGlob(s: Shared, s': Shared, t: nat)
    requires Glob(s) && t < |s.desc| && s.desc[t].mut.sn % 2 == 1
    requires Tag(t, s.desc[t].mut.sn) in s.ops && Decided(s, Tag(t, s.desc[t].mut.sn))
    requires s' == s.(desc := s.desc[t := s.desc[t].(mut := Mutables(s.desc[t].mut.sn + 1, false, InProgress))])
    ensures Glob(s') && Rely(s, s', t)
  {
    assert OpsGrow(s, s');
    forall h | h in s'.ops && h.Tag? ensures OpOk(s', h) {
      assert OpOk(s, h);
      FateFrame(s, s', h);
      OpFrame(s, s', h);
    }
    forall q: nat | q < |s'.ptr| ensures NodeOk(s', q) && FieldOk(s', q) {
      NodeFrame(s, s', q);
      assert FieldOk(s, q);
    }
  }

  lemma RenewWriteOk(s: State, t: nat, s': State)
    requires Inv(s) && RenewWriteStep(s, t, s')
    ensures Inv(s') && Grows(s.g, s'.g)
  {
    hide Glob;
    assert ThreadOk(s, t);
    var pc := s.th[t].pc;
    assert pc.a.tag == Tag(t, s.g.desc[t].mut.sn);
    RenewGlob(s.g, s'.g, t);
    KeptStable(s.g, s'.g, t, s.th[t]);
    InvAfterShared(s, t, s');
  }

  /* ------------------------------------------------------ freezing a node */

  /** No tag is installed twice in a node. */
  lemma FirstTime(s: Shared, h: Handle, i: nat)
    requires Glob(s) && h in s.ops && h.Tag? && i < Num(s.ops[h].body)
    requires Carries(s, SeenAt(s.ops[h].body, i), NodeAt(s.ops[h].body, i))
    ensures !Was(s, h, NodeAt(s.ops[h].body, i))
  {
    var b := s.ops[h].body;
    var r := NodeAt(b, i);
    assert OpOk(s, h) && DepOk(s, h, b, i) && NodeOk(s, r);
    LastPrecedesNothing(s.hist[r], s.ptr[r], h);
    forall j: nat | j < Num(b) && NodeAt(b, j) == r ensures !Precedes(s, r, SeenAt(b, j), h) {
      assert SeenAt(b, j) == s.ptr[r];
    }
    if Was(s, h, r) {
      JoinedOver(s, h, r);
    }
  }

  lemma LastPrecedesNothing(hs: seq<Handle>, g: Handle, h: Handle)
    requires |hs| > 0 && hs[|hs| - 1] == g
    requires Distinct(hs)
    ensures !exists k :: 1 <= k < |hs| && hs[k] == h && hs[k - 1] == g
  {
  }

  /** The effect of a successful freezing CAS on the shared state. */
  ghost predicate Froze(s: Shared, s': Shared, h: Handle, i: nat) {
    && h in s.ops && h.Tag? && i < Num(s.ops[h].body)
    && var b := s.ops[h].body;
    && var r := NodeAt(b, i);
    && r < |s.ptr| && r < |s.hist| && s.ptr[r] == SeenAt(b, i)
    && s' == s.(ptr := s.ptr[r := h], hist := s.hist[r := s.hist[r] + [h]])
  }

  lemma FrozeNode(s: Shared, s': Shared, h: Handle, i: nat, q: nat)
    requires Glob(s) && Froze(s, s', h, i) && q < |s.ptr|
    ensures NodeOk(s', q)
  {
    var b := s.ops[h].body;
    var r := NodeAt(b, i);
    assert OpOk(s, h) && DepOk(s, h, b, i) && NodeOk(s, q);
    assert OpsGrow(s, s');
    if q != r {
      NodeFrame(s, s', q);
    } else {
      FirstTime(s, h, i);
      FrozeHistory(s, s', h, i);
    }
  }

  lemma FrozeHistory(s: Shared, s': Shared, h: Handle, i: nat)
    requires Froze(s, s', h, i)
    requires var r := NodeAt(s.ops[h].body, i); NodeOk(s, r) && !Was(s, h, r)
    requires DepOk(s, h, s.ops[h].body, i)
    ensures NodeOk(s', NodeAt(s.ops[h].body, i))
  {
    var b := s.ops[h].body;
    var r := NodeAt(b, i);
    var hs, hs' := s.hist[r], s'.hist[r];
    assert hs' == hs + [h];
    forall k | 0 <= k < |hs'| - 1 ensures Decided(s', hs'[k]) && !Sealed(s', hs'[k], r) {
      assert hs'[k] == hs[k];
      if k == |hs| - 1 {
        assert hs[k] == SeenAt(b, i);
      }
      assert Decided(s, hs[k]) && !Sealed(s, hs[k], r);
    }
    forall k | 1 <= k < |hs'| ensures Follows(s', hs'[k], r, hs'[k - 1]) {
      if k < |hs| {
        assert Follows(s, hs[k], r, hs[k - 1]);
      } else {
        assert hs'[k - 1] == SeenAt(b, i);
        assert i < Num(s'.ops[h].body) && NodeAt(s'.ops[h].body, i) == r && SeenAt(s'.ops[h].body, i) == hs'[k - 1];
      }
    }
  }

  /** After h froze its i-th node, a node carries k or what k has seen there only
      if it did so before. */
  lemma FrozeCarries(s: Shared, s': Shared, h: Handle, i: nat, k: Handle, j: nat)
    requires Glob(s) && Froze(s, s', h, i)
    requires k in s.ops && k.Tag? && j < Num(s.ops[k].body)
    ensures var b := s.ops[k].body; var q := NodeAt(b, j);
            && (Carries(s', SeenAt(b, j), q) ==> Carries(s, SeenAt(b, j), q))
            && (Carries(s', k, q) ==> Carries(s, k, q) || Carries(s, SeenAt(b, j), q))
            && (Was(s', k, q) ==> Was(s, k, q) || Carries(s, SeenAt(b, j), q))
  {
    var b := s.ops[k].body;
    assert OpOk(s, k) && DepOk(s, k, b, j);
    FirstTime(s, h, i);
  }

  lemma FrozeDead(s: Shared, s': Shared, h: Handle, i: nat, k: Handle)
    requires Glob(s) && Froze(s, s', h, i)
    requires k in s.ops && k.Tag? && Dead(s, k, s.ops[k].body)
    ensures Dead(s', k, s.ops[k].body)
  {
    var b := s.ops[k].body;
    var j: nat :| Blocked(s, k, b, j);
    FrozeCarries(s, s', h, i, k, j);
    assert Blocked(s', k, b, j);
  }

  lemma FrozeFate(s: Shared, s': Shared, h: Handle, i: nat, k: Handle)
    requires Glob(s) && Froze(s, s', h, i) && FrozenUpTo(s, h, s.ops[h].body, i)
    requires k in s.ops && k.Tag?
    ensures FateOk(s', k)
  {
    hide Dead;
    var b := s.ops[k].body;
    assert OpOk(s, k);
    if s.ops[k].verdict == Aborted {
      FrozeDead(s, s', h, i, k);
    }
    assert FrozenUpTo(s, h, s.ops[h].body, i);
    forall q: nat | Was(s', k, q) ensures Was(s', k, NodeAt(b, 0)) {
      if Was(s, k, q) {
        assert Was(s, k, NodeAt(b, 0));
      } else {
        assert k == h;
        if i > 0 {
          assert Was(s, h, NodeAt(b, 0));
        }
      }
    }
  }

  lemma FrozeBefore(s: Shared, s': Shared, h: Handle, i: nat, k: Handle)
    requires Glob(s) && Froze(s, s', h, i)
    requires k in s.ops && k.Tag? && !s.ops[k].updated
    ensures BeforeUpdate(s', k, s.ops[k].body, s.ops[k].snaps, s.ops[k].fi)
  {
    var o := s.ops[k];
    var b := o.body;
    assert OpOk(s, k);
    assert BeforeUpdate(s, k, b, o.snaps, o.fi);
    forall j: nat | j < Num(b) ensures SnapOk(s', k, b, o.snaps, j) {
      FrozeCarries(s, s', h, i, k, j);
      assert SnapOk(s, k, b, o.snaps, j);
    }
    FrozeCarries(s, s', h, i, k, o.fi);
    if Carries(s', k, FieldNode(b)) || Carries(s', SeenAt(b, o.fi), FieldNode(b)) {
      assert Carries(s, k, FieldNode(b)) || Carries(s, SeenAt(b, o.fi), FieldNode(b));
      assert Fresh(s', FieldNode(b), FieldOff(b), NewVal(b));
    }
  }

  lemma FrozeGlob(s: Shared, s': Shared, t: nat, h: Handle, i: nat)
    requires Glob(s) && Froze(s, s', h, i) && FrozenUpTo(s, h, s.ops[h].body, i)
    ensures Glob(s') && Rely(s, s', t)
  {
    assert OpsGrow(s, s');
    forall k | k in s'.ops && k.Tag? ensures OpOk(s', k) {
      var o := s.ops[k];
      assert OpOk(s, k);
      BodyFrame(s, s', k, o.body, o.snaps, o.fi);
      TagFrame(s, s', k);
      FrozeFate(s, s', h, i, k);
      if !o.updated {
        FrozeBefore(s, s', h, i, k);
      }
    }
    forall q: nat | q < |s'.ptr| ensures NodeOk(s', q) && FieldOk(s', q) {
      FrozeNode(s, s', h, i, q);
      assert FieldOk(s, q);
    }
  }

  /** The winner of a freezing CAS knows that the node carries the tag. */
  lemma FreezeWon(s: Shared, s': Shared, t: nat, a: Help, i: nat)
    requires Glob(s) && Glob(s') && Rely(s, s', t) && t < |s.desc| && s'.desc == s.desc
    requires HelpOkPc(s, t, Freeze(a, i)) && Froze(s, s', a.tag, i) && i < Num(a.snap)
    ensures HelpOkPc(s', t, Reread(a, i, true))
  {
    hide Rely;
    HelpGrows(s, s', t, a);
    FrozenStable(s, s', t, a.tag, a.snap, i);
  }

  lemma FreezeWinOk(s: State, t: nat, s': State, a: Help, i: nat)
    requires Inv(s) && t < |s.th| && s.th[t].pc == Freeze(a, i)
    requires Froze(s.g, s'.g, a.tag, i) && s'.th == s.th[t := s.th[t].(pc := Reread(a, i, true))]
    ensures Inv(s') && Grows(s.g, s'.g)
  {
    assert ThreadOk(s, t);
    FrozeGlob(s.g, s'.g, t, a.tag, i);
    FreezeWon(s.g, s'.g, t, a, i);
    hide Glob, Rely, HelpOk, FrozenUpTo;
    ActorOk(s, t, s', Reread(a, i, true));
    InvAfterShared(s, t, s');
  }

  lemma FreezeCasOk(s: State, t: nat, s': State)
    requires Inv(s) && FreezeCas(s, t, s')
    ensures Inv(s') && Grows(s.g, s'.g)
  {
    assert ThreadOk(s, t);
    var pc := s.th[t].pc;
    var b := pc.a.snap;
    if pc.i >= Num(b) {
      InvAfterPc(s, t, s', BitRead(pc.a));
    } else if s.g.ptr[NodeAt(b, pc.i)] == SeenAt(b, pc.i) {
      FreezeWinOk(s, t, s', pc.a, pc.i);
    } else {
      InvAfterPc(s, t, s', Reread(pc.a, pc.i, false));
    }
  }

  /* --------------------------------------------------------- the update CAS */

  lemma AllCarry(s: Shared, h: Handle, i: nat)
    requires Glob(s) && h in s.ops && h.Tag? && s.ops[h].allFrozen && s.ops[h].verdict == InProgress
    requires i < Num(s.ops[h].body)
    ensures Carries(s, h, NodeAt(s.ops[h].body, i))
  {
    assert OpOk(s, h);
    var r := NodeAt(s.ops[h].body, i);
    assert Was(s, h, r);
    if !Carries(s, h, r) {
      LeftDecided(s, h, r);
    }
  }

  /** The field of an all-frozen SCX has its old value exactly until the update. */
  lemma UpdateTruth(s: Shared, h: Handle)
    requires Glob(s) && h in s.ops && h.Tag? && s.ops[h].allFrozen
    ensures var b := s.ops[h].body;
            && FieldNode(b) < |s.mem| && FieldOff(b) < |s.mem[FieldNode(b)]|
            && (s.mem[FieldNode(b)][FieldOff(b)] == OldVal(b) <==> !s.ops[h].updated)
    ensures !s.ops[h].updated ==> s.ops[h].verdict == InProgress
  {
    var o := s.ops[h];
    var b := o.body;
    assert OpOk(s, h) && NodeAt(b, o.fi) == FieldNode(b);
    assert DepOk(s, h, b, o.fi);
    assert FieldOk(s, FieldNode(b));
    if !o.updated {
      if Dead(s, h, b) {
        DeadNotFrozen(s, h);
      }
      AllCarry(s, h, o.fi);
      assert SnapOk(s, h, b, o.snaps, o.fi);
    }
  }

  ghost predicate Updated(s: Shared, s': Shared, h: Handle) {
    && h in s.ops && h.Tag?
    && var b := s.ops[h].body;
    && var r := FieldNode(b);
    && var k := FieldOff(b);
    && r < |s.mem| && r < |s.past| && k < |s.mem[r]| && k < |s.past[r]|
    && s' == s.(mem := s.mem[r := s.mem[r][k := NewVal(b)]],
                past := s.past[r := s.past[r][k := s.past[r][k] + {OldVal(b)}]],
                ops := s.ops[h := s.ops[h].(updated := true)])
  }

  /** An SCX about to win its update CAS. */
  ghost predicate Ready(s: Shared, h: Handle) {
    && h in s.ops && h.Tag? && !s.ops[h].updated && s.ops[h].allFrozen && s.ops[h].verdict == InProgress
    && MarkedUpTo(s, s.ops[h].body, Num(s.ops[h].body))
  }

  lemma UpdatedFields(s: Shared, s': Shared, h: Handle, q: nat)
    requires Glob(s) && Ready(s, h) && Updated(s, s', h) && q < |s.ptr|
    ensures FieldOk(s', q)
  {
    var o := s.ops[h];
    assert OpOk(s, h) && FieldOk(s, q);
    AllCarry(s, h, o.fi);
    assert Carries(s, h, FieldNode(o.body));
    assert Fresh(s, FieldNode(o.body), FieldOff(o.body), NewVal(o.body));
    UpdateTruth(s, h);
  }

  lemma UpdatedOther(s: Shared, s': Shared, h: Handle, k: Handle, j: nat)
    requires Glob(s) && Ready(s, h) && Updated(s, s', h)
    requires k in s.ops && k.Tag? && k != h && j < Num(s.ops[k].body)
    requires NodeAt(s.ops[k].body, j) == FieldNode(s.ops[h].body)
    ensures !Carries(s', k, NodeAt(s.ops[k].body, j))
            && !Carries(s', SeenAt(s.ops[k].body, j), NodeAt(s.ops[k].body, j))
  {
    assert OpOk(s, h) && OpOk(s, k) && DepOk(s, k, s.ops[k].body, j);
    AllCarry(s, h, s.ops[h].fi);
  }

  lemma UpdatedBefore(s: Shared, s': Shared, h: Handle, k: Handle)
    requires Glob(s) && Ready(s, h) && Updated(s, s', h)
    requires k in s.ops && k.Tag? && k != h && !s.ops[k].updated
    ensures BeforeUpdate(s', k, s.ops[k].body, s.ops[k].snaps, s.ops[k].fi)
  {
    var o := s.ops[k];
    var b := o.body;
    assert OpOk(s, k);
    assert BeforeUpdate(s, k, b, o.snaps, o.fi);
    forall j: nat | j < Num(b) ensures SnapOk(s', k, b, o.snaps, j) {
      assert SnapOk(s, k, b, o.snaps, j);
      if NodeAt(b, j) == FieldNode(s.ops[h].body) {
        UpdatedOther(s, s', h, k, j);
      }
    }
    if FieldNode(b) == FieldNode(s.ops[h].body) {
      UpdatedOther(s, s', h, k, o.fi);
    } else if Carries(s', k, FieldNode(b)) || Carries(s', SeenAt(b, o.fi), FieldNode(b)) {
      assert Carries(s, k, FieldNode(b)) || Carries(s, SeenAt(b, o.fi), FieldNode(b));
      assert Fresh(s', FieldNode(b), FieldOff(b), NewVal(b));
    }
  }

  lemma UpdatedOp(s: Shared, s': Shared, h: Handle, k: Handle)
    requires Glob(s) && Ready(s, h) && Updated(s, s', h) && OpsGrow(s, s')
    requires k in s.ops && k.Tag?
    ensures OpOk(s', k)
  {
    var o := s.ops[k];
    assert OpOk(s, k);
    BodyFrame(s, s', k, o.body, o.snaps, o.fi);
    TagFrame(s, s', k);
    if k == h {
      DeadFrame(s, s', h, o.body);
      forall r: nat | Was(s', h, r) ensures Was(s', h, NodeAt(o.body, 0)) {
        assert Was(s, h, r);
      }
      assert AfterUpdate(s', o.body);
    } else {
      FateFrame(s, s', k);
      if o.updated {
        assert AfterUpdate(s, o.body);
        assert AfterUpdate(s', o.body);
      } else {
        UpdatedBefore(s, s', h, k);
      }
    }
  }

  lemma UpdatedGlob(s: Shared, s': Shared, t: nat, h: Handle)
    requires Glob(s) && Ready(s, h) && Updated(s, s', h)
    ensures Glob(s') && Rely(s, s', t)
  {
    assert OpOk(s, h);
    AllCarry(s, h, s.ops[h].fi);
    assert OpsGrow(s, s');
    forall k | k in s'.ops && k.Tag? ensures OpOk(s', k) {
      UpdatedOp(s, s', h, k);
    }
    forall q: nat | q < |s'.ptr| ensures NodeOk(s', q) && FieldOk(s', q) {
      NodeFrame(s, s', q);
      UpdatedFields(s, s', h, q);
    }
  }

  lemma UpdateWinOk(s: State, t: nat, s': State)
    requires Inv(s) && UpdateCas(s, t, s') && UpdateWins(s, t)
    ensures Inv(s') && Grows(s.g, s'.g)
  {
    hide Carries, Stuck, FieldOk, SeenAt, NodeOk, Rely, BeforeUpdate, OpsGrow, OpGrows, Glob, Shape, NodesGrow;
    assert ThreadOk(s, t);
    var a := s.th[t].pc.a;
    UpdateTruth(s.g, a.tag);
    assert Ready(s.g, a.tag) && Updated(s.g, s'.g, a.tag);
    UpdatedGlob(s.g, s'.g, t, a.tag);
    HelpGrows(s.g, s'.g, t, a);
    ActorOk(s, t, s', CommitRead(a));
    InvAfterShared(s, t, s');
  }

  lemma UpdateCasOk(s: State, t: nat, s': State)
    requires Inv(s) && UpdateCas(s, t, s')
    ensures Inv(s') && Grows(s.g, s'.g)
  {
    if UpdateWins(s, t) {
      UpdateWinOk(s, t, s');
    } else {
      hide Carries, Stuck, FieldOk, SeenAt, NodeOk, BeforeUpdate, Glob;
      assert ThreadOk(s, t);
      var a := s.th[t].pc.a;
      UpdateTruth(s.g, a.tag);
      InvAfterPc(s, t, s', CommitRead(a));
    }
  }

  /* ---------------------------------------------- publishing a descriptor */

  ghost predicate Published(s: Shared, s': Shared, t: nat, snaps: seq<map<nat, Value>>, fi: nat) {
    && t < |s.desc|
    && var b := s.desc[t].body;
    && var tag := Tag(t, s.desc[t].mut.sn + 1);
    && s' == s.(desc := s.desc[t := s.desc[t].(mut := Mutables(s.desc[t].mut.sn + 1, false, InProgress))],
                ops := s.ops[tag := Op(b, snaps, fi, InProgress, false, false)])
  }

  /** A tag that was not there before is nowhere. */
  lemma NewTag(s: Shared, t: nat, h: Handle)
    requires Glob(s) && t < |s.desc| && h == Tag(t, s.desc[t].mut.sn + 1)
    ensures h !in s.ops
    ensures forall r: nat :: !Was(s, h, r)
  {
    forall k | k in s.ops && k.Tag? ensures k != h {
      assert OpOk(s, k);
    }
    forall r: nat, k | Was(s, k, r) ensures k in s.ops {
      if r < |s.ptr| {
        assert NodeOk(s, r);
      }
    }
  }

  lemma PublishedBody(s: Shared, s': Shared, t: nat, h: Handle, b: Body, snaps: seq<map<nat, Value>>, fi: nat)
    requires InitializeOk(s, t, b, snaps, fi) && OpsGrow(s, s') && h !in s.ops
    requires s'.ptr == s.ptr && s'.hist == s.hist && s'.mem == s.mem
    ensures BodyOk(s', h, b, snaps, fi)
  {
    forall i: nat | i < Num(b) ensures DepOk(s', h, b, i) {
      assert HeldOk(s, NodeAt(b, i), Held(SeenAt(b, i), snaps[i]));
      SealedSame(s, s', SeenAt(b, i), NodeAt(b, i));
    }
  }

  lemma PublishedBefore(s: Shared, s': Shared, t: nat, h: Handle, b: Body, snaps: seq<map<nat, Value>>, fi: nat)
    requires Glob(s) && InitializeOk(s, t, b, snaps, fi) && forall r: nat :: !Was(s, h, r)
    requires s'.ptr == s.ptr && s'.mem == s.mem && s'.past == s.past
    ensures BeforeUpdate(s', h, b, snaps, fi)
  {
    forall i: nat | i < Num(b) ensures SnapOk(s', h, b, snaps, i) {
      assert HeldOk(s, NodeAt(b, i), Held(SeenAt(b, i), snaps[i]));
      NotCarried(s, h, NodeAt(b, i));
    }
    NotCarried(s, h, FieldNode(b));
    if Carries(s', SeenAt(b, fi), FieldNode(b)) {
      assert Carries(s, SeenAt(b, fi), FieldNode(b));
      assert Fresh(s', FieldNode(b), FieldOff(b), NewVal(b));
    }
  }

  lemma PublishedOp(s: Shared, s': Shared, t: nat, snaps: seq<map<nat, Value>>, fi: nat)
    requires Glob(s) && Published(s, s', t, snaps, fi) && s.desc[t].mut.sn % 2 == 0
    requires InitializeOk(s, t, s.desc[t].body, snaps, fi)
    ensures OpOk(s', Tag(t, s.desc[t].mut.sn + 1))
  {
    hide InitializeOk;
    var h := Tag(t, s.desc[t].mut.sn + 1);
    var b := s.desc[t].body;
    NewTag(s, t, h);
    assert OpsGrow(s, s');
    PublishedBody(s, s', t, h, b, snaps, fi);
    PublishedBefore(s, s', t, h, b, snaps, fi);
    assert forall r: nat :: Was(s', h, r) ==> Was(s, h, r);
  }

  lemma NotCarried(s: Shared, h: Handle, r: nat)
    requires Glob(s) && !Was(s, h, r)
    ensures !Carries(s, h, r)
  {
    if r < |s.ptr| {
      assert NodeOk(s, r);
    }
  }

  lemma PublishedTags(s: Shared, s': Shared, t: nat, snaps: seq<map<nat, Value>>, fi: nat, k: Handle)
    requires Published(s, s', t, snaps, fi) && s.desc[t].mut.sn % 2 == 0
    requires k in s.ops && TagOk(s, k) && k != Tag(t, s.desc[t].mut.sn + 1)
    ensures TagOk(s', k)
  {
  }

  lemma PublishedGlob(s: Shared, s': Shared, t: nat, snaps: seq<map<nat, Value>>, fi: nat)
    requires Glob(s) && Published(s, s', t, snaps, fi) && s.desc[t].mut.sn % 2 == 0
    requires InitializeOk(s, t, s.desc[t].body, snaps, fi)
    ensures Glob(s') && Rely(s, s', t)
  {
    var h := Tag(t, s.desc[t].mut.sn + 1);
    NewTag(s, t, h);
    assert OpsGrow(s, s');
    PublishedOp(s, s', t, snaps, fi);
    forall k | k in s'.ops && k.Tag? && k != h ensures OpOk(s', k) {
      assert OpOk(s, k);
      PublishedTags(s, s', t, snaps, fi, k);
      FateFrame(s, s', k);
      OpFrame(s, s', k);
    }
    forall q: nat | q < |s'.ptr| ensures NodeOk(s', q) && FieldOk(s', q) {
      NodeFrame(s, s', q);
      assert FieldOk(s, q);
    }
  }

  lemma InitializeWriteOk(s: State, t: nat, s': State)
    requires Inv(s) && InitializeWrite(s, t, s')
    ensures Inv(s') && Grows(s.g, s'.g)
  {
    hide InitializeOk, HeldOk, NodeOk;
    assert ThreadOk(s, t);
    var pc := s.th[t].pc;
    assert Published(s.g, s'.g, t, pc.snaps, pc.fi);
    PublishedGlob(s.g, s'.g, t, pc.snaps, pc.fi);
    ActorOk(s, t, s', s'.th[t].pc);
    InvAfterShared(s, t, s');
  }

  /* --------------------------------------------------------- fresh nodes */

  ghost predicate Allocated(s: Shared, s': Shared, vals: seq<Value>) {
    s' == s.(ptr := s.ptr + [InitHandle], marked := s.marked + [false], mem := s.mem + [vals],
             hist := s.hist + [[InitHandle]], past := s.past + [seq(|vals|, i => {})])
  }

  lemma AllocatedOp(s: Shared, s': Shared, vals: seq<Value>, k: Handle)
    requires Shape(s) && k in s.ops && k.Tag? && OpOk(s, k) && Allocated(s, s', vals)
    requires OpsGrow(s, s')
    ensures OpOk(s', k)
  {
    var o := s.ops[k];
    var b := o.body;
    BodyFrame(s, s', k, b, o.snaps, o.fi);
    TagFrame(s, s', k);
    forall i: nat | i < Num(b)
      ensures Was(s', k, NodeAt(b, i)) <==> Was(s, k, NodeAt(b, i))
      ensures Carries(s', k, NodeAt(b, i)) <==> Carries(s, k, NodeAt(b, i))
      ensures Carries(s', SeenAt(b, i), NodeAt(b, i)) <==> Carries(s, SeenAt(b, i), NodeAt(b, i))
    {
      assert DepOk(s, k, b, i);
    }
    AllocatedFate(s, s', vals, k);
    if !o.updated {
      forall i: nat | i < Num(b) ensures SnapOk(s', k, b, o.snaps, i) {
        assert SnapOk(s, k, b, o.snaps, i) && DepOk(s, k, b, i);
      }
      if Carries(s', k, FieldNode(b)) || Carries(s', SeenAt(b, o.fi), FieldNode(b)) {
        assert Carries(s, k, FieldNode(b)) || Carries(s, SeenAt(b, o.fi), FieldNode(b));
        assert Fresh(s', FieldNode(b), FieldOff(b), NewVal(b));
      }
      assert BeforeUpdate(s', k, b, o.snaps, o.fi);
    } else {
      assert AfterUpdate(s', b);
    }
  }

  lemma AllocatedFate(s: Shared, s': Shared, vals: seq<Value>, k: Handle)
    requires Shape(s) && k in s.ops && k.Tag? && OpOk(s, k) && Allocated(s, s', vals)
    ensures FateOk(s', k)
  {
    var o := s.ops[k];
    var b := o.body;
    if Dead(s, k, b) {
      var i: nat :| Blocked(s, k, b, i);
      assert DepOk(s, k, b, i);
      assert Blocked(s', k, b, i);
    }
    forall r: nat | Was(s', k, r) ensures Was(s', k, NodeAt(b, 0)) {
      assert Was(s, k, r);
    }
  }

  lemma AllocatedGlob(s: Shared, s': Shared, vals: seq<Value>, t: nat)
    requires Glob(s) && Allocated(s, s', vals)
    ensures Glob(s') && Rely(s, s', t)
  {
    assert OpsGrow(s, s');
    forall k | k in s'.ops && k.Tag? ensures OpOk(s', k) {
      AllocatedOp(s, s', vals, k);
    }
    forall q: nat | q < |s'.ptr| ensures NodeOk(s', q) && FieldOk(s', q) {
      if q < |s.ptr| {
        NodeFrame(s, s', q);
        assert FieldOk(s, q);
      }
    }
  }

  lemma AllocNodeOk(s: State, s': State)
    requires Inv(s) && AllocNode(s, s')
    ensures Inv(s') && Grows(s.g, s'.g)
  {
    var vals: seq<Value> :| s' == Allocate(s, vals);
    var t := |s.th|;
    AllocatedGlob(s.g, s'.g, vals, t);
    forall u: nat | u < |s'.th| ensures ThreadOk(s', u) {
      ThreadStable(s, s', t, u);
    }
  }

  /* ------------------------------------------------------------------ runs */

  lemma InitOk(s: State)
    requires Init(s)
    ensures Inv(s)
  {
  }

  lemma LocalStepOk(s: State, t: nat, s': State)
    requires Inv(s) && LocalStep(s, t, s')
    ensures Inv(s') && Grows(s.g, s'.g)
  {
    if LlxReadMarkedAgain(s, t, s') { LlxReadMarkedAgainOk(s, t, s'); }
    else if LlxCopyField(s, t, s') { LlxCopyFieldOk(s, t, s'); }
    else if LlxVerify(s, t, s') { LlxVerifyOk(s, t, s'); }
    else if SnapshotWord(s, t, s') { SnapshotWordOk(s, t, s'); }
    else if SnapshotCheck(s, t, s') { SnapshotCheckOk(s, t, s'); }
    else if InitializeRead(s, t, s') { InitializeReadOk(s, t, s'); }
    else if FreezeReread(s, t, s') { FreezeRereadOk(s, t, s'); }
    else if ReadFrozenBit(s, t, s') { ReadFrozenBitOk(s, t, s'); }
    else if AbortWriteRead(s, t, s') { AbortWriteReadOk(s, t, s'); }
    else if BitWriteRead(s, t, s') { BitWriteReadOk(s, t, s'); }
    else if CommitWriteRead(s, t, s') { CommitWriteReadOk(s, t, s'); }
    else if RenewReadStep(s, t, s') { RenewReadOk(s, t, s'); }
    else { LlxReadOk(s, t, s'); }
  }

  lemma SharedStepOk(s: State, t: nat, s': State)
    requires Inv(s) && SharedStep(s, t, s')
    ensures Inv(s') && Grows(s.g, s'.g)
  {
    if BuildWord(s, t, s') { BuildWordOk(s, t, s'); }
    else if InitializeWrite(s, t, s') { InitializeWriteOk(s, t, s'); }
    else if FreezeCas(s, t, s') { FreezeCasOk(s, t, s'); }
    else if AbortWriteCas(s, t, s') { AbortWriteCasOk(s, t, s'); }
    else if BitWriteCas(s, t, s') { BitWriteCasOk(s, t, s'); }
    else if MarkNode(s, t, s') { MarkNodeOk(s, t, s'); }
    else if UpdateCas(s, t, s') { UpdateCasOk(s, t, s'); }
    else if CommitWriteCas(s, t, s') { CommitWriteCasOk(s, t, s'); }
    else { RenewWriteOk(s, t, s'); }
  }

  lemma NextOk(s: State, s': State)
    requires Inv(s) && Next(s, s')
    ensures Inv(s') && Grows(s.g, s'.g)
  {
    if AllocNode(s, s') {
      AllocNodeOk(s, s');
    } else {
      var t: nat :| ThreadStep(s, t, s');
      if LocalStep(s, t, s') {
        LocalStepOk(s, t, s');
      } else {
        SharedStepOk(s, t, s');
      }
    }
  }

  lemma StepKeeps(run: seq<State>, i: nat)
    requires StepAt(run, i) && Inv(run[i])
    ensures Inv(run[i + 1]) && Grows(run[i].g, run[i + 1].g)
  {
    NextOk(run[i], run[i + 1]);
  }

  lemma {:induction false} RunOk(run: seq<State>, i: nat)
    requires Run(run) && i < |run|
    ensures Inv(run[i])
  {
    hide Inv, StepAt;
    if i == 0 {
      InitOk(run[0]);
    } else {
      RunOk(run, i - 1);
      assert StepAt(run, i - 1);
      StepKeeps(run, i - 1);
    }
  }
}
