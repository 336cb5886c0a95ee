/** Marked nodes are finalised: what `llx` promises when it returns FINALIZED. */
module ScxFinalization {

  import opened ScxModel
  import opened ScxSafety

  /** The all-frozen SCX h finalises node r. */
  ghost predicate Finalizer(g: Shared, h: Handle, r: nat) {
    h in g.ops && h.Tag? && g.ops[h].allFrozen && Finalizes(g.ops[h].body, r)
  }

  ghost predicate Marked(g: Shared, r: nat) {
    r < |g.marked| && g.marked[r]
  }

  ghost predicate HasFinalizer(g: Shared, r: nat) {
    exists h :: Finalizer(g, h, r)
  }

  /** A mark that was read is the mark of a finalised node. */
  ghost predicate Noticed(g: Shared, pc: Pc) {
    match pc
    case LlxPtr(r, m) => m ==> Marked(g, r)
    case LlxState(r, m, h) => m ==> Marked(g, r) && Finalizer(g, h, r)
    case LlxCheck(r, m, h) => m ==> Marked(g, r) && Finalizer(g, h, r)
    case LlxCopy(_, m, _, _) => !m
    case Snapshot(r, m, h, _, _) => m ==> Finalizer(g, h, r)
    case Freeze(a, _) => HelpNoticed(g, a)
    case Reread(a, _, _) => HelpNoticed(g, a)
    case ReadFrozen(a, _) => HelpNoticed(g, a)
    case AbortRead(a) => HelpNoticed(g, a)
    case AbortCas(a, _) => HelpNoticed(g, a)
    case BitRead(a) => HelpNoticed(g, a)
    case BitCas(a, _) => HelpNoticed(g, a)
    case Mark(a, _) => HelpNoticed(g, a)
    case Update(a) => HelpNoticed(g, a)
    case CommitRead(a) => HelpNoticed(g, a)
    case CommitCas(a, _) => HelpNoticed(g, a)
    case _ => true
  }

  ghost predicate HelpNoticed(g: Shared, a: Help) {
    a.m ==> Finalizer(g, a.tag, a.r)
  }

  ghost predicate Returned(g: Shared, ret: Result) {
    ret.LlxFail? && ret.finalized ==> IsSealed(g, ret.r)
  }

  /** Some committed SCX has finalised the node. */
  ghost predicate IsSealed(g: Shared, r: nat) {
    exists h :: Sealed(g, h, r)
  }

  ghost predicate FinalInv(s: State) {
    && (forall r: nat | Marked(s.g, r) :: HasFinalizer(s.g, r))
    && (forall t: nat | t < |s.th| :: Noticed(s.g, s.th[t].pc) && Returned(s.g, s.th[t].ret))
  }

  /* ------------------------------------------------------------ what stays */

  ghost predicate Keeps(g: Shared, g': Shared) {
    OpsGrow(g, g') && forall r: nat | Marked(g, r) :: Marked(g', r)
  }

  lemma FinalizerStays(g: Shared, g': Shared, h: Handle, r: nat)
    requires OpsGrow(g, g') && Finalizer(g, h, r)
    ensures Finalizer(g', h, r)
  {
    assert OpGrows(g.ops[h], g'.ops[h]);
  }

  lemma SealStays(g: Shared, g': Shared, r: nat)
    requires OpsGrow(g, g') && IsSealed(g, r)
    ensures IsSealed(g', r)
  {
    var h :| Sealed(g, h, r);
    assert OpGrows(g.ops[h], g'.ops[h]);
    assert Sealed(g', h, r);
  }

  lemma NoticedStays(g: Shared, g': Shared, x: Thread)
    requires Keeps(g, g') && Noticed(g, x.pc) && Returned(g, x.ret)
    ensures Noticed(g', x.pc) && Returned(g', x.ret)
  {
    forall h, r | Finalizer(g, h, r) ensures Finalizer(g', h, r) {
      FinalizerStays(g, g', h, r);
    }
    forall r | IsSealed(g, r) ensures IsSealed(g', r) {
      SealStays(g, g', r);
    }
  }

  /* --------------------------------------------------- what a finalizer does */

  /** A node carries the tag of its finalizer from the freezing on. */
  lemma FinalizerCarried(g: Shared, h: Handle, r: nat)
    requires Glob(g) && Finalizer(g, h, r)
    ensures Carries(g, h, r) && g.ops[h].verdict != Aborted
    ensures Decided(g, h) ==> Sealed(g, h, r)
  {
    assert OpOk(g, h);
    if Dead(g, h, g.ops[h].body) {
      DeadNotFrozen(g, h);
    }
    var i: nat :| i < Num(g.ops[h].body) && NodeAt(g.ops[h].body, i) == r && FinalizeAt(g.ops[h].body, i);
    assert Was(g, h, NodeAt(g.ops[h].body, i));
    if !Carries(g, h, r) {
      LeftDecided(g, h, r);
    }
  }

  lemma MarkedCarries(g: Shared, h: Handle, r: nat)
    requires Glob(g) && HasFinalizer(g, r) && r < |g.ptr| && g.ptr[r] == h
    ensures Finalizer(g, h, r)
  {
    var k :| Finalizer(g, k, r);
    FinalizerCarried(g, k, r);
  }

  /* ------------------------------------------------------------------ steps */

  /** What a step leaves as it is. */
  ghost predicate Frame(s: State, t: nat, s': State) {
    && t < |s.th| == |s'.th| && (forall u: nat | u < |s.th| && u != t :: s'.th[u] == s.th[u])
    && (s'.g.marked == s.g.marked || MarkNode(s, t, s'))
  }

  ghost predicate Looking(s: State, t: nat) {
    t < |s.th| && (s.th[t].pc.Idle? || s.th[t].pc.LlxMarked? || s.th[t].pc.LlxPtr? || s.th[t].pc.LlxState?
                   || s.th[t].pc.LlxCheck? || s.th[t].pc.LlxCopy? || s.th[t].pc.Snapshot?)
  }

  lemma LookingFrame(s: State, t: nat, s': State)
    requires LocalStep(s, t, s') && Looking(s, t)
    ensures Frame(s, t, s')
  {
  }

  lemma HelpingFrame(s: State, t: nat, s': State)
    requires LocalStep(s, t, s') && !Looking(s, t)
    ensures Frame(s, t, s')
  {
  }

  lemma LocalFrame(s: State, t: nat, s': State)
    requires LocalStep(s, t, s')
    ensures Frame(s, t, s')
  {
    hide LocalStep, Frame;
    if Looking(s, t) {
      LookingFrame(s, t, s');
    } else {
      HelpingFrame(s, t, s');
    }
  }

  lemma SharedFrame(s: State, t: nat, s': State)
    requires SharedStep(s, t, s')
    ensures Frame(s, t, s')
  {
  }

  lemma StepFrame(s: State, t: nat, s': State)
    requires ThreadStep(s, t, s')
    ensures Frame(s, t, s')
  {
    hide LocalStep, SharedStep, Frame;
    if LocalStep(s, t, s') {
      LocalFrame(s, t, s');
    } else {
      SharedFrame(s, t, s');
    }
  }

  lemma LlxNoticed(s: State, t: nat, s': State)
    requires Inv(s) && FinalInv(s)
    requires LlxBegin(s, t, s') || LlxReadMarked(s, t, s') || LlxReadPtr(s, t, s') || LlxCopyField(s, t, s')
             || LlxVerify(s, t, s')
    ensures Noticed(s'.g, s'.th[t].pc) && Returned(s'.g, s'.th[t].ret)
  {
    hide Glob, ThreadOk, Finalizer, HasFinalizer;
    if LlxReadPtr(s, t, s') && s.th[t].pc.m {
      MarkedCarries(s.g, s.g.ptr[s.th[t].pc.r], s.th[t].pc.r);
    }
  }

  lemma StateNoticed(s: State, t: nat, s': State)
    requires Inv(s) && FinalInv(s) && LlxReadState(s, t, s')
    ensures Noticed(s'.g, s'.th[t].pc) && Returned(s'.g, s'.th[t].ret)
  {
    hide Glob, HasFinalizer;
    var pc := s.th[t].pc;
    if pc.m {
      FinalizerCarried(s.g, pc.h, pc.r);
      SeenVerdictOk(s.g, s, pc.h);
    }
  }

  lemma AgainNoticed(s: State, t: nat, s': State)
    requires Inv(s) && FinalInv(s) && LlxReadMarkedAgain(s, t, s')
    ensures Noticed(s'.g, s'.th[t].pc) && Returned(s'.g, s'.th[t].ret)
  {
    hide Glob, HasFinalizer, Finalizer;
    assert ThreadOk(s, t);
    if s.th[t].pc.m {
      FinalizerCarried(s.g, s.th[t].pc.h, s.th[t].pc.r);
    }
  }

  lemma SnapshotNoticed(s: State, t: nat, s': State)
    requires Inv(s) && FinalInv(s) && (SnapshotWord(s, t, s') || SnapshotCheck(s, t, s'))
    ensures Noticed(s'.g, s'.th[t].pc) && Returned(s'.g, s'.th[t].ret)
  {
    hide SeenAt, BodyOk, AfterUpdate, NodeAt, Distinct, HasFinalizer, Finalizer;
    var pc := s.th[t].pc;
    assert ThreadOk(s, t);
    assert OpOk(s.g, pc.h);
    if pc.m {
      FinalizerCarried(s.g, pc.h, pc.r);
    }
  }

  /** `help` returns, and the operation it helped is decided. */
  lemma LeaveNoticed(s: State, t: nat, s': State, a: Help, ok: bool)
    requires t < |s.th| && t < |s'.th| && Returned(s'.g, s.th[t].ret) && s'.th[t] == Leave(s, t, a, ok).th[t]
    requires Glob(s'.g) && HelpNoticed(s'.g, a) && (a.m ==> Decided(s'.g, a.tag))
    ensures Noticed(s'.g, s'.th[t].pc) && Returned(s'.g, s'.th[t].ret)
  {
    hide Glob, Finalizer;
    if a.m {
      FinalizerCarried(s'.g, a.tag, a.r);
    }
  }

  lemma HelpReadNoticed(s: State, t: nat, s': State)
    requires Inv(s) && FinalInv(s)
    requires FreezeReread(s, t, s') || BitWriteRead(s, t, s') || RenewReadStep(s, t, s') || InitializeRead(s, t, s')
    ensures Noticed(s'.g, s'.th[t].pc) && Returned(s'.g, s'.th[t].ret)
  {
    hide Glob, HasFinalizer, Finalizer, ThreadOk;
  }

  /** The descriptor shows that an operation is decided, or it has moved on. */
  lemma VerdictSeen(g: Shared, h: Handle)
    requires Glob(g) && h in g.ops && h.Tag? && h.tid < |g.desc|
    requires g.desc[h.tid].mut.sn != h.sn || g.desc[h.tid].mut.verdict != InProgress
    ensures Decided(g, h)
  {
    assert OpOk(g, h);
  }

  lemma FrozenSeen(g: Shared, h: Handle, i: nat)
    requires Glob(g) && h in g.ops && h.Tag? && h.tid < |g.desc| && i < Num(g.ops[h].body)
    requires Stuck(g, h, g.ops[h].body, i) && (g.desc[h.tid].mut.sn != h.sn || g.desc[h.tid].mut.allFrozen)
    ensures Decided(g, h)
  {
    assert OpOk(g, h);
    StuckFate(g, h, i);
  }

  lemma ReadFrozenNoticed(s: State, t: nat, s': State)
    requires t < |s.th| && t < |s'.th| && Inv(s) && FinalInv(s) && ReadFrozenBit(s, t, s')
    ensures Noticed(s'.g, s'.th[t].pc) && Returned(s'.g, s'.th[t].ret)
  {
    var pc := s.th[t].pc;
    assert ThreadOk(s, t);
    assert OpOk(s.g, pc.a.tag);
    hide HasFinalizer, Finalizer, Glob, OpOk, Stuck;
    var mut := s.g.desc[pc.a.tag.tid].mut;
    if mut.sn != pc.a.tag.sn || mut.allFrozen {
      FrozenSeen(s.g, pc.a.tag, pc.i);
      LeaveNoticed(s, t, s', pc.a, mut.sn == pc.a.tag.sn);
    }
  }

  lemma AbortReadNoticed(s: State, t: nat, s': State)
    requires t < |s.th| && t < |s'.th| && Inv(s) && FinalInv(s) && AbortWriteRead(s, t, s')
    ensures Noticed(s'.g, s'.th[t].pc) && Returned(s'.g, s'.th[t].ret)
  {
    var a := s.th[t].pc.a;
    assert ThreadOk(s, t);
    assert OpOk(s.g, a.tag);
    hide HasFinalizer, Finalizer, Glob, OpOk, Dead;
    var v := s.g.desc[a.tag.tid].mut;
    if v.sn != a.msn || v.verdict == Aborted {
      VerdictSeen(s.g, a.tag);
      LeaveNoticed(s, t, s', a, false);
    }
  }

  lemma CommitReadNoticed(s: State, t: nat, s': State)
    requires t < |s.th| && t < |s'.th| && Inv(s) && FinalInv(s) && CommitWriteRead(s, t, s')
    ensures Noticed(s'.g, s'.th[t].pc) && Returned(s'.g, s'.th[t].ret)
  {
    var a := s.th[t].pc.a;
    assert ThreadOk(s, t);
    assert OpOk(s.g, a.tag);
    hide HasFinalizer, Finalizer, Glob, OpOk;
    var v := s.g.desc[a.tag.tid].mut;
    if v.sn != a.msn || v.verdict == Committed {
      VerdictSeen(s.g, a.tag);
      hide ThreadOk, OpOk;
      LeaveNoticed(s, t, s', a, true);
    }
  }

  lemma LocalNoticed(s: State, t: nat, s': State)
    requires t < |s.th| && t < |s'.th|
    requires Inv(s) && FinalInv(s) && LocalStep(s, t, s')
    ensures Noticed(s'.g, s'.th[t].pc) && Returned(s'.g, s'.th[t].ret)
  {
    hide Inv, FinalInv, Noticed, Returned;
    if LlxReadState(s, t, s') { StateNoticed(s, t, s'); }
    else if LlxReadMarkedAgain(s, t, s') { AgainNoticed(s, t, s'); }
    else if SnapshotWord(s, t, s') || SnapshotCheck(s, t, s') { SnapshotNoticed(s, t, s'); }
    else if ReadFrozenBit(s, t, s') { ReadFrozenNoticed(s, t, s'); }
    else if AbortWriteRead(s, t, s') { AbortReadNoticed(s, t, s'); }
    else if CommitWriteRead(s, t, s') { CommitReadNoticed(s, t, s'); }
    else if FreezeReread(s, t, s') || BitWriteRead(s, t, s') || RenewReadStep(s, t, s') || InitializeRead(s, t, s') {
      HelpReadNoticed(s, t, s');
    } else {
      LlxNoticed(s, t, s');
    }
  }

  lemma HelpStays(g: Shared, g': Shared, a: Help)
    requires OpsGrow(g, g') && HelpNoticed(g, a)
    ensures HelpNoticed(g', a)
  {
    if a.m {
      FinalizerStays(g, g', a.tag, a.r);
    }
  }

  lemma ReturnStays(g: Shared, g': Shared, ret: Result)
    requires OpsGrow(g, g') && Returned(g, ret)
    ensures Returned(g', ret)
  {
    if ret.LlxFail? && ret.finalized {
      SealStays(g, g', ret.r);
    }
  }

  /** The two writes after which `help` may return. */
  lemma VerdictNoticed(s: State, t: nat, s': State)
    requires Inv(s) && FinalInv(s) && Inv(s') && OpsGrow(s.g, s'.g)
             && (AbortWriteCas(s, t, s') || CommitWriteCas(s, t, s'))
    ensures Noticed(s'.g, s'.th[t].pc) && Returned(s'.g, s'.th[t].ret)
  {
    hide HasFinalizer, Finalizer, Glob, OpsGrow;
    var pc := s.th[t].pc;
    ReturnStays(s.g, s'.g, s.th[t].ret);
    HelpStays(s.g, s'.g, pc.a);
    if s.g.desc[pc.a.tag.tid].mut == pc.v {
      LeaveNoticed(s, t, s', pc.a, pc.CommitCas?);
    }
  }

  lemma OwnerNoticed(s: State, t: nat, s': State)
    requires FinalInv(s) && OpsGrow(s.g, s'.g) && t < |s.th| && t < |s'.th|
    requires BuildWord(s, t, s') || InitializeWrite(s, t, s') || RenewWriteStep(s, t, s')
    ensures Noticed(s'.g, s'.th[t].pc) && Returned(s'.g, s'.th[t].ret)
  {
    hide HasFinalizer, Finalizer, OpsGrow;
    ReturnStays(s.g, s'.g, s.th[t].ret);
  }

  lemma HelperNoticed(s: State, t: nat, s': State)
    requires FinalInv(s) && OpsGrow(s.g, s'.g) && t < |s.th| && t < |s'.th|
    requires FreezeCas(s, t, s') || BitWriteCas(s, t, s') || MarkNode(s, t, s') || UpdateCas(s, t, s')
    ensures Noticed(s'.g, s'.th[t].pc) && Returned(s'.g, s'.th[t].ret)
  {
    hide HasFinalizer, Finalizer, OpsGrow;
    ReturnStays(s.g, s'.g, s.th[t].ret);
    HelpStays(s.g, s'.g, s.th[t].pc.a);
  }

  lemma SharedNoticed(s: State, t: nat, s': State)
    requires t < |s.th| && t < |s'.th|
    requires Inv(s) && FinalInv(s) && Inv(s') && OpsGrow(s.g, s'.g) && SharedStep(s, t, s')
    ensures Noticed(s'.g, s'.th[t].pc) && Returned(s'.g, s'.th[t].ret)
  {
    hide Inv, FinalInv, Noticed, Returned, OpsGrow;
    if AbortWriteCas(s, t, s') || CommitWriteCas(s, t, s') {
      VerdictNoticed(s, t, s');
    } else if BuildWord(s, t, s') || InitializeWrite(s, t, s') || RenewWriteStep(s, t, s') {
      OwnerNoticed(s, t, s');
    } else {
      HelperNoticed(s, t, s');
    }
  }

  /** A mark is set only by a helper of an all-frozen SCX that finalises the node. */
  lemma MarksKept(s: State, t: nat, s': State, r: nat)
    requires Inv(s) && FinalInv(s) && OpsGrow(s.g, s'.g) && MarkNode(s, t, s') && Marked(s'.g, r)
    ensures HasFinalizer(s'.g, r)
  {
    if Marked(s.g, r) {
      var h :| Finalizer(s.g, h, r);
      FinalizerStays(s.g, s'.g, h, r);
    } else {
      assert ThreadOk(s, t);
      var a := s.th[t].pc.a;
      assert Finalizer(s.g, a.tag, r);
      FinalizerStays(s.g, s'.g, a.tag, r);
    }
  }

  lemma SameMarks(g: Shared, g': Shared, r: nat)
    requires OpsGrow(g, g') && HasFinalizer(g, r)
    ensures HasFinalizer(g', r)
  {
    var h :| Finalizer(g, h, r);
    FinalizerStays(g, g', h, r);
  }

  lemma ThreadFinal(s: State, t: nat, s': State)
    requires Inv(s) && FinalInv(s) && Inv(s') && OpsGrow(s.g, s'.g) && ThreadStep(s, t, s')
    ensures FinalInv(s')
  {
    hide Inv, Noticed, Returned, LocalStep, SharedStep, OpsGrow, MarkNode, HasFinalizer;
    StepFrame(s, t, s');
    forall r: nat | Marked(s'.g, r) ensures HasFinalizer(s'.g, r) {
      if MarkNode(s, t, s') {
        MarksKept(s, t, s', r);
      } else {
        SameMarks(s.g, s'.g, r);
      }
    }
    MarksStay(s, t, s');
    forall u: nat | u < |s'.th| ensures Noticed(s'.g, s'.th[u].pc) && Returned(s'.g, s'.th[u].ret) {
      if u != t {
        NoticedStays(s.g, s'.g, s.th[u]);
      } else if LocalStep(s, t, s') {
        LocalNoticed(s, t, s');
      } else {
        SharedNoticed(s, t, s');
      }
    }
  }

  lemma MarksStay(s: State, t: nat, s': State)
    requires ThreadStep(s, t, s')
    ensures forall r: nat | Marked(s.g, r) :: Marked(s'.g, r)
  {
    StepFrame(s, t, s');
  }

  lemma AllocFinal(s: State, s': State)
    requires FinalInv(s) && OpsGrow(s.g, s'.g) && AllocNode(s, s')
    ensures FinalInv(s')
  {
    hide Noticed, Returned, OpsGrow, HasFinalizer;
    forall r: nat | Marked(s'.g, r) ensures HasFinalizer(s'.g, r) {
      SameMarks(s.g, s'.g, r);
    }
    forall u: nat | u < |s'.th| ensures Noticed(s'.g, s'.th[u].pc) && Returned(s'.g, s'.th[u].ret) {
      NoticedStays(s.g, s'.g, s.th[u]);
    }
  }

  lemma InitFinal(s: State)
    requires Init(s)
    ensures FinalInv(s)
  {
  }

  lemma {:induction false} RunFinal(run: seq<State>, i: nat)
    requires Run(run) && i < |run|
    ensures FinalInv(run[i])
  {
    hide Inv, FinalInv, ThreadStep, Grows, AllocNode, Init;
    if i == 0 {
      InitFinal(run[0]);
    } else {
      RunFinal(run, i - 1);
      RunOk(run, i - 1);
      RunOk(run, i);
      assert StepAt(run, i - 1);
      StepKeeps(run, i - 1);
      RecordsGrow(run[i - 1].g, run[i].g);
      if AllocNode(run[i - 1], run[i]) {
        AllocFinal(run[i - 1], run[i]);
      } else {
        var t: nat :| ThreadStep(run[i - 1], t, run[i]);
        ThreadFinal(run[i - 1], t, run[i]);
      }
    }
  }

  lemma RecordsGrow(g: Shared, g': Shared)
    requires Grows(g, g')
    ensures OpsGrow(g, g')
  {
  }

  /** When `llx` on a node returns FINALIZED, a committed SCX has finalised that node. */
  lemma FinalizedIsTrue(run: seq<State>, i: nat, t: nat)
    requires Run(run) && i < |run| && t < |run[i].th|
    requires run[i].th[t].ret.LlxFail? && run[i].th[t].ret.finalized
    ensures exists h :: Sealed(run[i].g, h, run[i].th[t].ret.r)
  {
    RunFinal(run, i);
    assert Returned(run[i].g, run[i].th[t].ret);
  }

  /** A marked node carries the tag of an all-frozen SCX that finalises it. */
  lemma MarkedIsFrozen(run: seq<State>, i: nat, r: nat)
    requires Run(run) && i < |run| && r < |run[i].g.marked| && run[i].g.marked[r]
    ensures exists h :: Finalizer(run[i].g, h, r) && Carries(run[i].g, h, r)
  {
    RunFinal(run, i);
    RunOk(run, i);
    assert Marked(run[i].g, r);
    var h :| Finalizer(run[i].g, h, r);
    FinalizerCarried(run[i].g, h, r);
  }
}
