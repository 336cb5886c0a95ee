/** What the k-CAS guarantees over every run: the memory, with every tag read as the value
    it stands for, changes only by whole k-CAS operations. */
module KcasTheorems {

  import opened KcasModel
  import opened KcasSafety

  /* --------------------------------------------------------- logical memory */

  ghost function EntryOf(b: Body, a: nat): nat {
    if EntryFor(b, a) then var j: nat :| j < Num(b) && AddrAt(b, j) == a; j else 0
  }

  /** What a word locked by a k-CAS stands for. */
  ghost function LockedValue(o: Op, a: nat): Word {
    if o.status == Succeeded then NewAt(o.body, EntryOf(o.body, a)) else OldAt(o.body, EntryOf(o.body, a))
  }

  ghost function Decode(g: Shared, a: nat, w: Word): Word {
    match w
    case Plain(_) => w
    case RdcssTag(_, _) => if w in g.rops && |g.rops[w].body| == 5 then g.rops[w].body[2] else w
    case KcasTag(_, _) => if w in g.ops then LockedValue(g.ops[w], a) else w
  }

  ghost function Logical(g: Shared, a: nat): Word {
    if a < |g.mem| then Decode(g, a, g.mem[a]) else Plain(0)
  }

  ghost predicate SameLogical(g: Shared, g': Shared) {
    |g'.mem| == |g.mem| && forall a: nat | a < |g.mem| :: Logical(g', a) == Logical(g, a)
  }

  /** The logical memory changes from old to new at every entry, and nowhere else. */
  ghost predicate AtomicKcas(g: Shared, g': Shared, b: Body) {
    && |g'.mem| == |g.mem|
    && (forall j: nat | j < Num(b) ::
          && AddrAt(b, j) < |g.mem|
          && Logical(g, AddrAt(b, j)) == OldAt(b, j) && Logical(g', AddrAt(b, j)) == NewAt(b, j))
    && (forall a: nat | a < |g.mem| && !EntryFor(b, a) :: Logical(g', a) == Logical(g, a))
  }

  /** The step from run[i] is the CAS that makes the k-CAS succeed. */
  ghost predicate Commits(run: seq<State>, i: nat, t: nat, k: Word) {
    && i + 1 < |run| && DecideCasStep(run[i], t, run[i + 1]) && Decides(run[i], t)
    && run[i].th[t].pc.f.tag == k && run[i].th[t].pc.st == Succeeded
  }

  lemma EntryUnique(b: Body, m: nat, j: nat)
    requires WellFormed(b, m) && j < Num(b)
    ensures EntryOf(b, AddrAt(b, j)) == j
  {
    assert EntryFor(b, AddrAt(b, j));
    assert AddrAt(b, EntryOf(b, AddrAt(b, j))) == AddrAt(b, j);
  }

  /** Deciding a k-CAS whose words all carry its tag changes the logical memory at
      exactly those words. */
  lemma CommitAtomic(g: Shared, g': Shared, f: Frame)
    requires Glob(g) && DecidesAs(g, g', f, Succeeded) && AllHold(g, f.tag)
    ensures AtomicKcas(g, g', g.ops[f.tag].body)
  {
    hide RopOk, MemOk;
    var b := g.ops[f.tag].body;
    assert OpOk(g, f.tag);
    forall j: nat | j < Num(b)
      ensures AddrAt(b, j) < |g.mem|
      ensures Logical(g, AddrAt(b, j)) == OldAt(b, j) && Logical(g', AddrAt(b, j)) == NewAt(b, j)
    {
      assert Holds(g, AddrAt(b, j), f.tag);
      EntryUnique(b, |g.mem|, j);
    }
    forall a: nat | a < |g.mem| && !EntryFor(b, a) ensures Logical(g', a) == Logical(g, a) {
      OutsideWord(g, f.tag, a);
    }
  }

  lemma OutsideWord(g: Shared, k: Word, a: nat)
    requires Glob(g) && k in g.ops && a < |g.mem| && !EntryFor(g.ops[k].body, a)
    ensures g.mem[a] != k
  {
    assert MemOk(g, a);
    assert OpOk(g, k);
  }

  /** k-CAS is atomic: at the step that sets the status to succeeded every word holds the
      tag, and that step takes the logical memory from the old to the new values. */
  lemma KcasIsAtomic(run: seq<State>, i: nat, t: nat, k: Word)
    requires Run(run) && Commits(run, i, t, k)
    ensures k in run[i].g.ops && run[i].g.ops[k].status == Undecided && AllHold(run[i].g, k)
    ensures k in run[i + 1].g.ops && run[i + 1].g.ops[k].status == Succeeded
    ensures AtomicKcas(run[i].g, run[i + 1].g, run[i].g.ops[k].body)
  {
    RunOk(run, i);
    var s := run[i];
    assert ThreadOk(s.g, t, s.th[t]);
    var f := s.th[t].pc.f;
    assert DecidesAs(s.g, run[i + 1].g, f, Succeeded);
    DecideRely(s.g, run[i + 1].g, t, f, Succeeded);
    CommitAtomic(s.g, run[i + 1].g, f);
  }

  /* ------------------------------------------- every other step is invisible */

  lemma SameWords(g: Shared, g': Shared)
    requires Glob(g) && g'.mem == g.mem && Grows(g, g')
    requires forall k | k in g.ops :: g'.ops[k].status == Succeeded <==> g.ops[k].status == Succeeded
    ensures SameLogical(g, g')
  {
    forall a: nat | a < |g.mem| ensures Logical(g', a) == Logical(g, a) {
      assert MemOk(g, a);
      var w := g.mem[a];
      assert w in g.ops ==> OpGrows(g.ops[w], g'.ops[w]);
      assert w in g.rops ==> RopGrows(g.rops[w], g'.rops[w]);
    }
  }

  lemma SwapLogical(g: Shared, g': Shared, a: nat)
    requires Glob(g) && Swaps(g, g', a) && Grows(g, g') && Logical(g', a) == Logical(g, a)
    ensures SameLogical(g, g')
  {
    forall b: nat | b < |g.mem| ensures Logical(g', b) == Logical(g, b) {
      assert MemOk(g, b);
      var w := g.mem[b];
      assert w in g.rops ==> RopGrows(g.rops[w], g'.rops[w]);
    }
  }

  lemma InstallInvisible(g: Shared, g': Shared, t: nat, f: Frame, rt: Word, a: nat)
    requires Glob(g) && Installs(g, g', t, f, rt, a)
    ensures SameLogical(g, g')
  {
    hide Glob;
    InstallRely(g, g', t, f, rt, a);
    SwapLogical(g, g', a);
  }

  lemma RemoveInvisible(g: Shared, g': Shared, t: nat, rt: Word, a: nat, undecided: bool)
    requires Glob(g) && Removes(g, g', rt, a, undecided)
    ensures SameLogical(g, g')
  {
    hide MemOk;
    RemoveRely(g, g', t, rt, a, undecided);
    assert RopOk(g, rt);
    var p := g.rops[rt];
    assert OpOk(g, p.body[1]);
    EntryUnique(g.ops[p.body[1]].body, |g.mem|, p.i);
    RemovedWord(g, g', rt, a, undecided);
    assert !Gone(g, rt);
    SwapLogical(g, g', a);
  }

  lemma ReleaseInvisible(g: Shared, g': Shared, t: nat, k: Word, j: nat, ok: bool)
    requires Glob(g) && Releases(g, g', k, j, ok)
    ensures SameLogical(g, g')
  {
    hide MemOk, RopOk;
    ReleaseRely(g, g', t, k, j, ok);
    assert OpOk(g, k);
    EntryUnique(g.ops[k].body, |g.mem|, j);
    SwapLogical(g, g', AddrAt(g.ops[k].body, j));
  }

  ghost predicate CommitStep(s: State, t: nat, s': State) {
    DecideCasStep(s, t, s') && Decides(s, t) && s.th[t].pc.st == Succeeded
  }

  lemma MemStepInvisible(s: State, t: nat, s': State)
    requires Inv(s) && (RdcssFinishCas(s, t, s') || UnlockCas(s, t, s'))
    ensures SameLogical(s.g, s'.g)
  {
    hide Glob;
    var pc := s.th[t].pc;
    assert ThreadOk(s.g, t, s.th[t]);
    if RdcssFinishCas(s, t, s') {
      var a := Target(pc.x.body);
      if s.g.mem[a] == pc.x.rt {
        RemoveInvisible(s.g, s'.g, t, pc.x.rt, a, pc.undecided);
      }
    } else if pc.j < Num(pc.f.snap) {
      if s.g.mem[AddrAt(pc.f.snap, pc.j)] == pc.f.tag {
        ReleaseInvisible(s.g, s'.g, t, pc.f.tag, pc.j, pc.ok);
      }
    } else {
      LeaveOk(s, t, pc.f, pc.ok);
    }
  }

  lemma RdcssCasInvisible(s: State, t: nat, s': State)
    requires Inv(s) && Grows(s.g, s'.g) && RdcssCasStep(s, t, s')
    ensures SameLogical(s.g, s'.g)
  {
    hide Glob;
    var f := s.th[t].pc.f;
    assert ThreadOk(s.g, t, s.th[t]);
    var a := AddrAt(f.snap, f.i);
    if s.g.mem[a] == OldAt(f.snap, f.i) {
      InstallInvisible(s.g, s'.g, t, f, s.th[t].pc.rt, a);
    } else {
      SameWords(s.g, s'.g);
    }
  }

  lemma KnowsPc(s: State, t: nat)
    requires Inv(s) && t < |s.th|
    ensures PcOk(s.g, t, s.th[t].pc)
  {
    assert ThreadOk(s.g, t, s.th[t]);
  }

  lemma DescStepInvisible(s: State, t: nat, s': State)
    requires Inv(s) && Grows(s.g, s'.g) && SharedStep(s, t, s') && !CommitStep(s, t, s')
    requires !RdcssFinishCas(s, t, s') && !UnlockCas(s, t, s') && !RdcssCasStep(s, t, s')
    ensures SameLogical(s.g, s'.g)
  {
    hide OpOk, RopOk, MemOk, ThreadOk;
    KnowsPc(s, t);
    if InitializeWrite(s, t, s') {
      PublishRely(s.g, s'.g, t);
    } else if DecideCasStep(s, t, s') && Decides(s, t) {
      assert OpOk(s.g, s.th[t].pc.f.tag);
    }
    SameWords(s.g, s'.g);
  }

  lemma StepInvisible(s: State, t: nat, s': State)
    requires Inv(s) && ThreadStep(s, t, s') && Grows(s.g, s'.g) && !CommitStep(s, t, s')
    ensures SameLogical(s.g, s'.g)
  {
    hide Inv, Grows;
    if LocalStep(s, t, s') {
      LocalQuiet(s, t, s');
    } else if RdcssFinishCas(s, t, s') || UnlockCas(s, t, s') {
      MemStepInvisible(s, t, s');
    } else if RdcssCasStep(s, t, s') {
      RdcssCasInvisible(s, t, s');
    } else {
      DescStepInvisible(s, t, s');
    }
  }

  lemma LocalQuiet(s: State, t: nat, s': State)
    requires LocalStep(s, t, s')
    ensures s'.g == s.g
  {
  }

  /** No help, RDCSS, clean-up or failing step changes the logical memory. */
  lemma OnlyCommitsWrite(run: seq<State>, i: nat)
    requires Run(run) && i + 1 < |run|
    ensures SameLogical(run[i].g, run[i + 1].g) || exists t: nat, k: Word :: Commits(run, i, t, k)
  {
    RunOk(run, i);
    assert StepAt(run, i);
    StepKeeps(run, i);
    var t: nat :| ThreadStep(run[i], t, run[i + 1]);
    if CommitStep(run[i], t, run[i + 1]) {
      assert Commits(run, i, t, run[i].th[t].pc.f.tag);
    } else {
      StepInvisible(run[i], t, run[i + 1]);
    }
  }

  /* ---------------------------------------------------------------- verdicts */

  lemma {:induction false} RunGrows(run: seq<State>, i: nat, j: nat)
    requires Run(run) && i <= j < |run|
    ensures Grows(run[i].g, run[j].g)
    decreases j - i
  {
    hide Inv, StepAt, Grows, Init;
    if i == j {
      GrowsRefl(run[i].g);
    } else {
      RunGrows(run, i, j - 1);
      RunOk(run, j - 1);
      assert StepAt(run, j - 1);
      StepKeeps(run, j - 1);
      GrowsTrans(run[i].g, run[j - 1].g, run[j].g);
    }
  }

  lemma GrowsRefl(a: Shared)
    ensures Grows(a, a)
  {
  }

  lemma GrowsTrans(a: Shared, b: Shared, c: Shared)
    requires Grows(a, b) && Grows(b, c)
    ensures Grows(a, c)
  {
    forall k | k in a.ops ensures k in c.ops && OpGrows(a.ops[k], c.ops[k]) {
      assert OpGrows(a.ops[k], b.ops[k]) && OpGrows(b.ops[k], c.ops[k]);
    }
    forall r | r in a.rops ensures r in c.rops && RopGrows(a.rops[r], c.rops[r]) {
      assert RopGrows(a.rops[r], b.rops[r]) && RopGrows(b.rops[r], c.rops[r]);
    }
  }

  /** A k-CAS is decided once. */
  lemma OneVerdict(run: seq<State>, i: nat, j: nat, k: Word)
    requires Run(run) && i <= j < |run| && Decided(run[i].g, k)
    ensures Decided(run[j].g, k) && run[j].g.ops[k].status == run[i].g.ops[k].status
  {
    RunGrows(run, i, j);
    assert OpGrows(run[i].g.ops[k], run[j].g.ops[k]);
  }

  /** Over all helpers, one k-CAS takes effect at most once. */
  lemma CommitsOnce(run: seq<State>, i: nat, j: nat, t: nat, u: nat, k: Word)
    requires Run(run) && i < j && Commits(run, i, t, k)
    ensures !Commits(run, j, u, k)
  {
    KcasIsAtomic(run, i, t, k);
    if Commits(run, j, u, k) {
      KcasIsAtomic(run, j, u, k);
      OneVerdict(run, i + 1, j, k);
    }
  }

  /** The step from run[i] is an RDCSS for the undecided k-CAS that finds one of its words
      holding a plain value other than the expected one. */
  ghost predicate Mismatch(run: seq<State>, i: nat, t: nat, k: Word) {
    && i + 1 < |run| && RdcssCasStep(run[i], t, run[i + 1])
    && var f := run[i].th[t].pc.f;
    && f.tag == k && k in run[i].g.ops && run[i].g.ops[k].status == Undecided
    && f.i < Num(run[i].g.ops[k].body)
    && AddrAt(run[i].g.ops[k].body, f.i) < |run[i].g.mem|
    && Logical(run[i].g, AddrAt(run[i].g.ops[k].body, f.i)) != OldAt(run[i].g.ops[k].body, f.i)
  }

  lemma MismatchStep(s: State, t: nat, s': State, k: Word)
    requires ThreadStep(s, t, s') && k in s'.g.ops && s'.g.ops[k].mismatch && (k in s.g.ops ==> !s.g.ops[k].mismatch)
    ensures RdcssCasStep(s, t, s') && s.th[t].pc.f.tag == k && k in s.g.ops && s.g.ops[k].status == Undecided
    ensures var f := s.th[t].pc.f; var a := AddrAt(f.snap, f.i);
            a < |s.g.mem| && s.g.mem[a].Plain? && s.g.mem[a] != OldAt(f.snap, f.i)
  {
    if LocalStep(s, t, s') {
      LocalQuiet(s, t, s');
    }
  }

  lemma {:induction false} MismatchOrigin(run: seq<State>, i: nat, k: Word)
    requires Run(run) && i < |run| && k in run[i].g.ops && run[i].g.ops[k].mismatch
    ensures exists m: nat, t: nat :: m < i && Mismatch(run, m, t, k)
  {
    hide LocalStep, Inv;
    assert i > 0;
    var s := run[i - 1];
    if k in s.g.ops && s.g.ops[k].mismatch {
      MismatchOrigin(run, i - 1, k);
    } else {
      assert StepAt(run, i - 1);
      var t: nat :| ThreadStep(s, t, run[i - 1 + 1]);
      MismatchStep(s, t, run[i - 1 + 1], k);
      RunOk(run, i - 1);
      KnowsPc(s, t);
      assert Mismatch(run, i - 1, t, k);
    }
  }

  /** FAILED is set only if some word held an unexpected logical value while the operation
      was undecided. */
  lemma FailsOnlyOnMismatch(run: seq<State>, i: nat, k: Word)
    requires Run(run) && i < |run| && k in run[i].g.ops && run[i].g.ops[k].status == Failed
    ensures exists m: nat, t: nat :: m < i && Mismatch(run, m, t, k)
  {
    RunOk(run, i);
    assert OpOk(run[i].g, k);
    MismatchOrigin(run, i, k);
  }

  /** The status of an operation changes at its deciding CAS only. */
  lemma StatusQuiet(s: State, t: nat, s': State, k: Word)
    requires SharedStep(s, t, s') && !DecideCasStep(s, t, s') && k in s'.g.ops
    ensures k !in s.g.ops ==> s'.g.ops[k].status == Undecided
    ensures k in s.g.ops && s.g.ops[k].status != Succeeded ==> s'.g.ops[k].status != Succeeded
  {
    hide RdcssBody, AddrAt;
  }

  lemma SuccessStep(s: State, t: nat, s': State, k: Word)
    requires ThreadStep(s, t, s') && k in s'.g.ops && s'.g.ops[k].status == Succeeded
    requires k in s.g.ops ==> s.g.ops[k].status != Succeeded
    ensures CommitStep(s, t, s') && s.th[t].pc.f.tag == k
  {
    hide LocalStep, SharedStep;
    if LocalStep(s, t, s') {
      LocalQuiet(s, t, s');
    } else if !DecideCasStep(s, t, s') {
      StatusQuiet(s, t, s', k);
    }
  }

  lemma {:induction false} SuccessOrigin(run: seq<State>, i: nat, k: Word)
    requires Run(run) && i < |run| && k in run[i].g.ops && run[i].g.ops[k].status == Succeeded
    ensures exists m: nat, t: nat :: m < i && Commits(run, m, t, k)
  {
    assert i > 0;
    var s := run[i - 1];
    if k in s.g.ops && s.g.ops[k].status == Succeeded {
      SuccessOrigin(run, i - 1, k);
    } else {
      assert StepAt(run, i - 1);
      var t: nat :| ThreadStep(s, t, run[i - 1 + 1]);
      SuccessStep(s, t, run[i - 1 + 1], k);
      assert Commits(run, i - 1, t, k);
    }
  }

  /** A k-CAS takes effect while its owner is inside `execute`. */
  lemma CommitsInsideCall(run: seq<State>, i: nat, t: nat, k: Word)
    requires Run(run) && Commits(run, i, t, k)
    ensures k.KcasTag? && k.tid < |run[i].th| && InExecute(run[i].th[k.tid])
    ensures var x := run[i].th[k.tid]; (if x.stack == [] then FrameOf(x.pc) else x.stack[0]).tag == k
  {
    KcasIsAtomic(run, i, t, k);
    RunOk(run, i);
    var s := run[i];
    assert OpOk(s.g, k);
    var x := s.th[k.tid];
    assert ThreadOk(s.g, k.tid, x);
    assert InExecute(x);
    OwnFrame(s.g, k.tid, x);
  }

  lemma OwnFrame(g: Shared, t: nat, x: Thread)
    requires ThreadOk(g, t, x) && InExecute(x)
    ensures (if x.stack == [] then FrameOf(x.pc) else x.stack[0]).tag == KcasTag(t, g.kd[t].bits.sn)
  {
    hide StackOk;
    if x.stack != [] {
      assert SuspendedOk(g, t, x.stack[0]) by {
        assert StackOk(g, t, x.stack);
        StackHead(g, t, x.stack);
      }
    } else {
      assert FrameOk(g, t, FrameOf(x.pc));
    }
  }

  lemma StackHead(g: Shared, t: nat, fs: seq<Frame>)
    requires StackOk(g, t, fs) && fs != []
    ensures SuspendedOk(g, t, fs[0])
  {
  }

  /** `execute` returns true exactly when the k-CAS took effect, and false only if it never does. */
  lemma ExecuteTellsTruth(run: seq<State>, i: nat, t: nat)
    requires Run(run) && i < |run| && t < |run[i].th| && run[i].th[t].ret.Done?
    ensures var r := run[i].th[t].ret;
            if r.ok then exists m: nat, u: nat :: m < i && Commits(run, m, u, r.tag)
            else (exists m: nat, u: nat :: m < i && Mismatch(run, m, u, r.tag))
                 && (forall m: nat, u: nat :: !Commits(run, m, u, r.tag))
  {
    RunOk(run, i);
    assert ThreadOk(run[i].g, t, run[i].th[t]);
    var r := run[i].th[t].ret;
    if r.ok {
      SuccessOrigin(run, i, r.tag);
    } else {
      FailsOnlyOnMismatch(run, i, r.tag);
      forall m: nat, u: nat ensures !Commits(run, m, u, r.tag) {
        FailedNeverCommits(run, i, m, u, r.tag);
      }
    }
  }

  lemma FailedNeverCommits(run: seq<State>, i: nat, m: nat, u: nat, k: Word)
    requires Run(run) && i < |run| && k in run[i].g.ops && run[i].g.ops[k].status == Failed
    ensures !Commits(run, m, u, k)
  {
    if Commits(run, m, u, k) {
      KcasIsAtomic(run, m, u, k);
      if m + 1 <= i {
        OneVerdict(run, m + 1, i, k);
      } else {
        OneVerdict(run, i, m, k);
      }
    }
  }

  /** `readPtr` returns the logical value its word has at the read. */
  lemma ReadIsLogical(run: seq<State>, i: nat, t: nat)
    requires Run(run) && i + 1 < |run| && ReadWordStep(run[i], t, run[i + 1]) && run[i + 1].th[t].pc == Idle
    ensures run[i + 1].th[t].ret.Value? && run[i + 1].th[t].ret.w == Logical(run[i].g, run[i + 1].th[t].ret.a)
    ensures run[i + 1].th[t].ret.a == run[i].th[t].pc.a
  {
  }
}
