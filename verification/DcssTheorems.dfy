/** What DCSS guarantees over every run. */
module DcssTheorems {

  import opened DcssModel
  import opened DcssSafety

  /* --------------------------------------------------------- logical memory */

  /** A word read through DCSS: a tag stands for new2 once its operation has succeeded,
      and for old2 before that. */
  ghost function Logical(g: Shared, a: nat): Word {
    if a >= |g.mem| then Plain(0)
    else if g.mem[a] in g.ops && g.mem[a].Tag? then
      var o := g.ops[g.mem[a]];
      if o.status == Succeeded then New2(o.body) else Old2(o.body)
    else g.mem[a]
  }

  ghost predicate SameLogical(g: Shared, g': Shared) {
    |g'.mem| == |g.mem| && forall a: nat | a < |g.mem| :: Logical(g', a) == Logical(g, a)
  }

  /* ----------------------------------------------------------------- events */

  /** The step from run[i] reads addr1 for the undecided operation k, inside its call and
      while addr2 holds its tag over old2. */
  ghost predicate Reads(run: seq<State>, i: nat, t: nat, k: Word) {
    && i + 1 < |run| && ControlStep(run[i], t, run[i + 1]) && run[i].th[t].pc.x.tag == k && k in run[i].g.ops
    && var o := run[i].g.ops[k];
    && o.status == Undecided && !o.ended && Addr1(o.body) < |run[i].g.ctl|
    && Holds(run[i].g, Addr2(o.body), k) && Logical(run[i].g, Addr2(o.body)) == Old2(o.body)
  }

  ghost predicate Meets(run: seq<State>, i: nat, t: nat, k: Word) {
    Reads(run, i, t, k) && var b := run[i].g.ops[k].body; run[i].g.ctl[Addr1(b)] == Old1(b)
  }

  ghost predicate Misses(run: seq<State>, i: nat, t: nat, k: Word) {
    Reads(run, i, t, k) && var b := run[i].g.ops[k].body; run[i].g.ctl[Addr1(b)] != Old1(b)
  }

  ghost predicate Effective(s: State, t: nat, s': State) {
    StateCasStep(s, t, s') && Decides(s, t) && s.th[t].pc.st == Succeeded
  }

  /** The step from run[i] makes the operation succeed. */
  ghost predicate TakesEffect(run: seq<State>, i: nat, t: nat, k: Word) {
    i + 1 < |run| && Effective(run[i], t, run[i + 1]) && run[i].th[t].pc.x.tag == k
  }

  /** The step from run[i] puts the tag into addr2. */
  ghost predicate Installs(run: seq<State>, i: nat, t: nat, k: Word) {
    && i + 1 < |run| && PutStep(run[i], t, run[i + 1]) && run[i].th[t].pc.tag == k
    && k in run[i].g.ops && Holds(run[i].g, Addr2(run[i].g.ops[k].body), Old2(run[i].g.ops[k].body))
  }

  /** The step from run[i] finds addr2 holding the plain value w, which is not old2. */
  ghost predicate Refuses(run: seq<State>, i: nat, t: nat, k: Word, w: Word) {
    && i + 1 < |run| && PutStep(run[i], t, run[i + 1]) && run[i].th[t].pc.tag == k
    && k in run[i].g.ops && !run[i].g.ops[k].ended && w.Plain? && w != Old2(run[i].g.ops[k].body)
    && Logical(run[i].g, Addr2(run[i].g.ops[k].body)) == w
  }

  /* ------------------------------------------------------------ basic facts */

  lemma Knows(run: seq<State>, i: nat, t: nat)
    requires Run(run) && i < |run| && t < |run[i].th|
    ensures ThreadOk(run[i].g, t, run[i].th[t])
  {
    RunOk(run, i);
  }

  lemma KnowsOp(run: seq<State>, i: nat, k: Word)
    requires Run(run) && i < |run| && k in run[i].g.ops
    ensures OpOk(run[i].g, k)
  {
    RunOk(run, i);
  }

  lemma {:induction false} RunGrows(run: seq<State>, i: nat, j: nat)
    requires Run(run) && i <= j < |run|
    ensures Grows(run[i].g, run[j].g)
    decreases j - i
  {
    hide Inv, StepAt, Grows, Init;
    if i == j {
      GrowsRefl(run[i].g);
    } else {
      RunGrows(run, i, j - 1);
      RunOk(run, j - 1);
      assert StepAt(run, j - 1);
      StepKeeps(run, j - 1);
      GrowsTrans(run[i].g, run[j - 1].g, run[j].g);
    }
  }

  lemma GrowsRefl(a: Shared)
    ensures Grows(a, a)
  {
  }

  lemma GrowsTrans(a: Shared, b: Shared, c: Shared)
    requires Grows(a, b) && Grows(b, c)
    ensures Grows(a, c)
  {
    forall k | k in a.ops ensures k in c.ops && OpGrows(a.ops[k], c.ops[k]) {
      assert OpGrows(a.ops[k], b.ops[k]) && OpGrows(b.ops[k], c.ops[k]);
    }
  }

  lemma OpLater(run: seq<State>, i: nat, j: nat, k: Word)
    requires Run(run) && i <= j < |run| && k in run[i].g.ops
    ensures k in run[j].g.ops && OpGrows(run[i].g.ops[k], run[j].g.ops[k])
  {
    RunGrows(run, i, j);
  }

  /* ------------------------------------------------------------ where fates come from */

  lemma FillQuiet(s: State, t: nat, s': State)
    requires NewStore(s, t, s') || FillStep(s, t, s')
    ensures s'.g.ops == s.g.ops
  {
  }

  /** The other steps find nothing in addr1. */
  lemma NoRecord(s: State, t: nat, s': State, k: Word)
    requires SharedStep(s, t, s') && !ControlStep(s, t, s') && k in s'.g.ops
    ensures s'.g.ops[k].met ==> k in s.g.ops && s.g.ops[k].met
    ensures s'.g.ops[k].missed ==> k in s.g.ops && s.g.ops[k].missed
  {
    hide NewStore, FillStep;
    if NewStore(s, t, s') || FillStep(s, t, s') {
      FillQuiet(s, t, s');
    }
  }

  lemma RecordStep(s: State, s': State, k: Word)
    requires Next(s, s') && k in s'.g.ops
    ensures s'.g.ops[k].met && (k in s.g.ops ==> !s.g.ops[k].met) ==>
              exists t: nat ::
                && ControlStep(s, t, s') && s.th[t].pc.x.tag == k && k in s.g.ops && s.g.ops[k].status == Undecided
                            && s.g.ctl[Addr1(s.th[t].pc.x.body)] == Old1(s.g.ops[k].body)
    ensures s'.g.ops[k].missed && (k in s.g.ops ==> !s.g.ops[k].missed) ==>
              exists t: nat ::
                && ControlStep(s, t, s') && s.th[t].pc.x.tag == k && k in s.g.ops && s.g.ops[k].status == Undecided
                            && s.g.ctl[Addr1(s.th[t].pc.x.body)] != Old1(s.g.ops[k].body)
  {
    hide LocalStep, SharedStep;
    if !Environment(s, s') {
      var t: nat :| ThreadStep(s, t, s');
      if LocalStep(s, t, s') {
        LocalQuiet(s, t, s');
      } else if !ControlStep(s, t, s') {
        NoRecord(s, t, s', k);
      }
    }
  }

  lemma ReadInside(run: seq<State>, i: nat, t: nat, k: Word)
    requires Run(run) && i + 1 < |run| && ControlStep(run[i], t, run[i + 1]) && run[i].th[t].pc.x.tag == k
    requires k in run[i].g.ops && run[i].g.ops[k].status == Undecided
    ensures Reads(run, i, t, k) && run[i].th[t].pc.x.body == run[i].g.ops[k].body
  {
    Knows(run, i, t);
    KnowsOp(run, i, k);
  }

  lemma {:induction false} MetOrigin(run: seq<State>, i: nat, k: Word)
    requires Run(run) && i < |run| && k in run[i].g.ops && run[i].g.ops[k].met
    ensures exists m: nat, t: nat :: m < i && Meets(run, m, t, k)
  {
    hide Inv, Next;
    assert i > 0;
    var j: nat := i - 1;
    if k in run[j].g.ops && run[j].g.ops[k].met {
      MetOrigin(run, j, k);
    } else {
      assert StepAt(run, j);
      RecordStep(run[j], run[j + 1], k);
      var t: nat :| ControlStep(run[j], t, run[j + 1]) && run[j].th[t].pc.x.tag == k && k in run[j].g.ops
                    && run[j].g.ops[k].status == Undecided
                    && run[j].g.ctl[Addr1(run[j].th[t].pc.x.body)] == Old1(run[j].g.ops[k].body);
      ReadInside(run, j, t, k);
      assert Meets(run, j, t, k);
    }
  }

  lemma {:induction false} MissedOrigin(run: seq<State>, i: nat, k: Word)
    requires Run(run) && i < |run| && k in run[i].g.ops && run[i].g.ops[k].missed
    ensures exists m: nat, t: nat :: m < i && Misses(run, m, t, k)
  {
    hide Inv, Next;
    assert i > 0;
    var j: nat := i - 1;
    if k in run[j].g.ops && run[j].g.ops[k].missed {
      MissedOrigin(run, j, k);
    } else {
      assert StepAt(run, j);
      RecordStep(run[j], run[j + 1], k);
      var t: nat :| ControlStep(run[j], t, run[j + 1]) && run[j].th[t].pc.x.tag == k && k in run[j].g.ops
                    && run[j].g.ops[k].status == Undecided
                    && run[j].g.ctl[Addr1(run[j].th[t].pc.x.body)] != Old1(run[j].g.ops[k].body);
      ReadInside(run, j, t, k);
      assert Misses(run, j, t, k);
    }
  }

  lemma SucceedsBy(s: State, t: nat, s': State, k: Word)
    requires ThreadStep(s, t, s') && k in s'.g.ops && s'.g.ops[k].status == Succeeded
    requires k in s.g.ops ==> s.g.ops[k].status != Succeeded
    ensures Effective(s, t, s') && s.th[t].pc.x.tag == k
  {
    if LocalStep(s, t, s') {
      LocalQuiet(s, t, s');
    }
  }

  lemma LocalQuiet(s: State, t: nat, s': State)
    requires LocalStep(s, t, s')
    ensures s'.g == s.g
  {
  }

  lemma StatusStep(s: State, s': State, k: Word)
    requires Next(s, s') && k in s'.g.ops && s'.g.ops[k].status == Succeeded
    requires k in s.g.ops ==> s.g.ops[k].status != Succeeded
    ensures exists t: nat :: Effective(s, t, s') && s.th[t].pc.x.tag == k
  {
    if !Environment(s, s') {
      var t: nat :| ThreadStep(s, t, s');
      SucceedsBy(s, t, s', k);
    }
  }

  lemma {:induction false} SuccessOrigin(run: seq<State>, i: nat, k: Word)
    requires Run(run) && i < |run| && k in run[i].g.ops && run[i].g.ops[k].status == Succeeded
    ensures exists n: nat, t: nat :: n < i && TakesEffect(run, n, t, k)
  {
    hide Inv, Next;
    assert i > 0;
    var j: nat := i - 1;
    if k in run[j].g.ops && run[j].g.ops[k].status == Succeeded {
      SuccessOrigin(run, j, k);
    } else {
      assert StepAt(run, j);
      StatusStep(run[j], run[j + 1], k);
      var t: nat :| Effective(run[j], t, run[j + 1]) && run[j].th[t].pc.x.tag == k;
      assert TakesEffect(run, j, t, k);
    }
  }

  /* ------------------------------------------------------- linearizability */

  /** The step that makes an operation succeed changes the logical memory at addr2 alone,
      from old2 to new2, and addr1 was seen to hold old1 before. */
  lemma EffectIsAtomic(run: seq<State>, n: nat, t: nat, k: Word)
    requires Run(run) && TakesEffect(run, n, t, k)
    ensures k in run[n].g.ops && k in run[n + 1].g.ops
    ensures var g := run[n].g; var g' := run[n + 1].g; var b := g.ops[k].body;
            && g.ops[k].status == Undecided && g'.ops[k].status == Succeeded && g.ops[k].met && g.ops[k].put
            && Addr2(b) < |g.mem| == |g'.mem|
            && Logical(g, Addr2(b)) == Old2(b) && Logical(g', Addr2(b)) == New2(b)
            && forall a: nat | a < |g.mem| && a != Addr2(b) :: Logical(g', a) == Logical(g, a)
  {
    RunOk(run, n);
    var s := run[n];
    Knows(run, n, t);
    KnowsOp(run, n, k);
    var b := s.g.ops[k].body;
    forall a: nat | a < |s.g.mem| && a != Addr2(b) ensures Logical(run[n + 1].g, a) == Logical(s.g, a) {
      assert MemOk(s.g, a);
    }
  }

  /** An operation takes effect at most once over all helpers. */
  lemma EffectOnce(run: seq<State>, i: nat, j: nat, t: nat, u: nat, k: Word)
    requires Run(run) && i < j && TakesEffect(run, i, t, k)
    ensures !TakesEffect(run, j, u, k)
  {
    EffectIsAtomic(run, i, t, k);
    if TakesEffect(run, j, u, k) {
      EffectIsAtomic(run, j, u, k);
      OpLater(run, i + 1, j, k);
    }
  }

  /** Between the deciding read of addr1 and the effect, addr2 is locked. */
  lemma LockedBetween(run: seq<State>, m: nat, n: nat, u: nat, t: nat, k: Word, j: nat)
    requires Run(run) && Reads(run, m, u, k) && TakesEffect(run, n, t, k) && m <= j <= n
    ensures k in run[j].g.ops && !run[j].g.ops[k].ended && Holds(run[j].g, Addr2(run[m].g.ops[k].body), k)
  {
    EffectIsAtomic(run, n, t, k);
    Knows(run, m, u);
    OpLater(run, m, j, k);
    OpLater(run, j, n, k);
    KnowsOp(run, j, k);
  }

  /** SUCCESS: inside the call addr1 held old1 while addr2 held the tag over old2, and
      after that addr2 became new2. */
  lemma SuccessIsLinearizable(run: seq<State>, i: nat, t: nat)
    requires Run(run) && i < |run| && t < |run[i].th| && run[i].th[t].ret.Success?
    ensures exists m: nat, u: nat, n: nat, w: nat ::
              m < n < i && Meets(run, m, u, run[i].th[t].ret.tag) && TakesEffect(run, n, w, run[i].th[t].ret.tag)
  {
    Knows(run, i, t);
    var k := run[i].th[t].ret.tag;
    SuccessOrigin(run, i, k);
    var n: nat, w: nat :| n < i && TakesEffect(run, n, w, k);
    EffectIsAtomic(run, n, w, k);
    MetOrigin(run, n, k);
    var m: nat, u: nat :| m < n && Meets(run, m, u, k);
    assert m < n < i && Meets(run, m, u, run[i].th[t].ret.tag) && TakesEffect(run, n, w, run[i].th[t].ret.tag);
  }

  lemma NoEffect(run: seq<State>, i: nat, k: Word, n: nat, w: nat)
    requires Run(run) && i < |run| && k in run[i].g.ops && run[i].g.ops[k].ended
    requires run[i].g.ops[k].put ==> run[i].g.ops[k].status == Failed
    ensures !TakesEffect(run, n, w, k)
  {
    if TakesEffect(run, n, w, k) {
      EffectIsAtomic(run, n, w, k);
      if n < i {
        OpLater(run, n + 1, i, k);
        OpLater(run, n, i, k);
      } else {
        OpLater(run, i, n, k);
      }
    }
  }

  /** FAILED_ADDR1: inside the call addr1 differed from old1 while addr2 held the tag, and
      the operation never takes effect. */
  lemma FailedAddr1IsJustified(run: seq<State>, i: nat, t: nat)
    requires Run(run) && i < |run| && t < |run[i].th| && run[i].th[t].ret.FailedAddr1?
    ensures exists m: nat, u: nat :: m < i && Misses(run, m, u, run[i].th[t].ret.tag)
    ensures forall n: nat, w: nat :: !TakesEffect(run, n, w, run[i].th[t].ret.tag)
  {
    Knows(run, i, t);
    var k := run[i].th[t].ret.tag;
    KnowsOp(run, i, k);
    MissedOrigin(run, i, k);
    forall n: nat, w: nat ensures !TakesEffect(run, n, w, k) {
      NoEffect(run, i, k, n, w);
    }
  }

  lemma RefusesBy(s: State, u: nat, s': State, t: nat)
    requires ThreadStep(s, u, s') && t < |s.th| && t < |s'.th| && s'.th[t].ret.FailedAddr2?
             && s.th[t].ret != s'.th[t].ret
    ensures PutStep(s, t, s') && s.th[t].pc.tag == s'.th[t].ret.tag
    ensures s.g.mem[Addr2(s.g.desc[t].body)] == s'.th[t].ret.w && s'.th[t].ret.w.Plain?
  {
  }

  lemma ThreadsKept(s: State, s': State)
    requires Next(s, s')
    ensures |s'.th| == |s.th|
  {
  }

  lemma ReturnStep(s: State, s': State, t: nat)
    requires Next(s, s') && t < |s'.th| && s'.th[t].ret.FailedAddr2?
    ensures t < |s.th|
    ensures s.th[t].ret != s'.th[t].ret ==>
              PutStep(s, t, s') && s.th[t].pc.tag == s'.th[t].ret.tag
              && s.g.mem[Addr2(s.g.desc[t].body)] == s'.th[t].ret.w && s'.th[t].ret.w.Plain?
  {
    hide ThreadStep;
    ThreadsKept(s, s');
    if !Environment(s, s') && s.th[t].ret != s'.th[t].ret {
      var u: nat :| ThreadStep(s, u, s');
      RefusesBy(s, u, s', t);
    }
  }

  lemma {:induction false} RefusalOrigin(run: seq<State>, i: nat, t: nat)
    requires Run(run) && i < |run| && t < |run[i].th| && run[i].th[t].ret.FailedAddr2?
    ensures exists m: nat :: m < i && Refuses(run, m, t, run[i].th[t].ret.tag, run[i].th[t].ret.w)
  {
    hide Inv, Next;
    assert i > 0;
    var j: nat := i - 1;
    assert StepAt(run, j);
    ReturnStep(run[j], run[j + 1], t);
    if run[j].th[t].ret == run[i].th[t].ret {
      RefusalOrigin(run, j, t);
    } else {
      RefusedWord(run, j, t);
    }
  }

  lemma RefusedWord(run: seq<State>, j: nat, t: nat)
    requires Run(run) && j + 1 < |run| && PutStep(run[j], t, run[j + 1]) && run[j + 1].th[t].ret.FailedAddr2?
    requires run[j].th[t].pc.tag == run[j + 1].th[t].ret.tag && run[j + 1].th[t].ret.w.Plain?
    requires run[j].g.mem[Addr2(run[j].g.desc[t].body)] == run[j + 1].th[t].ret.w
    ensures run[j + 1].th[t].ret.tag in run[j].g.ops
    ensures Refuses(run, j, t, run[j + 1].th[t].ret.tag, run[j + 1].th[t].ret.w)
  {
    Knows(run, j, t);
    Knows(run, j + 1, t);
    KnowsOp(run, j, run[j].th[t].pc.tag);
    OpLater(run, j, j + 1, run[j].th[t].pc.tag);
  }

  /** FAILED_ADDR2: inside the call addr2 logically held the returned value, which is not
      old2; the tag is never put into memory and the operation never takes effect. */
  lemma FailedAddr2IsJustified(run: seq<State>, i: nat, t: nat)
    requires Run(run) && i < |run| && t < |run[i].th| && run[i].th[t].ret.FailedAddr2?
    ensures exists m: nat :: m < i && Refuses(run, m, t, run[i].th[t].ret.tag, run[i].th[t].ret.w)
    ensures forall n: nat, w: nat ::
              !TakesEffect(run, n, w, run[i].th[t].ret.tag) && !Installs(run, n, w, run[i].th[t].ret.tag)
  {
    Knows(run, i, t);
    var k := run[i].th[t].ret.tag;
    RefusalOrigin(run, i, t);
    forall n: nat, w: nat ensures !TakesEffect(run, n, w, k) && !Installs(run, n, w, k) {
      NoEffect(run, i, k, n, w);
      NeverPut(run, i, k, n, w);
    }
  }

  lemma InstallTruth(run: seq<State>, i: nat, t: nat, k: Word)
    requires Run(run) && Installs(run, i, t, k)
    ensures !run[i].g.ops[k].put && !run[i].g.ops[k].ended
    ensures k in run[i + 1].g.ops && run[i + 1].g.ops[k].put
    ensures Holds(run[i + 1].g, Addr2(run[i].g.ops[k].body), k)
  {
    Knows(run, i, t);
    KnowsOp(run, i, k);
  }

  lemma NeverPut(run: seq<State>, i: nat, k: Word, n: nat, w: nat)
    requires Run(run) && i < |run| && k in run[i].g.ops && run[i].g.ops[k].ended && !run[i].g.ops[k].put
    ensures !Installs(run, n, w, k)
  {
    if Installs(run, n, w, k) {
      InstallTruth(run, n, w, k);
      if n < i {
        OpLater(run, n + 1, i, k);
      } else {
        OpLater(run, i, n, k);
      }
    }
  }

  /* ------------------------------------------------------------------- tags */

  /** A tag is put into memory at most once. */
  lemma InstalledOnce(run: seq<State>, i: nat, j: nat, t: nat, u: nat, k: Word)
    requires Run(run) && i < j && Installs(run, i, t, k)
    ensures !Installs(run, j, u, k)
  {
    InstallTruth(run, i, t, k);
    if Installs(run, j, u, k) {
      InstallTruth(run, j, u, k);
      OpLater(run, i + 1, j, k);
    }
  }

  /** When the owner has returned, its tag is nowhere, and stays away. */
  lemma GoneOnReturn(run: seq<State>, i: nat, j: nat, t: nat, a: nat)
    requires Run(run) && i <= j < |run| && t < |run[i].th| && a < |run[j].g.mem|
    requires var r := run[i].th[t].ret; r.Success? || r.FailedAddr1? || r.FailedAddr2?
    ensures run[j].g.mem[a] != run[i].th[t].ret.tag
  {
    Knows(run, i, t);
    var k := run[i].th[t].ret.tag;
    OpLater(run, i, j, k);
    KnowsOp(run, j, k);
    RunOk(run, j);
    assert MemOk(run[j].g, a);
  }

  /* --------------------------------------------------- everything else is invisible */

  lemma PutInvisible(s: State, t: nat, s': State)
    requires Inv(s) && PutStep(s, t, s') && Grows(s.g, s'.g)
    ensures SameLogical(s.g, s'.g)
  {
    hide Grows;
    assert ThreadOk(s.g, t, s.th[t]);
    assert OpOk(s.g, s.th[t].pc.tag);
    forall a: nat | a < |s.g.mem| ensures Logical(s'.g, a) == Logical(s.g, a) {
      assert MemOk(s.g, a);
    }
  }

  lemma FinishInvisible(s: State, t: nat, s': State)
    requires Inv(s) && FinishStep(s, t, s')
    ensures SameLogical(s.g, s'.g)
  {
    hide OpOk;
    var x := s.th[t].pc.x;
    assert ThreadOk(s.g, t, s.th[t]);
    assert OpOk(s.g, x.tag);
    forall a: nat | a < |s.g.mem| ensures Logical(s'.g, a) == Logical(s.g, a) {
      assert MemOk(s.g, a);
    }
  }

  lemma RecordInvisible(s: State, t: nat, s': State)
    requires Inv(s) && ThreadStep(s, t, s') && Grows(s.g, s'.g)
    requires !PutStep(s, t, s') && !FinishStep(s, t, s') && !Effective(s, t, s')
    ensures SameLogical(s.g, s'.g)
  {
    hide Inv, OpGrows;
    assert s'.g.mem == s.g.mem;
    StatusKept(s, t, s');
    forall a: nat | a < |s.g.mem| ensures Logical(s'.g, a) == Logical(s.g, a) {
      assert MemOk(s.g, a) by {
        WordOk(s, a);
      }
      assert s.g.mem[a].Tag? ==> OpGrows(s.g.ops[s.g.mem[a]], s'.g.ops[s.g.mem[a]]);
    }
  }

  lemma WordOk(s: State, a: nat)
    requires Inv(s) && a < |s.g.mem|
    ensures MemOk(s.g, a)
  {
  }

  lemma StatusKept(s: State, t: nat, s': State)
    requires ThreadStep(s, t, s') && Grows(s.g, s'.g)
    requires !PutStep(s, t, s') && !FinishStep(s, t, s') && !Effective(s, t, s')
    ensures forall k | k in s.g.ops :: k in s'.g.ops && s'.g.ops[k].body == s.g.ops[k].body
                                    && (s'.g.ops[k].status == Succeeded <==> s.g.ops[k].status == Succeeded)
  {
    hide SetMem;
    forall k | k in s.g.ops
      ensures k in s'.g.ops && s'.g.ops[k].body == s.g.ops[k].body
      ensures s'.g.ops[k].status == Succeeded <==> s.g.ops[k].status == Succeeded
    {
      assert OpGrows(s.g.ops[k], s'.g.ops[k]);
    }
  }

  /** Only the effects of operations change the logical memory: helping, failing,
      cleaning up, publishing and writes to addr1 do not. */
  lemma OnlyEffectsWrite(run: seq<State>, i: nat)
    requires Run(run) && i + 1 < |run|
    ensures SameLogical(run[i].g, run[i + 1].g) || exists t: nat, k: Word :: TakesEffect(run, i, t, k)
  {
    hide Inv, Grows;
    RunOk(run, i);
    assert StepAt(run, i);
    StepKeeps(run, i);
    if !Environment(run[i], run[i + 1]) {
      var t: nat :| ThreadStep(run[i], t, run[i + 1]);
      if PutStep(run[i], t, run[i + 1]) {
        PutInvisible(run[i], t, run[i + 1]);
      } else if FinishStep(run[i], t, run[i + 1]) {
        FinishInvisible(run[i], t, run[i + 1]);
      } else if Effective(run[i], t, run[i + 1]) {
        assert TakesEffect(run, i, t, run[i].th[t].pc.x.tag);
      } else {
        RecordInvisible(run[i], t, run[i + 1]);
      }
    }
  }

  /* ------------------------------------------------------- descriptor reuse */

  /** An accepted snapshot holds only what was written for its tag. */
  lemma SnapshotIsExact(run: seq<State>, i: nat, t: nat)
    requires Run(run) && i + 1 < |run| && CopyCheck(run[i], t, run[i + 1]) && run[i + 1].th[t].pc.ReadControl?
    ensures var x := run[i + 1].th[t].pc.x;
            x.tag in run[i].g.ops && x.body == run[i].g.ops[x.tag].body && x.ssn == x.tag.sn
  {
    Knows(run, i + 1, t);
    Knows(run, i, t);
    OpLater(run, i, i + 1, run[i].th[t].pc.rt);
  }

  /** A helper with a stale tag changes neither addr2 nor a newer operation. */
  lemma StaleHelperIsHarmless(run: seq<State>, i: nat, t: nat, x: Help)
    requires Run(run) && i + 1 < |run|
    requires StateCasStep(run[i], t, run[i + 1]) || FinishStep(run[i], t, run[i + 1])
    requires x == run[i].th[t].pc.x && x.tag.Tag? && x.tag.tid < |run[i].g.desc|
    requires x.tag.sn < run[i].g.desc[x.tag.tid].mut.sn
    ensures run[i + 1].g == run[i].g
  {
    Knows(run, i, t);
    KnowsOp(run, i, x.tag);
  }

  /** The field CAS reports the state of its own operation as long as the descriptor still
      belongs to it.  Once it has been reused the tag is already gone, and the report is the
      state of the newer operation; it is right if the two operations had the same fate. */
  lemma ReportIsExactOrLate(run: seq<State>, i: nat, t: nat)
    requires Run(run) && i + 1 < |run| && StateCasStep(run[i], t, run[i + 1]) && run[i + 1].th[t].pc.Finish?
    ensures var x := run[i].th[t].pc.x; var ops := run[i + 1].g.ops; var ok := run[i + 1].th[t].pc.ok;
            && x.tag in ops && x.tag.Tag? && x.tag.tid < |run[i].g.desc|
            && var newer := Tag(x.tag.tid, run[i].g.desc[x.tag.tid].mut.sn);
            && x.tag.sn <= newer.sn
            && if newer == x.tag then ok <==> ops[x.tag].status == Succeeded
               else
                 && Gone(run[i + 1].g, x.tag) && newer in ops && (ok <==> ops[newer].status == Succeeded)
                 && ((ok <==> ops[x.tag].status == Succeeded) <==> ops[newer].status == ops[x.tag].status)
  {
    Knows(run, i, t);
    var x := run[i].th[t].pc.x;
    KnowsOp(run, i, x.tag);
    RunOk(run, i);
    var newer := Tag(x.tag.tid, run[i].g.desc[x.tag.tid].mut.sn);
    if newer in run[i].g.ops {
      KnowsOp(run, i, newer);
    }
  }
}
