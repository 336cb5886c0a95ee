/** Invariants of the k-CAS protocol and their preservation by every step. */
module KcasSafety {

  import opened KcasModel
  import opened WordCopies

  /* ------------------------------------------------------------- invariant */

  ghost predicate Decided(g: Shared, k: Word) {
    k in g.ops && g.ops[k].status != Undecided
  }

  ghost predicate Holds(g: Shared, a: nat, w: Word) {
    a < |g.mem| && g.mem[a] == w
  }

  /** The j-th word of the k-CAS carries its tag, or the k-CAS is decided. */
  ghost predicate Secured(g: Shared, k: Word, j: nat) {
    k in g.ops && (Decided(g, k) || Holds(g, AddrAt(g.ops[k].body, j), k))
  }

  ghost predicate SecuredTo(g: Shared, k: Word, n: nat) {
    forall j: nat | j < n :: Secured(g, k, j)
  }

  /** Every word of the k-CAS carries its tag. */
  ghost predicate AllHold(g: Shared, k: Word) {
    k in g.ops && forall j: nat | j < Num(g.ops[k].body) :: Holds(g, AddrAt(g.ops[k].body, j), k)
  }

  /** The word an RDCSS is about. */
  function Target(b: Body): nat {
    if |b| == 5 then AsNat(b[3]) else 0
  }

  /** An RDCSS tag that was put into its word and taken out again. */
  ghost predicate Gone(g: Shared, r: Word) {
    r in g.rops && g.rops[r].installed && !Holds(g, Target(g.rops[r].body), r)
  }

  ghost predicate OpOk(g: Shared, k: Word)
    requires k in g.ops
  {
    var o := g.ops[k];
    && k.KcasTag? && k.tid < |g.kd| && k.sn % 2 == 1 && k.sn <= g.kd[k.tid].bits.sn
    && WellFormed(o.body, |g.mem|)
    && (k.sn < g.kd[k.tid].bits.sn ==> o.status != Undecided)
    && (k.sn == g.kd[k.tid].bits.sn ==> g.kd[k.tid] == KcasDesc(SeqBits(k.sn, o.status), o.body))
    && (o.status == Failed ==> o.mismatch)
  }

  /** The descriptor of an RDCSS for entry i of k-CAS k. */
  ghost predicate Serves(g: Shared, b: Body, k: Word, i: nat) {
    k in g.ops && k.KcasTag? && i < Num(g.ops[k].body) && b == RdcssBody(k, g.ops[k].body, i)
  }

  ghost predicate RopOk(g: Shared, r: Word)
    requires r in g.rops
  {
    var p := g.rops[r];
    && r.RdcssTag? && r.tid < |g.rd| && r.sn % 2 == 1 && r.sn <= g.rd[r.tid].sn
    && (r.sn == g.rd[r.tid].sn ==> g.rd[r.tid].body == p.body)
    && |p.body| == 5 && Serves(g, p.body, p.body[1], p.i) && SecuredTo(g, p.body[1], p.i)
    && (Gone(g, r) ==> Secured(g, p.body[1], p.i))
  }

  ghost predicate EntryFor(b: Body, a: nat) {
    exists j: nat :: j < Num(b) && AddrAt(b, j) == a
  }

  ghost predicate MemOk(g: Shared, a: nat) {
    && a < |g.mem|
    && match g.mem[a]
       case Plain(_) => true
       case KcasTag(_, _) => g.mem[a] in g.ops && EntryFor(g.ops[g.mem[a]].body, a) && Secured(g, g.mem[a], 0)
       case RdcssTag(_, _) => g.mem[a] in g.rops && g.rops[g.mem[a]].installed && Target(g.rops[g.mem[a]].body) == a
  }

  ghost predicate Shape(g: Shared) {
    && |g.rd| == |g.kd|
    && (forall u: nat | u < |g.rd| :: |g.rd[u].body| == 5)
    && (forall u: nat | u < |g.kd| && g.kd[u].bits.sn % 2 == 0 :: g.kd[u].bits.status == Undecided)
  }

  ghost predicate Glob(g: Shared) {
    && Shape(g)
    && (forall k | k in g.ops :: OpOk(g, k))
    && (forall r | r in g.rops :: RopOk(g, r))
    && (forall a: nat | a < |g.mem| :: MemOk(g, a))
  }

  /* ------------------------------------------------- what a thread knows */

  ghost predicate FrameOk(g: Shared, t: nat, f: Frame) {
    match f
    case ReadFrame(a) => a < |g.mem|
    case HelpFrame(tag, own, ssn, snap, i) =>
      && tag in g.ops && tag.KcasTag? && snap == g.ops[tag].body && ssn == tag.sn && SecuredTo(g, tag, i)
      && (own ==> tag.tid == t && t < |g.kd| && tag.sn == g.kd[t].bits.sn)
  }

  /** An activation of `help` inside its loop. */
  ghost predicate LoopOk(g: Shared, t: nat, f: Frame) {
    FrameOk(g, t, f) && f.HelpFrame? && f.i < Num(f.snap)
  }

  /** The RDCSS of thread t is published and its tag has not been used. */
  ghost predicate Ready(g: Shared, t: nat, f: Frame, rt: Word) {
    && LoopOk(g, t, f) && t < |g.rd| && rt == RdcssTag(t, g.rd[t].sn)
    && rt in g.rops && g.rops[rt] == Rop(RdcssBody(f.tag, f.snap, f.i), f.i, false)
  }

  ghost predicate BackOk(g: Shared, t: nat, b: Back) {
    match b
    case ToRdcss(f, rt) => Ready(g, t, f, rt)
    case ToRead(a) => a < |g.mem|
  }

  ghost predicate RdcssHelpOk(g: Shared, t: nat, x: RdcssHelp) {
    && x.rt in g.rops && g.rops[x.rt].installed && x.body == g.rops[x.rt].body
    && if x.own
       then x.back.ToRdcss? && LoopOk(g, t, x.back.f)
            && g.rops[x.rt] == Rop(RdcssBody(x.back.f.tag, x.back.f.snap, x.back.f.i), x.back.f.i, true)
       else BackOk(g, t, x.back)
  }

  ghost predicate FinishOk(g: Shared, rt: Word, body: Body, undecided: bool) {
    && |body| == 5
    && if undecided then body[1] in g.ops && (g.ops[body[1]].status == Succeeded ==> Gone(g, rt))
       else Decided(g, body[1])
  }

  ghost predicate VerdictOk(g: Shared, f: Frame, st: Status) {
    && f.HelpFrame? && f.tag in g.ops
    && (st == Succeeded ==> SecuredTo(g, f.tag, Num(f.snap)))
    && (st == Failed ==> Decided(g, f.tag) || g.ops[f.tag].mismatch)
    && st != Undecided
  }

  ghost predicate Copied(got: map<nat, Word>, b: Body) {
    forall i: nat | i in got :: i < |b| && got[i] == b[i]
  }

  ghost predicate CopyOk(g: Shared, pc: Pc) {
    match pc
    case RdcssCopy(_, rt, got) =>
      && rt in g.rops && rt.RdcssTag? && rt.tid < |g.rd| && g.rops[rt].installed
      && (g.rd[rt.tid].sn == rt.sn ==> Copied(got, g.rops[rt].body))
    case KcasCopy(tag, ssn, got) =>
      && tag in g.ops && tag.KcasTag? && tag.tid < |g.kd| && Secured(g, tag, 0)
      && (g.kd[tag.tid].bits.sn == tag.sn ==> (ssn >= 0 ==> ssn == tag.sn) && Copied(got, g.ops[tag].body))
    case _ => true
  }

  ghost predicate FillOk(g: Shared, t: nat, f: Frame, j: nat) {
    && LoopOk(g, t, f) && t < |g.rd| && j <= 5 && |g.rd[t].body| == 5
    && forall m: nat | m < j :: g.rd[t].body[m] == RdcssBody(f.tag, f.snap, f.i)[m]
  }

  ghost predicate PcOk(g: Shared, t: nat, pc: Pc) {
    match pc
    case Idle => true
    case StartWrite(v) => t < |g.kd| && v.sn == g.kd[t].bits.sn && v.sn % 2 == 1
    case Initialize(v) => t < |g.kd| && v == g.kd[t].bits && v.sn % 2 == 0 && WellFormed(g.kd[t].body, |g.mem|)
    case ReadWord(a) => a < |g.mem|
    case RdcssCopy(back, _, _) => BackOk(g, t, back) && CopyOk(g, pc)
    case RdcssStatus(x) => RdcssHelpOk(g, t, x)
    case RdcssFinish(x, undecided) => RdcssHelpOk(g, t, x) && FinishOk(g, x.rt, x.body, undecided)
    case KcasCopy(_, _, _) => CopyOk(g, pc)
    case ReadStatus(f) => FrameOk(g, t, f) && f.HelpFrame?
    case RdcssNew(f) => LoopOk(g, t, f)
    case RdcssNewWrite(f, n) => LoopOk(g, t, f) && t < |g.rd| && n == g.rd[t].sn
    case RdcssFill(f, j) => FillOk(g, t, f, j)
    case RdcssInitialize(f, n) => FillOk(g, t, f, 5) && n == g.rd[t].sn
    case RdcssCas(f, rt) => Ready(g, t, f, rt)
    case DecideRead(f, st) => FrameOk(g, t, f) && VerdictOk(g, f, st)
    case DecideCas(f, st) => FrameOk(g, t, f) && VerdictOk(g, f, st)
    case DecideReread(f, st) => FrameOk(g, t, f) && VerdictOk(g, f, st)
    case PhaseTwo(f) => FrameOk(g, t, f) && f.HelpFrame? && Decided(g, f.tag)
    case Unlock(f, ok, _) =>
      FrameOk(g, t, f) && f.HelpFrame? && Decided(g, f.tag) && (ok <==> g.ops[f.tag].status == Succeeded)
  }

  function BackFrame(b: Back): Frame {
    match b
    case ToRdcss(f, _) => f
    case ToRead(a) => ReadFrame(a)
  }

  /** The activation a thread is executing. */
  function FrameOf(pc: Pc): Frame {
    match pc
    case ReadWord(a) => ReadFrame(a)
    case RdcssCopy(back, _, _) => BackFrame(back)
    case RdcssStatus(x) => BackFrame(x.back)
    case RdcssFinish(x, _) => BackFrame(x.back)
    case KcasCopy(tag, _, _) => HelpFrame(tag, false, 0, [], 0)
    case ReadStatus(f) => f
    case RdcssNew(f) => f
    case RdcssNewWrite(f, _) => f
    case RdcssFill(f, _) => f
    case RdcssInitialize(f, _) => f
    case RdcssCas(f, _) => f
    case DecideRead(f, _) => f
    case DecideCas(f, _) => f
    case DecideReread(f, _) => f
    case PhaseTwo(f) => f
    case Unlock(f, _, _) => f
    case _ => ReadFrame(0)
  }

  predicate Base(f: Frame) {
    f.ReadFrame? || f.own
  }

  /** Helping another k-CAS is always on behalf of a suspended activation. */
  ghost predicate Shaped(x: Thread) {
    && (Base(FrameOf(x.pc)) <==> x.stack == [])
    && forall m | 0 <= m < |x.stack| :: Base(x.stack[m]) <==> m == 0
  }

  predicate InExecute(x: Thread) {
    var f := if x.stack == [] then FrameOf(x.pc) else x.stack[0];
    f.HelpFrame? && f.own
  }

  ghost predicate SuspendedOk(g: Shared, t: nat, f: Frame) {
    FrameOk(g, t, f) && (f.HelpFrame? ==> LoopOk(g, t, f))
  }

  ghost predicate StackOk(g: Shared, t: nat, fs: seq<Frame>) {
    forall m: nat | m < |fs| :: SuspendedOk(g, t, fs[m])
  }

  ghost predicate RetOk(g: Shared, r: Result) {
    r.Done? ==> Decided(g, r.tag) && (r.ok <==> g.ops[r.tag].status == Succeeded)
  }

  predicate Filling(pc: Pc) {
    pc.RdcssFill? || pc.RdcssInitialize?
  }

  ghost predicate OwnOk(g: Shared, t: nat, x: Thread) {
    && t < |g.kd| && t < |g.rd| && (g.rd[t].sn % 2 == 0 <==> Filling(x.pc))
    && (!InExecute(x) && KcasTag(t, g.kd[t].bits.sn) in g.ops ==> Decided(g, KcasTag(t, g.kd[t].bits.sn)))
  }

  ghost predicate ThreadOk(g: Shared, t: nat, x: Thread) {
    Shaped(x) && OwnOk(g, t, x) && StackOk(g, t, x.stack) && PcOk(g, t, x.pc) && RetOk(g, x.ret)
  }

  ghost predicate Inv(s: State) {
    |s.g.kd| == |s.th| && Glob(s.g) && forall t: nat | t < |s.th| :: ThreadOk(s.g, t, s.th[t])
  }

  /* ------------------------------------- what a step leaves to other threads */

  ghost predicate OpGrows(o: Op, o': Op) {
    o'.body == o.body && (o.status != Undecided ==> o'.status == o.status) && (o.mismatch ==> o'.mismatch)
  }

  ghost predicate RopGrows(p: Rop, p': Rop) {
    p'.body == p.body && p'.i == p.i && (p.installed ==> p'.installed)
  }

  /** What never goes back. */
  ghost predicate Grows(g: Shared, g': Shared) {
    && (forall k | k in g.ops :: k in g'.ops && OpGrows(g.ops[k], g'.ops[k]))
    && (forall r | r in g.rops :: r in g'.rops && RopGrows(g.rops[r], g'.rops[r]))
  }

  ghost predicate DescGrow(g: Shared, g': Shared, t: nat) {
    && |g'.mem| == |g.mem| && |g'.kd| == |g.kd| && |g'.rd| == |g.rd|
    && (forall u: nat | u < |g.kd| ::
          g.kd[u].bits.sn <= g'.kd[u].bits.sn
          && (u != t ==> g'.kd[u].bits.sn == g.kd[u].bits.sn && g'.kd[u].body == g.kd[u].body))
    && (forall u: nat | u < |g.rd| :: g.rd[u].sn <= g'.rd[u].sn && (u != t ==> g'.rd[u] == g.rd[u]))
    && (forall r | r in g.rops && r.RdcssTag? && r.tid != t :: r in g'.rops && g'.rops[r] == g.rops[r])
  }

  ghost predicate Newly(g: Shared, g': Shared, k: Word) {
    k in g.ops && k in g'.ops && g.ops[k].status != Succeeded && g'.ops[k].status == Succeeded
  }

  ghost predicate LocksKept(g: Shared, g': Shared) {
    && (forall k, j: nat | Secured(g, k, j) :: Secured(g', k, j))
    && (forall r | Gone(g, r) :: Gone(g', r))
    && (forall k | Newly(g, g', k) :: AllHold(g', k))
  }

  ghost predicate Rely(g: Shared, g': Shared, t: nat) {
    Grows(g, g') && DescGrow(g, g', t) && LocksKept(g, g')
  }

  lemma FrameStable(g: Shared, g': Shared, t: nat, u: nat, f: Frame)
    requires Rely(g, g', t) && FrameOk(g, u, f)
    requires u == t && t < |g.kd| ==> g'.kd[t].bits.sn == g.kd[t].bits.sn
    ensures FrameOk(g', u, f)
    ensures LoopOk(g, u, f) ==> LoopOk(g', u, f)
  {
    if f.HelpFrame? {
      assert OpGrows(g.ops[f.tag], g'.ops[f.tag]);
      forall j: nat | j < f.i ensures Secured(g', f.tag, j) {
        assert Secured(g, f.tag, j);
      }
    }
  }

  lemma StackStable(g: Shared, g': Shared, t: nat, u: nat, fs: seq<Frame>)
    requires Rely(g, g', t) && StackOk(g, u, fs)
    requires u == t && t < |g.kd| ==> g'.kd[t].bits.sn == g.kd[t].bits.sn
    ensures StackOk(g', u, fs)
  {
    forall m: nat | m < |fs| ensures SuspendedOk(g', u, fs[m]) {
      assert SuspendedOk(g, u, fs[m]);
      FrameStable(g, g', t, u, fs[m]);
    }
  }

  lemma BackStable(g: Shared, g': Shared, t: nat, u: nat, b: Back)
    requires Rely(g, g', t) && BackOk(g, u, b) && u != t
    ensures BackOk(g', u, b)
  {
    if b.ToRdcss? {
      assert Ready(g, u, b.f, b.rt);
      FrameStable(g, g', t, u, b.f);
    }
  }

  lemma RdcssHelpStable(g: Shared, g': Shared, t: nat, u: nat, x: RdcssHelp)
    requires Rely(g, g', t) && RdcssHelpOk(g, u, x) && u != t
    ensures RdcssHelpOk(g', u, x)
  {
    assert RopGrows(g.rops[x.rt], g'.rops[x.rt]);
    if x.own {
      FrameStable(g, g', t, u, x.back.f);
    } else {
      BackStable(g, g', t, u, x.back);
    }
  }

  lemma FinishStable(g: Shared, g': Shared, t: nat, rt: Word, b: Body, undecided: bool)
    requires Rely(g, g', t) && Glob(g') && rt in g.rops && g.rops[rt].installed && b == g.rops[rt].body
    requires FinishOk(g, rt, b, undecided)
    ensures FinishOk(g', rt, b, undecided)
  {
    hide OpOk, RopOk, MemOk, Secured, DescGrow;
    var k := b[1];
    assert OpGrows(g.ops[k], g'.ops[k]) && RopGrows(g.rops[rt], g'.rops[rt]);
    if undecided && g'.ops[k].status == Succeeded {
      if g.ops[k].status == Succeeded {
        assert Gone(g, rt);
      } else {
        assert Newly(g, g', k);
        assert RopOk(g', rt);
        LockedOut(g', rt);
      }
      assert Gone(g', rt);
    }
  }

  /** Once every word of a k-CAS carries its tag, its RDCSS tags are out of memory. */
  lemma LockedOut(g: Shared, r: Word)
    requires r in g.rops && g.rops[r].installed && RopOk(g, r) && AllHold(g, g.rops[r].body[1])
    ensures Gone(g, r)
  {
    var p := g.rops[r];
    assert Holds(g, AddrAt(g.ops[p.body[1]].body, p.i), p.body[1]);
  }

  lemma VerdictStable(g: Shared, g': Shared, t: nat, f: Frame, st: Status)
    requires Rely(g, g', t) && VerdictOk(g, f, st)
    ensures VerdictOk(g', f, st)
  {
    assert OpGrows(g.ops[f.tag], g'.ops[f.tag]);
    if st == Succeeded {
      forall j: nat | j < Num(f.snap) ensures Secured(g', f.tag, j) {
        assert Secured(g, f.tag, j);
      }
    }
  }

  lemma RdcssCopyStable(g: Shared, g': Shared, t: nat, back: Back, rt: Word, got: map<nat, Word>)
    requires Rely(g, g', t) && Glob(g) && CopyOk(g, RdcssCopy(back, rt, got))
    ensures CopyOk(g', RdcssCopy(back, rt, got))
  {
    hide LocksKept, OpOk, MemOk;
    assert RopGrows(g.rops[rt], g'.rops[rt]);
    assert RopOk(g, rt);
  }

  lemma KcasCopyStable(g: Shared, g': Shared, t: nat, tag: Word, ssn: int, got: map<nat, Word>)
    requires Rely(g, g', t) && Glob(g) && CopyOk(g, KcasCopy(tag, ssn, got))
    ensures CopyOk(g', KcasCopy(tag, ssn, got))
  {
    hide RopOk, MemOk;
    assert OpGrows(g.ops[tag], g'.ops[tag]);
    assert OpOk(g, tag);
    assert Secured(g', tag, 0);
  }

  /** The places of an RDCSS operation that is being installed or helped. */
  lemma RdcssPcStable(g: Shared, g': Shared, t: nat, u: nat, pc: Pc)
    requires Rely(g, g', t) && Glob(g) && Glob(g') && PcOk(g, u, pc) && u != t
    requires pc.RdcssCopy? || pc.RdcssStatus? || pc.RdcssFinish? || pc.RdcssCas?
    ensures PcOk(g', u, pc)
  {
    hide Glob, Rely, FrameOk, Ready;
    match pc
    case RdcssCopy(back, _, _) => BackStable(g, g', t, u, back); RdcssCopyStable(g, g', t, back, pc.rt, pc.got);
    case RdcssStatus(x) => RdcssHelpStable(g, g', t, u, x);
    case RdcssFinish(x, undecided) => RdcssHelpStable(g, g', t, u, x); FinishStable(g, g', t, x.rt, x.body, undecided);
    case RdcssCas(f, rt) => BackStable(g, g', t, u, ToRdcss(f, rt));
  }

  /** The places inside a call of `help`, before an RDCSS descriptor is published. */
  lemma PhaseOneStable(g: Shared, g': Shared, t: nat, u: nat, pc: Pc)
    requires Rely(g, g', t) && Glob(g) && Glob(g') && PcOk(g, u, pc) && u != t
    requires pc.ReadStatus? || pc.RdcssNew? || pc.RdcssNewWrite? || pc.RdcssFill? || pc.RdcssInitialize?
    ensures PcOk(g', u, pc)
  {
    hide Glob, Rely, FrameOk, Ready;
    FrameStable(g, g', t, u, pc.f);
    if !pc.ReadStatus? && !pc.RdcssNew? {
      RdStable(g, g', t, u);
    }
  }

  /** The places from the deciding CAS on. */
  lemma PhaseTwoStable(g: Shared, g': Shared, t: nat, u: nat, pc: Pc)
    requires Rely(g, g', t) && Glob(g) && Glob(g') && PcOk(g, u, pc) && u != t
    requires pc.DecideRead? || pc.DecideCas? || pc.DecideReread? || pc.PhaseTwo? || pc.Unlock?
    ensures PcOk(g', u, pc)
  {
    hide Glob, Rely, FrameOk, Ready;
    FrameStable(g, g', t, u, pc.f);
    if pc.PhaseTwo? || pc.Unlock? {
      DecidedStable(g, g', t, pc.f.tag);
    } else {
      VerdictStable(g, g', t, pc.f, pc.st);
    }
  }

  lemma PcStable(g: Shared, g': Shared, t: nat, u: nat, pc: Pc)
    requires Rely(g, g', t) && Glob(g) && Glob(g') && PcOk(g, u, pc) && u != t
    ensures PcOk(g', u, pc)
  {
    hide Glob, Rely, FrameOk, Ready;
    if pc.StartWrite? || pc.Initialize? || pc.ReadWord? {
      HeadStable(g, g', t, u, pc);
    } else if pc.RdcssCopy? || pc.RdcssStatus? || pc.RdcssFinish? || pc.RdcssCas? {
      RdcssPcStable(g, g', t, u, pc);
    } else if pc.ReadStatus? || pc.RdcssNew? || pc.RdcssNewWrite? || pc.RdcssFill? || pc.RdcssInitialize? {
      PhaseOneStable(g, g', t, u, pc);
    } else if pc.KcasCopy? {
      KcasCopyStable(g, g', t, pc.tag, pc.ssn, pc.got);
    } else if !pc.Idle? {
      PhaseTwoStable(g, g', t, u, pc);
    }
  }

  lemma RdStable(g: Shared, g': Shared, t: nat, u: nat)
    requires Rely(g, g', t) && u != t && u < |g.rd|
    ensures |g'.rd| == |g.rd| && g'.rd[u] == g.rd[u]
  {
  }

  lemma DecidedStable(g: Shared, g': Shared, t: nat, k: Word)
    requires Rely(g, g', t) && Decided(g, k)
    ensures Decided(g', k) && g'.ops[k].status == g.ops[k].status
  {
    assert OpGrows(g.ops[k], g'.ops[k]);
  }

  lemma HeadStable(g: Shared, g': Shared, t: nat, u: nat, pc: Pc)
    requires Rely(g, g', t) && Glob(g) && Glob(g') && PcOk(g, u, pc) && u != t
    requires pc.StartWrite? || pc.Initialize? || pc.ReadWord?
    ensures PcOk(g', u, pc)
  {
  }

  lemma OwnStable(g: Shared, g': Shared, t: nat, u: nat, x: Thread)
    requires Rely(g, g', t) && Glob(g') && OwnOk(g, u, x) && u != t
    requires forall k | k in g'.ops && k !in g.ops :: k.KcasTag? && k.tid == t
    ensures OwnOk(g', u, x)
  {
    var k := KcasTag(u, g.kd[u].bits.sn);
    if k in g.ops && !InExecute(x) {
      DecidedStable(g, g', t, k);
    }
  }

  lemma ThreadStable(g: Shared, g': Shared, t: nat, u: nat, x: Thread)
    requires Rely(g, g', t) && Glob(g) && Glob(g') && ThreadOk(g, u, x) && u != t
    requires forall k | k in g'.ops && k !in g.ops :: k.KcasTag? && k.tid == t
    ensures ThreadOk(g', u, x)
  {
    hide Rely, Glob, OwnOk, StackOk, PcOk, Shaped;
    OwnStable(g, g', t, u, x);
    StackStable(g, g', t, u, x.stack);
    PcStable(g, g', t, u, x.pc);
    RetStable(g, g', t, x.ret);
  }

  lemma RetStable(g: Shared, g': Shared, t: nat, r: Result)
    requires Rely(g, g', t) && RetOk(g, r)
    ensures RetOk(g', r)
  {
    if r.Done? {
      DecidedStable(g, g', t, r.tag);
    }
  }

  /** A step of thread t: the others keep what they know. */
  lemma InvAfter(s: State, t: nat, s': State)
    requires Inv(s) && t < |s.th| && |s'.th| == |s.th|
    requires forall u: nat | u < |s.th| && u != t :: s'.th[u] == s.th[u]
    requires Glob(s'.g) && Rely(s.g, s'.g, t) && ThreadOk(s'.g, t, s'.th[t])
    requires forall k | k in s'.g.ops && k !in s.g.ops :: k.KcasTag? && k.tid == t
    ensures Inv(s') && Grows(s.g, s'.g)
  {
    hide Glob, ThreadOk;
    assert |s'.g.kd| == |s.g.kd|;
    forall u: nat | u < |s'.th| && u != t ensures ThreadOk(s'.g, u, s'.th[u]) {
      ThreadStable(s.g, s'.g, t, u, s.th[u]);
    }
  }

  lemma InvAfterLocal(s: State, t: nat, s': State)
    requires Inv(s) && t < |s.th| == |s'.th| && s' == s.(th := s.th[t := s'.th[t]])
    requires ThreadOk(s.g, t, s'.th[t])
    ensures Inv(s') && Grows(s.g, s'.g)
  {
    hide Glob, ThreadOk;
  }

  /* ----------------------------------------------------------- local steps */

  /** Moving on inside the same activation. */
  lemma SamePlace(g: Shared, t: nat, x: Thread, pc: Pc)
    requires ThreadOk(g, t, x) && PcOk(g, t, pc)
    requires FrameOf(x.pc).HelpFrame? == FrameOf(pc).HelpFrame?
    requires FrameOf(pc).HelpFrame? ==> FrameOf(x.pc).own == FrameOf(pc).own
    requires Filling(pc) == Filling(x.pc)
    ensures ThreadOk(g, t, x.(pc := pc))
  {
    hide PcOk, StackOk;
  }

  lemma PopOk(s: State, t: nat)
    requires t < |s.th| && ThreadOk(s.g, t, s.th[t]) && !Base(FrameOf(s.th[t].pc)) && !Filling(s.th[t].pc)
    ensures var s' := Pop(s, t); s' == s.(th := s.th[t := s'.th[t]]) && ThreadOk(s.g, t, s'.th[t])
  {
    var x := s.th[t];
    var f := x.stack[|x.stack| - 1];
    assert SuspendedOk(s.g, t, f);
    var x' := Pop(s, t).th[t];
    assert FrameOf(x'.pc) == f;
    assert StackOk(s.g, t, x'.stack) by {
      forall m: nat | m < |x'.stack| ensures SuspendedOk(s.g, t, x'.stack[m]) {
        assert SuspendedOk(s.g, t, x.stack[m]);
      }
    }
  }

  lemma PushOk(g: Shared, t: nat, x: Thread, f: Frame, pc: Pc)
    requires ThreadOk(g, t, x) && FrameOf(x.pc) == f && SuspendedOk(g, t, f) && !Filling(x.pc)
    requires pc.KcasCopy? && PcOk(g, t, pc)
    ensures ThreadOk(g, t, x.(stack := x.stack + [f], pc := pc))
  {
    var x' := x.(stack := x.stack + [f], pc := pc);
    assert StackOk(g, t, x'.stack) by {
      forall m: nat | m < |x'.stack| ensures SuspendedOk(g, t, x'.stack[m]) {
        if m < |x.stack| {
          assert SuspendedOk(g, t, x.stack[m]);
        }
      }
    }
  }

  lemma LeaveOk(s: State, t: nat, f: Frame, ok: bool)
    requires t < |s.th| && ThreadOk(s.g, t, s.th[t]) && FrameOf(s.th[t].pc) == f && f.HelpFrame? && !Filling(s.th[t].pc)
    requires FrameOk(s.g, t, f) && (f.own ==> Decided(s.g, f.tag) && (ok <==> s.g.ops[f.tag].status == Succeeded))
    ensures var s' := Leave(s, t, f, ok); s' == s.(th := s.th[t := s'.th[t]]) && ThreadOk(s.g, t, s'.th[t])
  {
    if !f.own {
      PopOk(s, t);
    }
  }

  lemma StartReadOk(s: State, t: nat, s': State)
    requires Inv(s) && (StartReadStep(s, t, s') || InitializeRead(s, t, s'))
    ensures Inv(s') && Grows(s.g, s'.g)
  {
    assert ThreadOk(s.g, t, s.th[t]);
    SamePlace(s.g, t, s.th[t], s'.th[t].pc);
    InvAfterLocal(s, t, s');
  }

  lemma EnterOk(g: Shared, t: nat, f: Frame)
    requires FrameOk(g, t, f) && f.HelpFrame?
    ensures PcOk(g, t, Enter(f)) && FrameOf(Enter(f)) == f && !Filling(Enter(f))
  {
    if f.i >= Num(f.snap) {
      assert VerdictOk(g, f, Succeeded);
    }
  }

  lemma ReadStatusOk(s: State, t: nat, s': State)
    requires Inv(s) && ReadStatusStep(s, t, s')
    ensures Inv(s') && Grows(s.g, s'.g)
  {
    hide WellFormed, InExecute, Rely, Grows;
    var x := s.th[t];
    assert ThreadOk(s.g, t, x);
    var f := x.pc.f;
    assert OpOk(s.g, f.tag);
    var bits := s.g.kd[f.tag.tid].bits;
    if bits.sn != f.tag.sn {
      LeaveOk(s, t, f, false);
    } else if bits.status == Undecided {
      EnterOk(s.g, t, f);
      SamePlace(s.g, t, x, Enter(f));
    } else {
      SamePlace(s.g, t, x, PhaseTwo(f));
    }
    InvAfterLocal(s, t, s');
  }

  lemma RdcssNewReadOk(s: State, t: nat, s': State)
    requires Inv(s) && RdcssNewRead(s, t, s')
    ensures Inv(s') && Grows(s.g, s'.g)
  {
    assert ThreadOk(s.g, t, s.th[t]);
    SamePlace(s.g, t, s.th[t], s'.th[t].pc);
    InvAfterLocal(s, t, s');
  }

  lemma RdcssCopyWordOk(s: State, t: nat, s': State)
    requires Inv(s) && RdcssCopyWord(s, t, s')
    ensures Inv(s') && Grows(s.g, s'.g)
  {
    hide OpOk, Rely, Grows, Ready, LoopOk, MemOk;
    assert ThreadOk(s.g, t, s.th[t]);
    var pc := s.th[t].pc;
    assert RopOk(s.g, pc.rt);
    SamePlace(s.g, t, s.th[t], s'.th[t].pc);
    InvAfterLocal(s, t, s');
  }

  lemma ResumeOk(g: Shared, t: nat, b: Back)
    requires BackOk(g, t, b)
    ensures PcOk(g, t, Resume(b)) && FrameOf(Resume(b)) == BackFrame(b) && !Filling(Resume(b))
  {
  }

  lemma RdcssCopyCheckOk(s: State, t: nat, s': State)
    requires Inv(s) && RdcssCopyCheck(s, t, s')
    ensures Inv(s') && Grows(s.g, s'.g)
  {
    hide Serves, Rely, Grows, Ready, LoopOk, MemOk;
    assert ThreadOk(s.g, t, s.th[t]);
    var pc := s.th[t].pc;
    assert RopOk(s.g, pc.rt);
    var d := s.g.rd[pc.rt.tid];
    ResumeOk(s.g, t, pc.back);
    if d.sn == pc.rt.sn {
      assert Assemble(pc.got, |d.body|) == s.g.rops[pc.rt].body;
    }
    SamePlace(s.g, t, s.th[t], s'.th[t].pc);
    InvAfterLocal(s, t, s');
  }

  lemma RdcssStatusReadOk(s: State, t: nat, s': State)
    requires Inv(s) && RdcssStatusRead(s, t, s')
    ensures Inv(s') && Grows(s.g, s'.g)
  {
    hide WellFormed, InExecute, Rely, Grows, BackOk, LoopOk;
    assert ThreadOk(s.g, t, s.th[t]);
    var x := s.th[t].pc.x;
    assert RopOk(s.g, x.rt);
    assert OpOk(s.g, x.body[1]);
    SamePlace(s.g, t, s.th[t], s'.th[t].pc);
    InvAfterLocal(s, t, s');
  }

  lemma CopyStart(g: Shared, a: nat, back: Back)
    requires Glob(g) && a < |g.mem|
    ensures g.mem[a].KcasTag? ==> CopyOk(g, KcasCopy(g.mem[a], -1, map[]))
    ensures g.mem[a].RdcssTag? ==> CopyOk(g, RdcssCopy(back, g.mem[a], map[]))
  {
    assert MemOk(g, a);
    if g.mem[a].KcasTag? {
      assert OpOk(g, g.mem[a]);
    } else if g.mem[a].RdcssTag? {
      assert RopOk(g, g.mem[a]);
    }
  }

  lemma ReadWordOk(s: State, t: nat, s': State)
    requires Inv(s) && (ReadBegin(s, t, s') || ReadWordStep(s, t, s'))
    ensures Inv(s') && Grows(s.g, s'.g)
  {
    hide Rely, Grows, Glob, CopyOk;
    var x := s.th[t];
    assert ThreadOk(s.g, t, x);
    if ReadBegin(s, t, s') {
      SamePlace(s.g, t, x, s'.th[t].pc);
    } else {
      var a := x.pc.a;
      var r := s.g.mem[a];
      CopyStart(s.g, a, ToRead(a));
      if r.KcasTag? {
        PushOk(s.g, t, x, ReadFrame(a), KcasCopy(r, -1, map[]));
      } else if r.RdcssTag? {
        SamePlace(s.g, t, x, RdcssCopy(ToRead(a), r, map[]));
      } else {
        SamePlace(s.g, t, x, Idle);
      }
    }
    InvAfterLocal(s, t, s');
  }

  lemma KcasCopyWordOk(s: State, t: nat, s': State)
    requires Inv(s) && KcasCopyWord(s, t, s')
    ensures Inv(s') && Grows(s.g, s'.g)
  {
    assert ThreadOk(s.g, t, s.th[t]);
    assert OpOk(s.g, s.th[t].pc.tag);
    SamePlace(s.g, t, s.th[t], s'.th[t].pc);
    InvAfterLocal(s, t, s');
  }

  lemma KcasCopyCheckOk(s: State, t: nat, s': State)
    requires Inv(s) && KcasCopyCheck(s, t, s')
    ensures Inv(s') && Grows(s.g, s'.g)
  {
    hide StackOk, WellFormed, Num, OwnOk, SuspendedOk;
    var pc := s.th[t].pc;
    assert ThreadOk(s.g, t, s.th[t]);
    assert OpOk(s.g, pc.tag);
    var d := s.g.kd[pc.tag.tid];
    if d.bits.sn == pc.tag.sn {
      assert Assemble(pc.got, |d.body|) == s.g.ops[pc.tag].body;
      SamePlace(s.g, t, s.th[t], s'.th[t].pc);
    } else {
      PopOk(s, t);
    }
    InvAfterLocal(s, t, s');
  }

  lemma DecideReadOk(s: State, t: nat, s': State)
    requires Inv(s) && DecideReadStep(s, t, s')
    ensures Inv(s') && Grows(s.g, s'.g)
  {
    hide Shape, OwnOk, WellFormed, Copied, Rely, Grows, MemOk, RopOk;
    assert ThreadOk(s.g, t, s.th[t]);
    assert OpOk(s.g, s.th[t].pc.f.tag);
    SamePlace(s.g, t, s.th[t], s'.th[t].pc);
    InvAfterLocal(s, t, s');
  }

  lemma PhaseTwoReadOk(s: State, t: nat, s': State)
    requires Inv(s) && PhaseTwoRead(s, t, s')
    ensures Inv(s') && Grows(s.g, s'.g)
  {
    hide SuspendedOk, OwnOk, InExecute, WellFormed, Rely, Grows;
    var f := s.th[t].pc.f;
    assert ThreadOk(s.g, t, s.th[t]);
    assert OpOk(s.g, f.tag);
    var bits := s.g.kd[f.tag.tid].bits;
    if bits.sn != f.tag.sn {
      LeaveOk(s, t, f, false);
    } else {
      SamePlace(s.g, t, s.th[t], s'.th[t].pc);
    }
    InvAfterLocal(s, t, s');
  }

  /* ---------------------------------------------------------- shared steps */

  /** Only the k-CAS descriptor of the acting thread changes, outside any k-CAS of its own. */
  lemma KdGlob(g: Shared, g': Shared, t: nat)
    requires Glob(g) && t < |g.kd| == |g'.kd| && g' == g.(kd := g.kd[t := g'.kd[t]])
    requires g.kd[t].bits.sn <= g'.kd[t].bits.sn && g'.kd[t].bits.status == Undecided
    requires g'.kd[t].bits.sn % 2 == 0
    requires KcasTag(t, g.kd[t].bits.sn) in g.ops ==> Decided(g, KcasTag(t, g.kd[t].bits.sn))
    ensures Glob(g') && Rely(g, g', t)
  {
    hide Serves, WellFormed;
    forall k | k in g'.ops ensures OpOk(g', k) {
      assert OpOk(g, k);
    }
    forall r | r in g'.rops ensures RopOk(g', r) {
      assert RopOk(g, r);
      RopFrame(g, g', r);
    }
    forall a: nat | a < |g'.mem| ensures MemOk(g', a) {
      assert MemOk(g, a);
      assert g.mem[a].KcasTag? && Secured(g, g.mem[a], 0) ==> Secured(g', g.mem[a], 0);
    }
  }

  /** A published RDCSS that this step does not concern. */
  lemma RopFrame(g: Shared, g': Shared, r: Word)
    requires r in g.rops && r in g'.rops && RopOk(g, r)
    requires Grows(g, g') && |g'.rd| == |g.rd|
    requires forall k, j: nat | Secured(g, k, j) :: Secured(g', k, j)
    requires Gone(g', r) ==> Gone(g, r)
    requires r.sn <= g'.rd[r.tid].sn && (r.sn == g'.rd[r.tid].sn ==> g'.rd[r.tid] == g.rd[r.tid])
    ensures RopOk(g', r)
  {
    var p := g.rops[r];
    var k := p.body[1];
    assert RopGrows(p, g'.rops[r]) && OpGrows(g.ops[k], g'.ops[k]);
    forall j: nat | j < p.i ensures Secured(g', k, j) {
      assert Secured(g, k, j);
    }
  }

  lemma StartWriteOk(s: State, t: nat, s': State)
    requires Inv(s) && StartWriteStep(s, t, s')
    ensures Inv(s') && Grows(s.g, s'.g)
  {
    hide Glob, Rely;
    var x := s.th[t];
    assert ThreadOk(s.g, t, x);
    KdGlob(s.g, s'.g, t);
    assert ThreadOk(s'.g, t, s'.th[t]) by {
      NewSn(s.g, s'.g, t);
      RetStable(s.g, s'.g, t, x.ret);
    }
    InvAfter(s, t, s');
  }

  lemma NewSn(g: Shared, g': Shared, t: nat)
    requires Glob(g') && t < |g'.kd| && g'.kd[t].bits.sn % 2 == 0
    ensures KcasTag(t, g'.kd[t].bits.sn) !in g'.ops
  {
    forall k | k in g'.ops ensures k != KcasTag(t, g'.kd[t].bits.sn) {
      assert OpOk(g', k);
    }
  }

  lemma BuildWordOk(s: State, t: nat, s': State)
    requires Inv(s) && BuildWord(s, t, s')
    ensures Inv(s') && Grows(s.g, s'.g)
  {
    hide Rely;
    var x := s.th[t];
    assert ThreadOk(s.g, t, x);
    NewSn(s.g, s.g, t);
    KdGlob(s.g, s'.g, t);
    assert ThreadOk(s'.g, t, s'.th[t]) by {
      NewSn(s.g, s'.g, t);
      RetStable(s.g, s'.g, t, x.ret);
    }
    InvAfter(s, t, s');
  }

  /** Publishing a k-CAS. */
  ghost predicate Published(g: Shared, g': Shared, t: nat) {
    && t < |g.kd| && g.kd[t].bits.sn % 2 == 0 && WellFormed(g.kd[t].body, |g.mem|)
    && g' == g.(kd := g.kd[t := g.kd[t].(bits := SeqBits(g.kd[t].bits.sn + 1, Undecided))],
                ops := g.ops[KcasTag(t, g.kd[t].bits.sn + 1) := Op(g.kd[t].body, Undecided, false)])
  }

  lemma PublishRely(g: Shared, g': Shared, t: nat)
    requires Glob(g) && Published(g, g', t)
    ensures Rely(g, g', t) && KcasTag(t, g.kd[t].bits.sn + 1) !in g.ops
  {
    NewKcasTag(g, t);
    PublishLocks(g, g', t);
    PublishGrows(g, g', t);
    PublishDesc(g, g', t);
    hide Glob, WellFormed, Grows, DescGrow, LocksKept;
  }

  lemma PublishGrows(g: Shared, g': Shared, t: nat)
    requires Published(g, g', t) && KcasTag(t, g.kd[t].bits.sn + 1) !in g.ops
    ensures Grows(g, g')
  {
    hide WellFormed;
  }

  lemma PublishDesc(g: Shared, g': Shared, t: nat)
    requires Published(g, g', t) && KcasTag(t, g.kd[t].bits.sn + 1) !in g.ops
    ensures DescGrow(g, g', t)
  {
    hide WellFormed;
  }

  lemma PublishLocks(g: Shared, g': Shared, t: nat)
    requires Published(g, g', t) && KcasTag(t, g.kd[t].bits.sn + 1) !in g.ops
    ensures LocksKept(g, g')
  {
    hide WellFormed, AddrAt, AllHold, Target;
    forall k, j: nat | Secured(g, k, j) ensures Secured(g', k, j) {
      assert g'.ops[k] == g.ops[k];
    }
    forall k ensures !Newly(g, g', k) {
    }
  }

  lemma NewKcasTag(g: Shared, t: nat)
    requires Glob(g) && t < |g.kd|
    ensures KcasTag(t, g.kd[t].bits.sn + 1) !in g.ops
  {
    hide WellFormed, RopOk, MemOk;
    forall k | k in g.ops ensures k != KcasTag(t, g.kd[t].bits.sn + 1) {
      assert OpOk(g, k);
    }
  }

  lemma PublishOps(g: Shared, g': Shared, t: nat, k: Word)
    requires Glob(g) && Published(g, g', t) && k in g'.ops
    ensures OpOk(g', k)
  {
    hide WellFormed, RopOk, MemOk;
    PublishRely(g, g', t);
    if k != KcasTag(t, g.kd[t].bits.sn + 1) {
      assert OpOk(g, k);
    }
  }

  lemma PublishGlob(g: Shared, g': Shared, t: nat)
    requires Glob(g) && Published(g, g', t)
    ensures Glob(g')
  {
    hide WellFormed, OpOk;
    PublishRely(g, g', t);
    forall k | k in g'.ops ensures OpOk(g', k) {
      PublishOps(g, g', t, k);
    }
    forall r | r in g'.rops ensures RopOk(g', r) {
      assert RopOk(g, r);
      RopFrame(g, g', r);
    }
    forall a: nat | a < |g'.mem| ensures MemOk(g', a) {
      assert MemOk(g, a);
      assert g.mem[a].KcasTag? && Secured(g, g.mem[a], 0) ==> Secured(g', g.mem[a], 0);
    }
  }

  lemma InitializeWriteOk(s: State, t: nat, s': State)
    requires Inv(s) && InitializeWrite(s, t, s')
    ensures Inv(s') && Grows(s.g, s'.g)
  {
    hide OpOk, Rely;
    var x := s.th[t];
    assert ThreadOk(s.g, t, x);
    PublishGlob(s.g, s'.g, t);
    PublishRely(s.g, s'.g, t);
    assert ThreadOk(s'.g, t, s'.th[t]) by {
      RetStable(s.g, s'.g, t, x.ret);
    }
    InvAfter(s, t, s');
  }

  /** Only the RDCSS descriptor of the acting thread changes, while it is unpublished. */
  lemma RdGlob(g: Shared, g': Shared, t: nat)
    requires Glob(g) && t < |g.rd| == |g'.rd| && g' == g.(rd := g.rd[t := g'.rd[t]])
    requires g.rd[t].sn <= g'.rd[t].sn && g'.rd[t].sn % 2 == 0 && |g'.rd[t].body| == 5
    ensures Glob(g') && Rely(g, g', t)
  {
    hide Serves, WellFormed;
    forall k | k in g'.ops ensures OpOk(g', k) {
      assert OpOk(g, k);
    }
    forall r | r in g'.rops ensures RopOk(g', r) {
      assert RopOk(g, r);
      RopFrame(g, g', r);
    }
    forall a: nat | a < |g'.mem| ensures MemOk(g', a) {
      assert MemOk(g, a);
      assert g.mem[a].KcasTag? && Secured(g, g.mem[a], 0) ==> Secured(g', g.mem[a], 0);
    }
  }

  /** The acting thread inside `help`: its frames survive the step. */
  lemma ActorOk(g: Shared, g': Shared, t: nat, x: Thread, pc: Pc)
    requires Glob(g) && Glob(g') && Rely(g, g', t) && ThreadOk(g, t, x) && PcOk(g', t, pc)
    requires t < |g.kd| && t < |g'.kd| && g'.kd[t].bits.sn == g.kd[t].bits.sn
    requires t < |g'.rd| && (g'.rd[t].sn % 2 == 0 <==> Filling(pc))
    requires FrameOf(x.pc).HelpFrame? == FrameOf(pc).HelpFrame?
    requires FrameOf(pc).HelpFrame? ==> FrameOf(x.pc).own == FrameOf(pc).own
    requires forall k | k in g'.ops && k !in g.ops :: false
    ensures ThreadOk(g', t, x.(pc := pc))
  {
    hide Glob, Rely, PcOk, StackOk;
    StackStable(g, g', t, t, x.stack);
    RetStable(g, g', t, x.ret);
    var k := KcasTag(t, g.kd[t].bits.sn);
    if k in g.ops && Decided(g, k) {
      DecidedStable(g, g', t, k);
    }
  }

  lemma RdcssNewStoreOk(s: State, t: nat, s': State)
    requires Inv(s) && RdcssNewStore(s, t, s')
    ensures Inv(s') && Grows(s.g, s'.g)
  {
    hide Rely, OpOk, RopOk, MemOk;
    var f := s.th[t].pc.f;
    assert ThreadOk(s.g, t, s.th[t]);
    RdGlob(s.g, s'.g, t);
    FrameStable(s.g, s'.g, t, t, f);
    ActorOk(s.g, s'.g, t, s.th[t], s'.th[t].pc);
    InvAfter(s, t, s');
  }

  lemma RdcssFillOk(s: State, t: nat, s': State)
    requires Inv(s) && RdcssFillStep(s, t, s')
    ensures Inv(s') && Grows(s.g, s'.g)
  {
    hide Rely, OpOk, RopOk, MemOk;
    var f := s.th[t].pc.f;
    assert ThreadOk(s.g, t, s.th[t]);
    if s.th[t].pc.j < 5 {
      RdGlob(s.g, s'.g, t);
      FrameStable(s.g, s'.g, t, t, f);
      ActorOk(s.g, s'.g, t, s.th[t], s'.th[t].pc);
      InvAfter(s, t, s');
    } else {
      SamePlace(s.g, t, s.th[t], s'.th[t].pc);
      InvAfterLocal(s, t, s');
    }
  }

  ghost predicate RdcssPublished(g: Shared, g': Shared, t: nat, f: Frame) {
    && FillOk(g, t, f, 5) && g.rd[t].sn % 2 == 0
    && g' == g.(rd := g.rd[t := g.rd[t].(sn := g.rd[t].sn + 1)],
                rops := g.rops[RdcssTag(t, g.rd[t].sn + 1) := Rop(g.rd[t].body, f.i, false)])
  }

  lemma RdcssPublishRely(g: Shared, g': Shared, t: nat, f: Frame)
    requires Glob(g) && RdcssPublished(g, g', t, f)
    ensures Rely(g, g', t) && RdcssTag(t, g.rd[t].sn + 1) !in g.rops
    ensures g.rd[t].body == RdcssBody(f.tag, f.snap, f.i)
  {
    NewRdcssTag(g, t);
    RdcssPublishGrows(g, g', t, f);
    RdcssPublishDesc(g, g', t, f);
    hide Glob, RdcssBody, LoopOk, Grows, DescGrow;
  }

  lemma RdcssPublishDesc(g: Shared, g': Shared, t: nat, f: Frame)
    requires RdcssPublished(g, g', t, f) && RdcssTag(t, g.rd[t].sn + 1) !in g.rops
    ensures DescGrow(g, g', t)
  {
    hide RdcssBody, LoopOk;
  }

  lemma NewRdcssTag(g: Shared, t: nat)
    requires Glob(g) && t < |g.rd|
    ensures RdcssTag(t, g.rd[t].sn + 1) !in g.rops
  {
    hide Serves, OpOk, MemOk;
    forall r | r in g.rops ensures r != RdcssTag(t, g.rd[t].sn + 1) {
      assert RopOk(g, r);
    }
  }

  lemma RdcssPublishGrows(g: Shared, g': Shared, t: nat, f: Frame)
    requires RdcssPublished(g, g', t, f) && RdcssTag(t, g.rd[t].sn + 1) !in g.rops
    ensures Grows(g, g')
  {
    hide RdcssBody, LoopOk;
  }

  lemma RdcssPublishOps(g: Shared, g': Shared, t: nat, f: Frame, k: Word)
    requires Glob(g) && RdcssPublished(g, g', t, f) && k in g'.ops
    ensures OpOk(g', k)
  {
    hide AllHold, WellFormed, RopOk, MemOk, LoopOk;
    RdcssPublishRely(g, g', t, f);
    assert OpOk(g, k);
  }

  lemma RdcssPublishRops(g: Shared, g': Shared, t: nat, f: Frame, r: Word)
    requires Glob(g) && RdcssPublished(g, g', t, f) && r in g'.rops
    ensures RopOk(g', r)
  {
    hide AllHold, WellFormed, OpOk, MemOk;
    RdcssPublishRely(g, g', t, f);
    if r != RdcssTag(t, g.rd[t].sn + 1) {
      assert RopOk(g, r);
      RopFrame(g, g', r);
    } else {
      assert SecuredTo(g', f.tag, f.i);
    }
  }

  /** Publishing an RDCSS. */
  lemma RdcssPublishGlob(g: Shared, g': Shared, t: nat, f: Frame)
    requires Glob(g) && RdcssPublished(g, g', t, f)
    ensures Glob(g')
  {
    hide WellFormed, OpOk, RopOk, LoopOk;
    RdcssPublishRely(g, g', t, f);
    forall k | k in g'.ops ensures OpOk(g', k) {
      RdcssPublishOps(g, g', t, f, k);
    }
    forall r | r in g'.rops ensures RopOk(g', r) {
      RdcssPublishRops(g, g', t, f, r);
    }
    forall a: nat | a < |g'.mem| ensures MemOk(g', a) {
      assert MemOk(g, a);
    }
  }

  lemma RdcssPublishOk(s: State, t: nat, s': State)
    requires Inv(s) && RdcssPublish(s, t, s')
    ensures Inv(s') && Grows(s.g, s'.g)
  {
    hide Rely, OpOk, RopOk, MemOk;
    var f := s.th[t].pc.f;
    assert ThreadOk(s.g, t, s.th[t]);
    RdcssPublishGlob(s.g, s'.g, t, f);
    RdcssPublishRely(s.g, s'.g, t, f);
    FrameStable(s.g, s'.g, t, t, f);
    ActorOk(s.g, s'.g, t, s.th[t], s'.th[t].pc);
    InvAfter(s, t, s');
  }

  /* ------------------------------------------------------- writes to memory */

  /** Nothing but the word a changes, and no tag of an undecided k-CAS is overwritten. */
  ghost predicate Swaps(g: Shared, g': Shared, a: nat) {
    && a < |g.mem| == |g'.mem| && g' == g.(mem := g'.mem, rops := g'.rops)
    && (forall b: nat | b < |g.mem| && b != a :: g'.mem[b] == g.mem[b])
    && (g.mem[a].KcasTag? ==> Decided(g, g.mem[a]))
  }

  lemma SwapOps(g: Shared, g': Shared, a: nat)
    requires Glob(g) && Swaps(g, g', a)
    ensures forall k | k in g'.ops :: OpOk(g', k)
    ensures forall k, j: nat | Secured(g, k, j) :: Secured(g', k, j)
  {
    hide WellFormed, RopOk, MemOk;
    forall k | k in g'.ops ensures OpOk(g', k) {
      assert OpOk(g, k);
    }
    forall k, j: nat | Secured(g, k, j) ensures Secured(g', k, j) {
      assert OpOk(g, k);
    }
  }

  lemma SwapMem(g: Shared, g': Shared, a: nat, b: nat)
    requires Swaps(g, g', a) && Grows(g, g') && MemOk(g, b) && b != a
    requires forall k, j: nat | Secured(g, k, j) :: Secured(g', k, j)
    ensures MemOk(g', b)
  {
    if g.mem[b].RdcssTag? {
      assert RopGrows(g.rops[g.mem[b]], g'.rops[g.mem[b]]);
    }
    assert g.mem[b].KcasTag? ==> Secured(g', g.mem[b], 0);
  }

  /** The CAS of an RDCSS succeeds. */
  ghost predicate Installs(g: Shared, g': Shared, t: nat, f: Frame, rt: Word, a: nat) {
    && Ready(g, t, f, rt) && a == AddrAt(f.snap, f.i) && a < |g.mem| && g.mem[a] == OldAt(f.snap, f.i)
    && g' == g.(mem := g.mem[a := rt], rops := g.rops[rt := g.rops[rt].(installed := true)])
  }

  lemma InstallRely(g: Shared, g': Shared, t: nat, f: Frame, rt: Word, a: nat)
    requires Glob(g) && Installs(g, g', t, f, rt, a)
    ensures Swaps(g, g', a) && g.mem[a].Plain? && Rely(g, g', t)
  {
    hide RopOk, MemOk;
    assert OpOk(g, f.tag);
    SwapOps(g, g', a);
    assert Grows(g, g');
    assert forall r | Gone(g, r) :: Gone(g', r);
  }

  lemma InstallGlob(g: Shared, g': Shared, t: nat, f: Frame, rt: Word, a: nat)
    requires Glob(g) && Installs(g, g', t, f, rt, a)
    ensures Glob(g')
  {
    hide Serves, WellFormed, OpOk;
    InstallRely(g, g', t, f, rt, a);
    SwapOps(g, g', a);
    forall r | r in g'.rops ensures RopOk(g', r) {
      assert RopOk(g, r);
      RopFrame(g, g', r);
    }
    forall b: nat | b < |g'.mem| ensures MemOk(g', b) {
      if b != a {
        assert MemOk(g, b);
        SwapMem(g, g', a, b);
      }
    }
  }

  /** A CAS takes an RDCSS tag out of its word. */
  ghost predicate Removes(g: Shared, g': Shared, rt: Word, a: nat, undecided: bool) {
    && rt in g.rops && g.rops[rt].installed && FinishOk(g, rt, g.rops[rt].body, undecided)
    && var b := g.rops[rt].body;
    && a == Target(b) && Holds(g, a, rt)
    && g' == g.(mem := g.mem[a := if undecided then b[4] else b[2]])
  }

  lemma RemoveRely(g: Shared, g': Shared, t: nat, rt: Word, a: nat, undecided: bool)
    requires Glob(g) && Removes(g, g', rt, a, undecided)
    ensures Swaps(g, g', a) && Rely(g, g', t) && rt.RdcssTag?
  {
    hide OpOk, MemOk;
    assert RopOk(g, rt);
    SwapOps(g, g', a);
    RemovedWord(g, g', rt, a, undecided);
    forall r | Gone(g, r) ensures Gone(g', r) {
      assert RopOk(g, r);
    }
  }

  lemma RemoveGlob(g: Shared, g': Shared, t: nat, rt: Word, a: nat, undecided: bool)
    requires Glob(g) && Removes(g, g', rt, a, undecided)
    ensures Glob(g')
  {
    hide OpOk;
    RemoveRely(g, g', t, rt, a, undecided);
    SwapOps(g, g', a);
    RemovedWord(g, g', rt, a, undecided);
    forall r | r in g'.rops ensures RopOk(g', r) {
      assert RopOk(g, r);
      if r != rt {
        RopFrame(g, g', r);
      } else {
        assert SecuredTo(g', g.rops[rt].body[1], g.rops[rt].i);
      }
    }
    forall b: nat | b < |g'.mem| ensures MemOk(g', b) {
      if b != a {
        assert MemOk(g, b);
        SwapMem(g, g', a, b);
      }
    }
  }

  /** The word then holds the tag of the k-CAS, or the expected value. */
  lemma RemovedWord(g: Shared, g': Shared, rt: Word, a: nat, undecided: bool)
    requires Glob(g) && Removes(g, g', rt, a, undecided)
    ensures MemOk(g', a) && |g.rops[rt].body| == 5 && Secured(g', g.rops[rt].body[1], g.rops[rt].i)
    ensures !g'.mem[a].RdcssTag? && (undecided || g'.mem[a].Plain?)
  {
    assert RopOk(g, rt);
    var k := g.rops[rt].body[1];
    var i := g.rops[rt].i;
    assert OpOk(g, k);
    assert a == AddrAt(g.ops[k].body, i);
    assert i > 0 ==> Secured(g, k, 0);
    assert EntryFor(g.ops[k].body, a);
    assert MemOk(g', a);
  }

  lemma RdcssCasOk(s: State, t: nat, s': State)
    requires Inv(s) && RdcssCasStep(s, t, s')
    ensures Inv(s') && Grows(s.g, s'.g)
  {
    hide Rely, OpOk, RopOk, MemOk;
    var x := s.th[t];
    var f := x.pc.f;
    var rt := x.pc.rt;
    assert ThreadOk(s.g, t, x);
    var a := AddrAt(f.snap, f.i);
    if s.g.mem[a] == OldAt(f.snap, f.i) {
      InstallRely(s.g, s'.g, t, f, rt, a);
      InstallGlob(s.g, s'.g, t, f, rt, a);
      FrameStable(s.g, s'.g, t, t, f);
      ActorOk(s.g, s'.g, t, x, s'.th[t].pc);
      InvAfter(s, t, s');
    } else {
      AfterRdcssOk(s, t, s', f, rt, a);
    }
  }

  /** The CAS finds a plain word that is not the old one: the operation is going to fail. */
  lemma MismatchOk(s: State, t: nat, s': State, f: Frame, rt: Word, a: nat)
    requires Inv(s) && t < |s.th| && s.th[t].pc == RdcssCas(f, rt) && f.HelpFrame?
    requires a == AddrAt(f.snap, f.i) && a < |s.g.mem| && s' == AfterRdcss(s, t, f, rt, s.g.mem[a])
    requires s.g.mem[a].Plain? && s.g.mem[a] != f.tag
    ensures Inv(s') && Grows(s.g, s'.g)
  {
    hide InExecute, AddrAt, Num, StackOk, RdcssBody, Rely, Glob, CopyOk, Grows;
    var x := s.th[t];
    assert ThreadOk(s.g, t, x);
    WitnessGlob(s.g, s'.g, t, f.tag);
    FrameStable(s.g, s'.g, t, t, f);
    ActorOk(s.g, s'.g, t, x, s'.th[t].pc);
    InvAfter(s, t, s');
  }

  lemma AfterRdcssOk(s: State, t: nat, s': State, f: Frame, rt: Word, a: nat)
    requires Inv(s) && t < |s.th| && s.th[t].pc == RdcssCas(f, rt) && f.HelpFrame?
    requires a == AddrAt(f.snap, f.i) && a < |s.g.mem| && s' == AfterRdcss(s, t, f, rt, s.g.mem[a])
    ensures Inv(s') && Grows(s.g, s'.g)
  {
    hide InExecute, AddrAt, Num, StackOk, RdcssBody, Glob, CopyOk, Grows;
    var x := s.th[t];
    var r := s.g.mem[a];
    assert ThreadOk(s.g, t, x);
    CopyStart(s.g, a, ToRdcss(f, rt));
    if r.RdcssTag? {
      SamePlace(s.g, t, x, s'.th[t].pc);
      InvAfterLocal(s, t, s');
    } else if r == f.tag {
      assert SecuredTo(s.g, f.tag, f.i + 1);
      EnterOk(s.g, t, Advance(f));
      SamePlace(s.g, t, x, s'.th[t].pc);
      InvAfterLocal(s, t, s');
    } else if r.KcasTag? {
      PushOk(s.g, t, x, f, KcasCopy(r, -1, map[]));
      InvAfterLocal(s, t, s');
    } else {
      MismatchOk(s, t, s', f, rt, a);
    }
  }

  lemma WitnessRely(g: Shared, g': Shared, t: nat, k: Word)
    requires k in g.ops && g' == g.(ops := g.ops[k := Witness(g.ops[k])])
    ensures Rely(g, g', t)
  {
    forall q, j: nat | Secured(g, q, j) ensures Secured(g', q, j) {
      assert q == k || g'.ops[q] == g.ops[q];
    }
  }

  lemma WitnessGlob(g: Shared, g': Shared, t: nat, k: Word)
    requires Glob(g) && k in g.ops && g' == g.(ops := g.ops[k := Witness(g.ops[k])])
    ensures Glob(g') && Rely(g, g', t)
    ensures Decided(g', k) || g'.ops[k].mismatch
  {
    hide WellFormed;
    WitnessRely(g, g', t, k);
    forall q | q in g'.ops ensures OpOk(g', q) {
      assert OpOk(g, q);
    }
    forall r | r in g'.rops ensures RopOk(g', r) {
      assert RopOk(g, r);
      RopFrame(g, g', r);
    }
    forall a: nat | a < |g'.mem| ensures MemOk(g', a) {
      assert MemOk(g, a);
      assert g.mem[a].KcasTag? ==> Secured(g', g.mem[a], 0);
    }
  }

  lemma RdcssFinishOk(s: State, t: nat, s': State)
    requires Inv(s) && RdcssFinishCas(s, t, s')
    ensures Inv(s') && Grows(s.g, s'.g)
  {
    hide Serves, RdcssBody, InExecute, Rely, OpOk, MemOk, Swaps;
    var th := s.th[t];
    var x := th.pc.x;
    var und := th.pc.undecided;
    assert ThreadOk(s.g, t, th);
    assert RopOk(s.g, x.rt);
    var a := Target(x.body);
    if s.g.mem[a] == x.rt {
      assert Removes(s.g, s'.g, x.rt, a, und);
      RemoveRely(s.g, s'.g, t, x.rt, a, und);
      RemoveGlob(s.g, s'.g, t, x.rt, a, und);
      RemovedWord(s.g, s'.g, x.rt, a, und);
      FinishedOk(s.g, s'.g, t, x);
      ActorOk(s.g, s'.g, t, th, s'.th[t].pc);
      InvAfter(s, t, s');
    } else {
      assert Gone(s.g, x.rt);
      RelyRefl(s.g, t);
      FinishedOk(s.g, s.g, t, x);
      SamePlace(s.g, t, th, s'.th[t].pc);
      InvAfterLocal(s, t, s');
    }
  }

  lemma RelyRefl(g: Shared, t: nat)
    ensures Rely(g, g, t)
  {
  }

  /** After the removal the acting thread goes on with the next entry, or resumes. */
  lemma FinishedOk(g: Shared, g': Shared, t: nat, x: RdcssHelp)
    requires Rely(g, g', t) && RdcssHelpOk(g, t, x) && x.rt in g'.rops && |x.body| == 5
    requires Secured(g', x.body[1], g.rops[x.rt].i)
    requires g'.kd == g.kd && g'.rd == g.rd && g'.rops == g.rops
    ensures var pc := if x.own && x.back.ToRdcss? then Enter(Advance(x.back.f)) else Resume(x.back);
            && PcOk(g', t, pc) && !Filling(pc)
            && (BackFrame(x.back).HelpFrame? == FrameOf(pc).HelpFrame?)
            && (BackFrame(x.back).HelpFrame? ==> BackFrame(x.back).own == FrameOf(pc).own)
  {
    hide LocksKept;
    if x.own {
      var f := x.back.f;
      FrameStable(g, g', t, t, f);
      assert SecuredTo(g', f.tag, f.i + 1);
      EnterOk(g', t, Advance(f));
    } else {
      if x.back.ToRdcss? {
        FrameStable(g, g', t, t, x.back.f);
      }
      ResumeOk(g', t, x.back);
    }
  }

  lemma UnlockOk(s: State, t: nat, s': State)
    requires Inv(s) && UnlockCas(s, t, s')
    ensures Inv(s') && Grows(s.g, s'.g)
  {
    hide Leave, Glob, DescGrow, SecuredTo, Rely, OpOk, MemOk, RopOk;
    var th := s.th[t];
    var pc := th.pc;
    var f := pc.f;
    assert ThreadOk(s.g, t, th);
    if pc.j >= Num(f.snap) {
      LeaveOk(s, t, f, pc.ok);
      InvAfterLocal(s, t, s');
    } else {
      var a := AddrAt(f.snap, pc.j);
      if s.g.mem[a] == f.tag {
        ReleaseRely(s.g, s'.g, t, f.tag, pc.j, pc.ok);
        ReleaseGlob(s.g, s'.g, t, f.tag, pc.j, pc.ok);
        FrameStable(s.g, s'.g, t, t, f);
        DecidedStable(s.g, s'.g, t, f.tag);
        ActorOk(s.g, s'.g, t, th, s'.th[t].pc);
        InvAfter(s, t, s');
      } else {
        SamePlace(s.g, t, th, s'.th[t].pc);
        InvAfterLocal(s, t, s');
      }
    }
  }

  /** Phase two takes the tag of a decided k-CAS out of a word. */
  ghost predicate Releases(g: Shared, g': Shared, k: Word, j: nat, ok: bool) {
    && Decided(g, k)
    && var b := g.ops[k].body;
    && j < Num(b) && Holds(g, AddrAt(b, j), k) && (ok <==> g.ops[k].status == Succeeded)
    && g' == g.(mem := g.mem[AddrAt(b, j) := if ok then NewAt(b, j) else OldAt(b, j)])
  }

  lemma ReleaseRely(g: Shared, g': Shared, t: nat, k: Word, j: nat, ok: bool)
    requires Glob(g) && Releases(g, g', k, j, ok)
    ensures Rely(g, g', t) && Swaps(g, g', AddrAt(g.ops[k].body, j))
    ensures g'.mem[AddrAt(g.ops[k].body, j)].Plain? && k.KcasTag?
  {
    hide Serves, MemOk;
    assert OpOk(g, k);
    hide OpOk;
    SwapOps(g, g', AddrAt(g.ops[k].body, j));
    forall r | Gone(g, r) ensures Gone(g', r) {
      assert RopOk(g, r);
    }
  }

  lemma ReleaseGlob(g: Shared, g': Shared, t: nat, k: Word, j: nat, ok: bool)
    requires Glob(g) && Releases(g, g', k, j, ok)
    ensures Glob(g')
  {
    hide OpOk;
    var a := AddrAt(g.ops[k].body, j);
    ReleaseRely(g, g', t, k, j, ok);
    SwapOps(g, g', a);
    forall r | r in g'.rops ensures RopOk(g', r) {
      assert RopOk(g, r);
      RopFrame(g, g', r);
    }
    forall c: nat | c < |g'.mem| ensures MemOk(g', c) {
      if c != a {
        assert MemOk(g, c);
        SwapMem(g, g', a, c);
      }
    }
  }

  /** The CAS that decides a k-CAS. */
  ghost predicate DecidesAs(g: Shared, g': Shared, f: Frame, st: Status) {
    && f.HelpFrame? && VerdictOk(g, f, st) && f.tag.KcasTag? && f.tag.tid < |g.kd| && f.tag in g.ops
    && f.snap == g.ops[f.tag].body && f.ssn == f.tag.sn
    && var u := f.tag.tid;
    && g.kd[u].bits == SeqBits(f.ssn, Undecided)
    && g' == g.(kd := g.kd[u := g.kd[u].(bits := SeqBits(f.ssn, st))],
                ops := g.ops[f.tag := g.ops[f.tag].(status := st)])
  }

  lemma DecideRely(g: Shared, g': Shared, t: nat, f: Frame, st: Status)
    requires Glob(g) && DecidesAs(g, g', f, st)
    ensures Rely(g, g', t) && g.ops[f.tag].status == Undecided
    ensures st == Succeeded ==> AllHold(g, f.tag)
  {
    DecideFinds(g, g', f, st);
    DecideLocks(g, g', f, st);
    DecideGrows(g, g', f, st);
    hide Glob, WellFormed, VerdictOk, AllHold, Grows, LocksKept;
  }

  /** The operation is undecided, and it succeeds only with its tag in all its words. */
  lemma DecideFinds(g: Shared, g': Shared, f: Frame, st: Status)
    requires Glob(g) && DecidesAs(g, g', f, st)
    ensures g.ops[f.tag].status == Undecided && (st == Succeeded ==> AllHold(g, f.tag))
  {
    hide WellFormed, AddrAt, Target, NewAt, Shape, RopOk, MemOk;
    assert OpOk(g, f.tag);
    if st == Succeeded {
      forall j: nat | j < Num(g.ops[f.tag].body) ensures Holds(g, AddrAt(g.ops[f.tag].body, j), f.tag) {
        assert Secured(g, f.tag, j);
      }
    }
  }

  lemma DecideGrows(g: Shared, g': Shared, f: Frame, st: Status)
    requires DecidesAs(g, g', f, st) && g.ops[f.tag].status == Undecided
    ensures Grows(g, g')
  {
    hide WellFormed, VerdictOk;
  }

  lemma DecideLocks(g: Shared, g': Shared, f: Frame, st: Status)
    requires DecidesAs(g, g', f, st) && g.ops[f.tag].status == Undecided && (st == Succeeded ==> AllHold(g, f.tag))
    ensures LocksKept(g, g')
  {
    hide WellFormed, VerdictOk, AddrAt, Num;
    forall k, j: nat | Secured(g, k, j) ensures Secured(g', k, j) {
      assert k == f.tag || g'.ops[k] == g.ops[k];
    }
  }

  lemma DecideOps(g: Shared, g': Shared, t: nat, f: Frame, st: Status, k: Word)
    requires Glob(g) && DecidesAs(g, g', f, st) && k in g'.ops
    ensures OpOk(g', k)
  {
    hide WellFormed, RopOk, MemOk;
    DecideRely(g, g', t, f, st);
    assert OpOk(g, f.tag) && OpOk(g, k);
  }

  lemma DecideWords(g: Shared, g': Shared, t: nat, f: Frame, st: Status, a: nat)
    requires Glob(g) && DecidesAs(g, g', f, st) && a < |g'.mem|
    ensures MemOk(g', a)
  {
    hide WellFormed, RopOk, DescGrow;
    DecideRely(g, g', t, f, st);
    assert OpOk(g, f.tag) && MemOk(g, a);
    hide OpOk;
    assert g.mem[a].KcasTag? ==> Secured(g', g.mem[a], 0);
  }

  lemma DecideShape(g: Shared, g': Shared, f: Frame, st: Status)
    requires Glob(g) && DecidesAs(g, g', f, st)
    ensures Shape(g')
  {
    hide WellFormed, RopOk, MemOk;
    assert OpOk(g, f.tag);
  }

  lemma DecideGlob(g: Shared, g': Shared, t: nat, f: Frame, st: Status)
    requires Glob(g) && DecidesAs(g, g', f, st)
    ensures Glob(g')
  {
    hide WellFormed, SecuredTo, OpOk, MemOk;
    DecideShape(g, g', f, st);
    hide Shape;
    DecideRely(g, g', t, f, st);
    forall k | k in g'.ops ensures OpOk(g', k) {
      DecideOps(g, g', t, f, st, k);
    }
    forall r | r in g'.rops ensures RopOk(g', r) {
      assert RopOk(g, r);
      RopFrame(g, g', r);
    }
    forall a: nat | a < |g'.mem| ensures MemOk(g', a) {
      DecideWords(g, g', t, f, st, a);
    }
  }

  lemma DecideCasOk(s: State, t: nat, s': State)
    requires Inv(s) && DecideCasStep(s, t, s')
    ensures Inv(s') && Grows(s.g, s'.g)
  {
    hide InExecute, Rely, MemOk, RopOk, OpOk;
    var th := s.th[t];
    var f := th.pc.f;
    assert ThreadOk(s.g, t, th);
    if Decides(s, t) {
      DecideRely(s.g, s'.g, t, f, th.pc.st);
      DecideGlob(s.g, s'.g, t, f, th.pc.st);
      FrameStable(s.g, s'.g, t, t, f);
      ActorOk(s.g, s'.g, t, th, s'.th[t].pc);
      InvAfter(s, t, s');
    } else {
      SamePlace(s.g, t, th, s'.th[t].pc);
      InvAfterLocal(s, t, s');
    }
  }

  /* ------------------------------------------------------------------ runs */

  lemma InitOk(s: State)
    requires Init(s)
    ensures Inv(s)
  {
  }

  lemma LocalStepOk(s: State, t: nat, s': State)
    requires Inv(s) && LocalStep(s, t, s')
    ensures Inv(s') && Grows(s.g, s'.g)
  {
    if StartReadStep(s, t, s') || InitializeRead(s, t, s') { StartReadOk(s, t, s'); }
    else if ReadStatusStep(s, t, s') { ReadStatusOk(s, t, s'); }
    else if RdcssNewRead(s, t, s') { RdcssNewReadOk(s, t, s'); }
    else if RdcssCopyWord(s, t, s') { RdcssCopyWordOk(s, t, s'); }
    else if RdcssCopyCheck(s, t, s') { RdcssCopyCheckOk(s, t, s'); }
    else if RdcssStatusRead(s, t, s') { RdcssStatusReadOk(s, t, s'); }
    else if KcasCopyWord(s, t, s') { KcasCopyWordOk(s, t, s'); }
    else if KcasCopyCheck(s, t, s') { KcasCopyCheckOk(s, t, s'); }
    else if DecideReadStep(s, t, s') { DecideReadOk(s, t, s'); }
    else if PhaseTwoRead(s, t, s') { PhaseTwoReadOk(s, t, s'); }
    else { ReadWordOk(s, t, s'); }
  }

  lemma SharedStepOk(s: State, t: nat, s': State)
    requires Inv(s) && SharedStep(s, t, s')
    ensures Inv(s') && Grows(s.g, s'.g)
  {
    if StartWriteStep(s, t, s') { StartWriteOk(s, t, s'); }
    else if BuildWord(s, t, s') { BuildWordOk(s, t, s'); }
    else if InitializeWrite(s, t, s') { InitializeWriteOk(s, t, s'); }
    else if RdcssNewStore(s, t, s') { RdcssNewStoreOk(s, t, s'); }
    else if RdcssFillStep(s, t, s') { RdcssFillOk(s, t, s'); }
    else if RdcssPublish(s, t, s') { RdcssPublishOk(s, t, s'); }
    else if RdcssCasStep(s, t, s') { RdcssCasOk(s, t, s'); }
    else if RdcssFinishCas(s, t, s') { RdcssFinishOk(s, t, s'); }
    else if DecideCasStep(s, t, s') { DecideCasOk(s, t, s'); }
    else { UnlockOk(s, t, s'); }
  }

  lemma NextOk(s: State, s': State)
    requires Inv(s) && Next(s, s')
    ensures Inv(s') && Grows(s.g, s'.g)
  {
    var t: nat :| ThreadStep(s, t, s');
    if LocalStep(s, t, s') {
      LocalStepOk(s, t, s');
    } else {
      SharedStepOk(s, t, s');
    }
  }

  lemma StepKeeps(run: seq<State>, i: nat)
    requires StepAt(run, i) && Inv(run[i])
    ensures Inv(run[i + 1]) && Grows(run[i].g, run[i + 1].g)
  {
    NextOk(run[i], run[i + 1]);
  }

  lemma {:induction false} RunOk(run: seq<State>, i: nat)
    requires Run(run) && i < |run|
    ensures Inv(run[i])
  {
    hide Inv, StepAt;
    if i == 0 {
      InitOk(run[0]);
    } else {
      RunOk(run, i - 1);
      assert StepAt(run, i - 1);
      StepKeeps(run, i - 1);
    }
  }
}
