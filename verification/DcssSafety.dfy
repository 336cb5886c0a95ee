/** Invariants of the DCSS protocol and their preservation by every step. */
module DcssSafety {

  import opened DcssModel
  import opened WordCopies

  /* ------------------------------------------------------------- invariant */

  ghost predicate Decided(g: Shared, k: Word) {
    k in g.ops && g.ops[k].status != Undecided
  }

  ghost predicate Holds(g: Shared, a: nat, w: Word) {
    a < |g.mem| && g.mem[a] == w
  }

  /** The tag was put into its word and taken out again. */
  ghost predicate Gone(g: Shared, k: Word) {
    k in g.ops && g.ops[k].put && !Holds(g, Addr2(g.ops[k].body), k)
  }

  ghost predicate OpOk(g: Shared, k: Word)
    requires k in g.ops
  {
    var o := g.ops[k];
    && k.Tag? && k.tid < |g.desc| && k.sn % 2 == 1 && k.sn <= g.desc[k.tid].mut.sn
    && WellFormed(o.body, |g.ctl|, |g.mem|)
    && (k.sn < g.desc[k.tid].mut.sn ==> o.ended)
    && (k.sn == g.desc[k.tid].mut.sn ==> g.desc[k.tid] == Desc(Mutables(k.sn, o.status), o.body))
    && FateOk(g, k, o)
  }

  ghost predicate FateOk(g: Shared, k: Word, o: Op) {
    && (o.put && o.status == Undecided ==> Holds(g, Addr2(o.body), k))
    && (!o.put ==> o.status == Undecided)
    && (o.status == Succeeded ==> o.met)
    && (o.status == Failed ==> o.missed)
    && (o.ended && o.put ==> Gone(g, k))
  }

  ghost predicate MemOk(g: Shared, a: nat) {
    && a < |g.mem|
    && (g.mem[a].Tag? ==> g.mem[a] in g.ops && g.ops[g.mem[a]].put && Addr2(g.ops[g.mem[a]].body) == a)
  }

  ghost predicate Shape(g: Shared) {
    forall u: nat | u < |g.desc| ::
      && |g.desc[u].body| == 5
      && (g.desc[u].mut.sn % 2 == 0 ==> g.desc[u].mut.status == Undecided)
      && (g.desc[u].mut.status != Undecided ==> Tag(u, g.desc[u].mut.sn) in g.ops)
  }

  ghost predicate Glob(g: Shared) {
    && Shape(g)
    && (forall k | k in g.ops :: OpOk(g, k))
    && (forall a: nat | a < |g.mem| :: MemOk(g, a))
  }

  /* ------------------------------------------------- what a thread knows */

  /** The thread's own operation, before its tag is put into addr2. */
  ghost predicate PutOk(g: Shared, t: nat, tag: Word) {
    && t < |g.desc| && tag == Tag(t, g.desc[t].mut.sn) && tag in g.ops && !g.ops[tag].put && !g.ops[tag].ended
  }

  ghost predicate BackOk(g: Shared, t: nat, b: Back) {
    if b.ToPut? then PutOk(g, t, b.tag) else b.a < |g.mem|
  }

  ghost predicate HelpOk(g: Shared, t: nat, x: Help) {
    && x.tag in g.ops && g.ops[x.tag].put && x.body == g.ops[x.tag].body && x.tag.Tag? && x.ssn == x.tag.sn
    && if x.own then t < |g.desc| && x.tag == Tag(t, g.desc[t].mut.sn) && !g.ops[x.tag].ended
       else BackOk(g, t, x.back)
  }

  ghost predicate SawOk(g: Shared, k: Word, st: Status) {
    && k in g.ops && st != Undecided
    && (Decided(g, k) || (if st == Succeeded then g.ops[k].met else g.ops[k].missed))
  }

  ghost predicate Copied(got: map<nat, int>, b: Body) {
    forall i: nat | i in got :: i < |b| && got[i] == b[i]
  }

  ghost predicate CopyOk(g: Shared, rt: Word, ssn: int, got: map<nat, int>) {
    && rt in g.ops && rt.Tag? && rt.tid < |g.desc| && g.ops[rt].put
    && (g.desc[rt.tid].mut.sn == rt.sn ==> (ssn >= 0 ==> ssn == rt.sn) && Copied(got, g.ops[rt].body))
  }

  /** The state a helper acts on is the state of its operation, or the tag is gone. */
  ghost predicate VerdictOk(g: Shared, k: Word, own: bool, ok: bool) {
    && k in g.ops
    && (own || !Gone(g, k) ==> Decided(g, k) && (ok <==> g.ops[k].status == Succeeded))
  }

  ghost predicate PcOk(g: Shared, t: nat, pc: Pc) {
    match pc
    case Idle => true
    case NewWrite(args, v) =>
      t < |g.desc| && v.sn == g.desc[t].mut.sn && v.sn % 2 == 1 && WellFormed(args, |g.ctl|, |g.mem|)
    case Fill(args, j) =>
      && t < |g.desc| && |g.desc[t].body| == 5 && WellFormed(args, |g.ctl|, |g.mem|) && j <= 5
      && g.desc[t].body[..j] == args[..j]
    case InitWrite(v) => t < |g.desc| && v == g.desc[t].mut && WellFormed(g.desc[t].body, |g.ctl|, |g.mem|)
    case PutCas(tag) => PutOk(g, t, tag)
    case ReadWord(a) => a < |g.mem|
    case Copy(back, rt, ssn, got) => BackOk(g, t, back) && CopyOk(g, rt, ssn, got)
    case ReadControl(x) => HelpOk(g, t, x)
    case StateRead(x, st) => HelpOk(g, t, x) && SawOk(g, x.tag, st)
    case StateCas(x, st, v) => HelpOk(g, t, x) && SawOk(g, x.tag, st) && v.sn == x.ssn
    case Finish(x, ok) => HelpOk(g, t, x) && VerdictOk(g, x.tag, x.own, ok)
  }

  predicate Filling(pc: Pc) {
    pc.Fill? || pc.InitWrite?
  }

  /** The thread is inside `dcssPtr`, after the publication of its operation. */
  predicate Running(pc: Pc) {
    match pc
    case PutCas(_) => true
    case Copy(back, _, _, _) => back.ToPut?
    case ReadControl(x) => x.own || x.back.ToPut?
    case StateRead(x, _) => x.own || x.back.ToPut?
    case StateCas(x, _, _) => x.own || x.back.ToPut?
    case Finish(x, _) => x.own || x.back.ToPut?
    case _ => false
  }

  ghost predicate OwnOk(g: Shared, t: nat, pc: Pc) {
    && t < |g.desc| && (g.desc[t].mut.sn % 2 == 0 <==> Filling(pc))
    && (Tag(t, g.desc[t].mut.sn) in g.ops ==> (g.ops[Tag(t, g.desc[t].mut.sn)].ended <==> !Running(pc)))
  }

  ghost predicate RetOk(g: Shared, r: Result) {
    match r
    case Success(k) => k in g.ops && g.ops[k].ended && g.ops[k].put && g.ops[k].status == Succeeded
    case FailedAddr1(k) => k in g.ops && g.ops[k].ended && g.ops[k].put && g.ops[k].status == Failed
    case FailedAddr2(k, w) => k in g.ops && g.ops[k].ended && !g.ops[k].put && w.Plain? && w != Old2(g.ops[k].body)
    case _ => true
  }

  ghost predicate ThreadOk(g: Shared, t: nat, x: Thread) {
    OwnOk(g, t, x.pc) && PcOk(g, t, x.pc) && RetOk(g, x.ret)
  }

  ghost predicate Inv(s: State) {
    |s.g.desc| == |s.th| && Glob(s.g) && forall t: nat | t < |s.th| :: ThreadOk(s.g, t, s.th[t])
  }

  /* ------------------------------------- what a step leaves to other threads */

  ghost predicate OpGrows(o: Op, o': Op) {
    && o'.body == o.body && (o.status != Undecided ==> o'.status == o.status)
    && (o.put ==> o'.put) && (o.met ==> o'.met) && (o.missed ==> o'.missed)
    && (o.ended ==> o'.ended && o'.put == o.put)
  }

  /** What never goes back. */
  ghost predicate Grows(g: Shared, g': Shared) {
    && (forall k | k in g.ops :: k in g'.ops && OpGrows(g.ops[k], g'.ops[k]))
    && (forall k | Gone(g, k) :: Gone(g', k))
  }

  ghost predicate DescGrow(g: Shared, g': Shared, t: nat) {
    && |g'.ctl| == |g.ctl| && |g'.mem| == |g.mem| && |g'.desc| == |g.desc|
    && (forall u: nat | u < |g.desc| ::
          && g.desc[u].mut.sn <= g'.desc[u].mut.sn
          && (u != t ==> g'.desc[u].mut.sn == g.desc[u].mut.sn && g'.desc[u].body == g.desc[u].body))
    && (forall k | k in g.ops && k.Tag? && k.tid != t ::
          k in g'.ops && g'.ops[k].put == g.ops[k].put && g'.ops[k].ended == g.ops[k].ended)
    && (forall k | k in g'.ops && k !in g.ops :: k.Tag? && k.tid == t)
  }

  ghost predicate Rely(g: Shared, g': Shared, t: nat) {
    Grows(g, g') && DescGrow(g, g', t)
  }

  lemma HelpStable(g: Shared, g': Shared, t: nat, u: nat, x: Help)
    requires Rely(g, g', t) && HelpOk(g, u, x) && u != t
    ensures HelpOk(g', u, x)
  {
    assert OpGrows(g.ops[x.tag], g'.ops[x.tag]);
    if !x.own {
      BackStable(g, g', t, u, x.back);
    }
  }

  lemma BackStable(g: Shared, g': Shared, t: nat, u: nat, b: Back)
    requires Rely(g, g', t) && BackOk(g, u, b) && u != t
    ensures BackOk(g', u, b)
  {
  }

  lemma SawStable(g: Shared, g': Shared, t: nat, k: Word, st: Status)
    requires Rely(g, g', t) && SawOk(g, k, st)
    ensures SawOk(g', k, st)
  {
    assert OpGrows(g.ops[k], g'.ops[k]);
  }

  lemma CopyStable(g: Shared, g': Shared, t: nat, rt: Word, ssn: int, got: map<nat, int>)
    requires Rely(g, g', t) && Glob(g) && CopyOk(g, rt, ssn, got)
    ensures CopyOk(g', rt, ssn, got)
  {
    assert OpGrows(g.ops[rt], g'.ops[rt]);
    assert OpOk(g, rt);
  }

  lemma VerdictStable(g: Shared, g': Shared, t: nat, k: Word, own: bool, ok: bool)
    requires Rely(g, g', t) && VerdictOk(g, k, own, ok)
    ensures VerdictOk(g', k, own, ok)
  {
    assert OpGrows(g.ops[k], g'.ops[k]);
  }

  lemma PcStable(g: Shared, g': Shared, t: nat, u: nat, pc: Pc)
    requires Rely(g, g', t) && Glob(g) && Glob(g') && PcOk(g, u, pc) && u != t && u < |g.desc|
    requires Filling(pc) ==> g.desc[u].mut.sn % 2 == 0
    ensures PcOk(g', u, pc)
  {
    hide OpOk;
    match pc
    case PutCas(tag) => BackStable(g, g', t, u, ToPut(tag));
    case Copy(back, rt, ssn, got) => BackStable(g, g', t, u, back); CopyStable(g, g', t, rt, ssn, got);
    case ReadControl(x) => HelpStable(g, g', t, u, x);
    case StateRead(x, st) => HelpStable(g, g', t, u, x); SawStable(g, g', t, x.tag, st);
    case StateCas(x, st, _) => HelpStable(g, g', t, u, x); SawStable(g, g', t, x.tag, st);
    case Finish(x, ok) => HelpStable(g, g', t, u, x); VerdictStable(g, g', t, x.tag, x.own, ok);
    case _ =>
  }

  lemma RetStable(g: Shared, g': Shared, t: nat, r: Result)
    requires Rely(g, g', t) && RetOk(g, r)
    ensures RetOk(g', r)
  {
    match r
    case Success(k) => assert OpGrows(g.ops[k], g'.ops[k]);
    case FailedAddr1(k) => assert OpGrows(g.ops[k], g'.ops[k]);
    case FailedAddr2(k, _) => assert OpGrows(g.ops[k], g'.ops[k]);
    case _ =>
  }

  lemma ThreadStable(g: Shared, g': Shared, t: nat, u: nat, x: Thread)
    requires Rely(g, g', t) && Glob(g) && Glob(g') && ThreadOk(g, u, x) && u != t
    ensures ThreadOk(g', u, x)
  {
    hide Glob, PcOk;
    PcStable(g, g', t, u, x.pc);
    RetStable(g, g', t, x.ret);
  }

  /** A step of thread t: the others keep what they know. */
  lemma InvAfter(s: State, t: nat, s': State)
    requires Inv(s) && t < |s.th| == |s'.th| && s'.th == s.th[t := s'.th[t]]
    requires Glob(s'.g) && Rely(s.g, s'.g, t) && ThreadOk(s'.g, t, s'.th[t])
    ensures Inv(s') && Grows(s.g, s'.g)
  {
    hide Glob, ThreadOk;
    forall u: nat | u < |s'.th| && u != t ensures ThreadOk(s'.g, u, s'.th[u]) {
      ThreadStable(s.g, s'.g, t, u, s.th[u]);
    }
  }

  lemma InvAfterLocal(s: State, t: nat, s': State)
    requires Inv(s) && t < |s.th| == |s'.th| && s' == s.(th := s.th[t := s'.th[t]])
    requires ThreadOk(s.g, t, s'.th[t])
    ensures Inv(s') && Grows(s.g, s'.g)
  {
    hide Glob, ThreadOk;
  }

  /* ----------------------------------------------------------- local steps */

  lemma ResumeOk(g: Shared, t: nat, b: Back)
    requires BackOk(g, t, b)
    ensures PcOk(g, t, Resume(b)) && (Running(Resume(b)) <==> b.ToPut?) && !Filling(Resume(b))
  {
  }

  lemma CopyStart(g: Shared, a: nat)
    requires Glob(g) && a < |g.mem| && g.mem[a].Tag?
    ensures CopyOk(g, g.mem[a], -1, map[])
  {
    assert MemOk(g, a);
    assert OpOk(g, g.mem[a]);
  }

  lemma LocalHeadOk(s: State, t: nat, s': State)
    requires Inv(s) && (NewRead(s, t, s') || ReadBegin(s, t, s') || ReadStep(s, t, s'))
    ensures Inv(s') && Grows(s.g, s'.g)
  {
    hide Glob, Grows;
    assert ThreadOk(s.g, t, s.th[t]);
    if ReadStep(s, t, s') && s.g.mem[s.th[t].pc.a].Tag? {
      CopyStart(s.g, s.th[t].pc.a);
    }
    InvAfterLocal(s, t, s');
  }

  lemma CopyWordOk(s: State, t: nat, s': State)
    requires Inv(s) && CopyWord(s, t, s')
    ensures Inv(s') && Grows(s.g, s'.g)
  {
    hide Grows, MemOk;
    assert ThreadOk(s.g, t, s.th[t]);
    assert OpOk(s.g, s.th[t].pc.rt);
    InvAfterLocal(s, t, s');
  }

  lemma CopyCheckOk(s: State, t: nat, s': State)
    requires Inv(s) && CopyCheck(s, t, s')
    ensures Inv(s') && Grows(s.g, s'.g)
  {
    hide Grows, MemOk;
    var pc := s.th[t].pc;
    assert ThreadOk(s.g, t, s.th[t]);
    assert OpOk(s.g, pc.rt);
    var d := s.g.desc[pc.rt.tid];
    ResumeOk(s.g, t, pc.back);
    if d.mut.sn == pc.rt.sn {
      assert Assemble(pc.got, |d.body|) == s.g.ops[pc.rt].body;
    }
    InvAfterLocal(s, t, s');
  }

  lemma RetryOk(g: Shared, t: nat, x: Help, st: Status, v: Mutables)
    requires HelpOk(g, t, x) && SawOk(g, x.tag, st) && (x.own ==> v.sn == x.ssn)
    ensures PcOk(g, t, Retry(x, st, v)) && !Filling(Retry(x, st, v))
    ensures Running(Retry(x, st, v)) <==> x.own || x.back.ToPut?
  {
    if !x.own {
      ResumeOk(g, t, x.back);
    }
  }

  lemma StateReadOk(s: State, t: nat, s': State)
    requires Inv(s) && StateReadStep(s, t, s')
    ensures Inv(s') && Grows(s.g, s'.g)
  {
    hide Glob, Grows;
    var pc := s.th[t].pc;
    assert ThreadOk(s.g, t, s.th[t]);
    RetryOk(s.g, t, pc.x, pc.st, s.g.desc[pc.x.tag.tid].mut);
    InvAfterLocal(s, t, s');
  }

  /* ---------------------------------------------------------- shared steps */

  lemma NewSn(g: Shared, t: nat)
    requires Glob(g) && t < |g.desc| && g.desc[t].mut.sn % 2 == 0
    ensures Tag(t, g.desc[t].mut.sn) !in g.ops && Tag(t, g.desc[t].mut.sn + 1) !in g.ops
  {
    forall k | k in g.ops ensures k != Tag(t, g.desc[t].mut.sn) && k != Tag(t, g.desc[t].mut.sn + 1) {
      assert OpOk(g, k);
    }
  }

  /** An operation of which nothing changes but a descriptor that has moved past it. */
  lemma OpStays(g: Shared, g': Shared, k: Word)
    requires k in g.ops && OpOk(g, k) && k in g'.ops && g'.ops[k] == g.ops[k]
    requires |g'.ctl| == |g.ctl| && |g'.mem| == |g.mem| && |g'.desc| == |g.desc|
    requires var d, d' := g.desc[k.tid], g'.desc[k.tid]; d' == d || d'.mut.sn == d.mut.sn != k.sn
    requires Holds(g', Addr2(g.ops[k].body), k) <==> Holds(g, Addr2(g.ops[k].body), k)
    ensures OpOk(g', k)
  {
    hide WellFormed, Holds;
  }

  /** Only the unpublished descriptor of the acting thread changes. */
  lemma DescGlob(g: Shared, g': Shared, t: nat)
    requires Glob(g) && t < |g.desc| == |g'.desc| && g' == g.(desc := g.desc[t := g'.desc[t]])
    requires g.desc[t].mut.sn <= g'.desc[t].mut.sn && g'.desc[t].mut.status == Undecided
    requires g'.desc[t].mut.sn % 2 == 0 && |g'.desc[t].body| == 5
    requires Tag(t, g.desc[t].mut.sn) in g.ops ==> g.ops[Tag(t, g.desc[t].mut.sn)].ended
    ensures Glob(g') && Rely(g, g', t)
  {
    hide WellFormed;
    forall k | k in g'.ops ensures OpOk(g', k) {
      assert OpOk(g, k);
    }
    forall a: nat | a < |g'.mem| ensures MemOk(g', a) {
      assert MemOk(g, a);
    }
  }

  lemma NewStoreOk(s: State, t: nat, s': State)
    requires Inv(s) && NewStore(s, t, s')
    ensures Inv(s') && Grows(s.g, s'.g)
  {
    hide Rely, OpOk, MemOk;
    assert ThreadOk(s.g, t, s.th[t]);
    DescGlob(s.g, s'.g, t);
    NewSn(s'.g, t);
    RetStable(s.g, s'.g, t, s.th[t].ret);
    InvAfter(s, t, s');
  }

  lemma FillOk(s: State, t: nat, s': State)
    requires Inv(s) && FillStep(s, t, s')
    ensures Inv(s') && Grows(s.g, s'.g)
  {
    hide Rely, OpOk, MemOk;
    var pc := s.th[t].pc;
    assert ThreadOk(s.g, t, s.th[t]);
    NewSn(s.g, t);
    if pc.j < |pc.args| {
      DescGlob(s.g, s'.g, t);
      NewSn(s'.g, t);
      RetStable(s.g, s'.g, t, s.th[t].ret);
      assert s'.g.desc[t].body[..pc.j + 1] == pc.args[..pc.j + 1];
      InvAfter(s, t, s');
    } else {
      assert s.g.desc[t].body == pc.args;
      InvAfterLocal(s, t, s');
    }
  }

  ghost predicate Published(g: Shared, g': Shared, t: nat) {
    && t < |g.desc| && g.desc[t].mut.sn % 2 == 0 && WellFormed(g.desc[t].body, |g.ctl|, |g.mem|)
    && g' == g.(desc := g.desc[t := g.desc[t].(mut := Mutables(g.desc[t].mut.sn + 1, Undecided))],
                ops := g.ops[Tag(t, g.desc[t].mut.sn + 1) := Op(g.desc[t].body, Undecided, false, false, false, false)])
  }

  lemma PublishOps(g: Shared, g': Shared, t: nat, q: Word)
    requires Glob(g) && Published(g, g', t) && q in g'.ops
    ensures OpOk(g', q)
  {
    NewSn(g, t);
    hide Shape, MemOk, WellFormed;
    if q in g.ops {
      assert OpOk(g, q);
    }
  }

  lemma PublishRely(g: Shared, g': Shared, t: nat)
    requires Published(g, g', t) && Tag(t, g.desc[t].mut.sn + 1) !in g.ops
    ensures Rely(g, g', t)
  {
    hide WellFormed, Addr2;
  }

  lemma PublishGlob(g: Shared, g': Shared, t: nat)
    requires Glob(g) && Published(g, g', t)
    ensures Glob(g') && Rely(g, g', t)
  {
    NewSn(g, t);
    PublishRely(g, g', t);
    hide WellFormed, OpOk, Rely, Addr2;
    forall k | k in g'.ops ensures OpOk(g', k) {
      PublishOps(g, g', t, k);
    }
    forall a: nat | a < |g'.mem| ensures MemOk(g', a) {
      assert MemOk(g, a);
    }
  }

  lemma PublishOk(s: State, t: nat, s': State)
    requires Inv(s) && Publish(s, t, s')
    ensures Inv(s') && Grows(s.g, s'.g)
  {
    hide Rely, OpOk, MemOk;
    assert ThreadOk(s.g, t, s.th[t]);
    PublishGlob(s.g, s'.g, t);
    RetStable(s.g, s'.g, t, s.th[t].ret);
    InvAfter(s, t, s');
  }

  /** The tag goes into addr2 over old2. */
  ghost predicate Puts(g: Shared, g': Shared, t: nat, k: Word) {
    && PutOk(g, t, k)
    && var a := Addr2(g.ops[k].body);
    && Holds(g, a, Old2(g.ops[k].body))
    && g' == g.(mem := g.mem[a := k], ops := g.ops[k := g.ops[k].(put := true)])
  }

  lemma PutOps(g: Shared, g': Shared, t: nat, k: Word, q: Word)
    requires Glob(g) && Puts(g, g', t, k) && q in g.ops
    ensures OpOk(g', q)
  {
    hide Shape, MemOk;
    assert OpOk(g, k) && OpOk(g, q);
    if q != k {
      OpStays(g, g', q);
    }
  }

  lemma PutGlob(g: Shared, g': Shared, t: nat, k: Word)
    requires Glob(g) && Puts(g, g', t, k)
    ensures Glob(g') && Rely(g, g', t)
  {
    hide Addr2, OpOk;
    assert k.Tag? && k.tid == t;
    forall q | Gone(g, q) ensures Gone(g', q) {
    }
    forall q | q in g'.ops ensures OpOk(g', q) {
      PutOps(g, g', t, k, q);
    }
    forall b: nat | b < |g'.mem| ensures MemOk(g', b) {
      assert MemOk(g, b);
    }
  }

  /** The record of an operation changes, nothing else does. */
  ghost predicate Records(g: Shared, g': Shared, t: nat, k: Word, o: Op) {
    && k in g.ops && g' == g.(ops := g.ops[k := o])
    && OpGrows(g.ops[k], o) && o.put == g.ops[k].put && o.status == g.ops[k].status
    && (o.ended && o.put ==> Gone(g, k))
    && (k.Tag? && k.tid != t ==> o.ended == g.ops[k].ended)
  }

  lemma RecordOps(g: Shared, g': Shared, t: nat, k: Word, o: Op, q: Word)
    requires Glob(g) && Records(g, g', t, k, o) && q in g.ops
    ensures OpOk(g', q)
  {
    hide Shape, MemOk, WellFormed;
    assert OpOk(g, q);
    if q != k {
      OpStays(g, g', q);
    }
  }

  lemma RecordRely(g: Shared, g': Shared, t: nat, k: Word, o: Op)
    requires Records(g, g', t, k, o)
    ensures Rely(g, g', t)
  {
    hide Addr2;
  }

  lemma RecordGlob(g: Shared, g': Shared, t: nat, k: Word, o: Op)
    requires Glob(g) && Records(g, g', t, k, o)
    ensures Glob(g') && Rely(g, g', t)
  {
    RecordRely(g, g', t, k, o);
    hide Addr2, OpOk, Rely, OpGrows;
    forall q | q in g'.ops ensures OpOk(g', q) {
      RecordOps(g, g', t, k, o, q);
    }
    forall b: nat | b < |g'.mem| ensures MemOk(g', b) {
      assert MemOk(g, b);
    }
  }

  /** What the put acts on: the operation of the thread, not put yet. */
  lemma PutKnows(s: State, t: nat, s': State)
    requires Inv(s) && PutStep(s, t, s')
    ensures var tag, b := s.th[t].pc.tag, s.g.desc[t].body;
            && PutOk(s.g, t, tag) && s.g.ops[tag].body == b && WellFormed(b, |s.g.ctl|, |s.g.mem|)
            && s.g.ops[tag].status == Undecided
            && RetOk(s.g, s.th[t].ret) && (s.g.desc[t].mut.sn % 2 == 1)
  {
    hide Holds, MemOk, RetOk, Addr2, WellFormed;
    assert ThreadOk(s.g, t, s.th[t]);
    assert OpOk(s.g, s.th[t].pc.tag);
  }

  lemma PutStepOk(s: State, t: nat, s': State)
    requires Inv(s) && PutStep(s, t, s')
    ensures Inv(s') && Grows(s.g, s'.g)
  {
    hide Glob;
    PutKnows(s, t, s');
    hide Rely, MemOk, OpOk, Shape, WellFormed, Grows;
    var x := s.th[t];
    var tag := x.pc.tag;
    var a := Addr2(s.g.desc[t].body);
    if s.g.mem[a] == Old2(s.g.desc[t].body) {
      PutGlob(s.g, s'.g, t, tag);
      RetStable(s.g, s'.g, t, x.ret);
      InvAfter(s, t, s');
    } else if s.g.mem[a].Tag? {
      CopyStart(s.g, a);
      InvAfterLocal(s, t, s');
    } else {
      RecordGlob(s.g, s'.g, t, tag, s.g.ops[tag].(ended := true));
      InvAfter(s, t, s');
    }
  }

  /** The acting thread moves on inside the same call. */
  lemma SamePlace(g: Shared, g': Shared, t: nat, x: Thread, pc: Pc)
    requires ThreadOk(g, t, x) && Rely(g, g', t) && PcOk(g', t, pc)
    requires g'.ops.Keys == g.ops.Keys && t < |g'.desc| && g'.desc[t].mut.sn == g.desc[t].mut.sn
    requires Filling(pc) == Filling(x.pc) && Running(pc) == Running(x.pc)
    requires forall k | k in g.ops :: g'.ops[k].ended == g.ops[k].ended
    ensures ThreadOk(g', t, x.(pc := pc))
  {
    RetStable(g, g', t, x.ret);
  }

  /** What the acting thread knows about its own call survives its steps on others. */
  lemma HelpKept(g: Shared, g': Shared, t: nat, x: Help)
    requires HelpOk(g, t, x) && Rely(g, g', t)
    requires g'.ops.Keys == g.ops.Keys && t < |g.desc| && t < |g'.desc| && g'.desc[t].mut.sn == g.desc[t].mut.sn
    requires forall k | k in g.ops :: g'.ops[k].ended == g.ops[k].ended && g'.ops[k].put == g.ops[k].put
    ensures HelpOk(g', t, x) && (!x.own ==> BackOk(g', t, x.back))
  {
    assert OpGrows(g.ops[x.tag], g'.ops[x.tag]);
  }

  lemma ControlOk(s: State, t: nat, s': State)
    requires Inv(s) && ControlStep(s, t, s')
    ensures Inv(s') && Grows(s.g, s'.g)
  {
    hide Rely, OpOk, MemOk;
    var th := s.th[t];
    var x := th.pc.x;
    assert ThreadOk(s.g, t, th);
    var o := Witness(s.g.ops[x.tag], s.g.ctl[Addr1(x.body)]);
    EndedGone(s.g, x.tag);
    RecordGlob(s.g, s'.g, t, x.tag, o);
    HelpKept(s.g, s'.g, t, x);
    SamePlace(s.g, s'.g, t, th, s'.th[t].pc);
    InvAfter(s, t, s');
  }

  lemma EndedGone(g: Shared, k: Word)
    requires Glob(g) && k in g.ops
    ensures g.ops[k].ended && g.ops[k].put ==> Gone(g, k)
  {
    assert OpOk(g, k);
  }

  /** The CAS that decides an operation. */
  ghost predicate DecidesAs(g: Shared, g': Shared, k: Word, st: Status) {
    && k in g.ops && g.ops[k].put && SawOk(g, k, st) && k.Tag? && k.tid < |g.desc|
    && g.desc[k.tid].mut == Mutables(k.sn, Undecided)
    && g' == g.(desc := g.desc[k.tid := g.desc[k.tid].(mut := Mutables(k.sn, st))],
                ops := g.ops[k := g.ops[k].(status := st)])
  }

  lemma DecideOps(g: Shared, g': Shared, k: Word, st: Status, q: Word)
    requires Glob(g) && DecidesAs(g, g', k, st) && q in g.ops
    ensures OpOk(g', q)
  {
    hide Shape, MemOk, WellFormed;
    assert OpOk(g, k) && OpOk(g, q);
    if q != k {
      OpStays(g, g', q);
    }
  }

  lemma DecideRely(g: Shared, g': Shared, t: nat, k: Word, st: Status)
    requires DecidesAs(g, g', k, st) && g.ops[k].status == Undecided
    ensures Rely(g, g', t)
  {
    hide Addr2;
  }

  lemma DecideGlob(g: Shared, g': Shared, t: nat, k: Word, st: Status)
    requires Glob(g) && DecidesAs(g, g', k, st)
    ensures Glob(g') && Rely(g, g', t) && g.ops[k].status == Undecided
  {
    assert OpOk(g, k);
    DecideRely(g, g', t, k, st);
    hide OpOk, Addr2, Rely;
    forall q | q in g'.ops ensures OpOk(g', q) {
      DecideOps(g, g', k, st, q);
    }
    forall b: nat | b < |g'.mem| ensures MemOk(g', b) {
      assert MemOk(g, b);
    }
  }

  /** A failed CAS reports the state of the operation, or the tag is gone. */
  lemma ReportOk(g: Shared, t: nat, x: Help, st: Status)
    requires Glob(g) && HelpOk(g, t, x) && SawOk(g, x.tag, st) && x.tag.tid < |g.desc|
    ensures var pc := AfterFailedCas(x, st, g.desc[x.tag.tid].mut);
            PcOk(g, t, pc) && !Filling(pc) && (Running(pc) <==> x.own || x.back.ToPut?)
  {
    var cur := g.desc[x.tag.tid].mut;
    assert OpOk(g, x.tag);
    if cur.status != Undecided {
      assert VerdictOk(g, x.tag, x.own, cur.status == Succeeded);
    } else {
      RetryOk(g, t, x, st, cur);
    }
  }

  lemma StateCasOk(s: State, t: nat, s': State)
    requires Inv(s) && StateCasStep(s, t, s')
    ensures Inv(s') && Grows(s.g, s'.g)
  {
    hide Rely, OpOk, MemOk;
    var th := s.th[t];
    var x := th.pc.x;
    assert ThreadOk(s.g, t, th);
    if Decides(s, t) {
      DecideGlob(s.g, s'.g, t, x.tag, th.pc.st);
      HelpKept(s.g, s'.g, t, x);
      SamePlace(s.g, s'.g, t, th, s'.th[t].pc);
      InvAfter(s, t, s');
    } else {
      ReportOk(s.g, t, x, th.pc.st);
      InvAfterLocal(s, t, s');
    }
  }

  /** A decided operation's tag leaves addr2. */
  ghost predicate Removes(g: Shared, g': Shared, k: Word) {
    && Decided(g, k)
    && var b := g.ops[k].body;
    && Holds(g, Addr2(b), k)
    && g' == g.(mem := g.mem[Addr2(b) := if g.ops[k].status == Succeeded then New2(b) else Old2(b)])
  }

  lemma RemoveGlob(g: Shared, g': Shared, t: nat, k: Word)
    requires Glob(g) && Removes(g, g', k)
    ensures Glob(g') && Rely(g, g', t) && Gone(g', k)
  {
    hide WellFormed;
    assert OpOk(g, k);
    forall q | Gone(g, q) ensures Gone(g', q) {
      assert OpOk(g, q);
    }
    forall q | q in g'.ops ensures OpOk(g', q) {
      assert OpOk(g, q);
    }
    forall b: nat | b < |g'.mem| ensures MemOk(g', b) {
      assert MemOk(g, b);
    }
  }

  lemma FinishOk(s: State, t: nat, s': State)
    requires Inv(s) && FinishStep(s, t, s')
    ensures Inv(s') && Grows(s.g, s'.g)
  {
    hide Rely, OpOk, MemOk;
    var th := s.th[t];
    var x := th.pc.x;
    assert ThreadOk(s.g, t, th);
    var a := Addr2(x.body);
    var g1 := if s.g.mem[a] == x.tag then s.g.(mem := s'.g.mem) else s.g;
    if s.g.mem[a] == x.tag {
      assert Removes(s.g, g1, x.tag);
      RemoveGlob(s.g, g1, t, x.tag);
    } else {
      RelyRefl(s.g, t);
    }
    assert Gone(g1, x.tag);
    if x.own {
      RecordGlob(g1, s'.g, t, x.tag, s.g.ops[x.tag].(ended := true));
      RelyTrans(s.g, g1, s'.g, t);
      InvAfter(s, t, s');
    } else {
      HelpKept(s.g, s'.g, t, x);
      ResumeOk(s'.g, t, x.back);
      SamePlace(s.g, s'.g, t, th, s'.th[t].pc);
      InvAfter(s, t, s');
    }
  }

  lemma RelyRefl(g: Shared, t: nat)
    ensures Rely(g, g, t)
  {
  }

  lemma RelyTrans(a: Shared, b: Shared, c: Shared, t: nat)
    requires Rely(a, b, t) && Rely(b, c, t)
    ensures Rely(a, c, t)
  {
    forall k | k in a.ops ensures k in c.ops && OpGrows(a.ops[k], c.ops[k]) {
      assert OpGrows(a.ops[k], b.ops[k]) && OpGrows(b.ops[k], c.ops[k]);
    }
  }

  lemma EnvironmentOk(s: State, s': State)
    requires Inv(s) && Environment(s, s')
    ensures Inv(s') && Grows(s.g, s'.g)
  {
    hide WellFormed, PcOk, OwnOk;
    assert Glob(s'.g) by {
      forall k | k in s'.g.ops ensures OpOk(s'.g, k) {
        assert OpOk(s.g, k);
      }
      forall a: nat | a < |s'.g.mem| ensures MemOk(s'.g, a) {
        assert MemOk(s.g, a);
      }
    }
    var t := |s.th|;
    forall u: nat | u < |s'.th| ensures ThreadOk(s'.g, u, s'.th[u]) {
      assert ThreadOk(s.g, u, s.th[u]);
      ThreadStable(s.g, s'.g, t, u, s.th[u]);
    }
  }

  /* ------------------------------------------------------------------ runs */

  lemma InitOk(s: State)
    requires Init(s)
    ensures Inv(s)
  {
  }

  lemma ThreadStepOk(s: State, t: nat, s': State)
    requires Inv(s) && ThreadStep(s, t, s')
    ensures Inv(s') && Grows(s.g, s'.g)
  {
    hide Inv, Grows;
    if NewRead(s, t, s') || ReadBegin(s, t, s') || ReadStep(s, t, s') { LocalHeadOk(s, t, s'); }
    else if CopyWord(s, t, s') { CopyWordOk(s, t, s'); }
    else if CopyCheck(s, t, s') { CopyCheckOk(s, t, s'); }
    else if StateReadStep(s, t, s') { StateReadOk(s, t, s'); }
    else if NewStore(s, t, s') { NewStoreOk(s, t, s'); }
    else if FillStep(s, t, s') { FillOk(s, t, s'); }
    else if Publish(s, t, s') { PublishOk(s, t, s'); }
    else if PutStep(s, t, s') { PutStepOk(s, t, s'); }
    else if ControlStep(s, t, s') { ControlOk(s, t, s'); }
    else if StateCasStep(s, t, s') { StateCasOk(s, t, s'); }
    else { FinishOk(s, t, s'); }
  }

  lemma StepKeeps(run: seq<State>, i: nat)
    requires StepAt(run, i) && Inv(run[i])
    ensures Inv(run[i + 1]) && Grows(run[i].g, run[i + 1].g)
  {
    hide Inv, Grows;
    if Environment(run[i], run[i + 1]) {
      EnvironmentOk(run[i], run[i + 1]);
    } else {
      var t: nat :| ThreadStep(run[i], t, run[i + 1]);
      ThreadStepOk(run[i], t, run[i + 1]);
    }
  }

  lemma {:induction false} RunOk(run: seq<State>, i: nat)
    requires Run(run) && i < |run|
    ensures Inv(run[i])
  {
    hide Inv, StepAt;
    if i == 0 {
      InitOk(run[0]);
    } else {
      RunOk(run, i - 1);
      assert StepAt(run, i - 1);
      StepKeeps(run, i - 1);
    }
  }
}
