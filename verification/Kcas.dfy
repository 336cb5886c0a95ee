/** Lock-free k-CAS built on RDCSS, both with reused descriptors, as a transition
    system with one access to shared memory per step.  Sequence numbers are unbounded.
    A thread that helps another k-CAS in the middle of its own keeps the suspended
    activations of `help` on a stack. */
module KcasModel {

  import opened WordCopies

  /** A shared word, and also one word of a descriptor. */
  datatype Word = Plain(v: int) | RdcssTag(tid: nat, sn: nat) | KcasTag(tid: nat, sn: nat)

  datatype Status = Undecided | Succeeded | Failed

  datatype SeqBits = SeqBits(sn: nat, status: Status)

  /** k-CAS descriptor: numEntries, then (addr, oldval, newval) per entry.
      RDCSS descriptor: addr1 (as the thread whose k-CAS status word it names), old1,
      old2, addr2, new2. */
  type Body = seq<Word>

  function AsNat(w: Word): nat {
    if w.Plain? && w.v >= 0 then w.v else 0
  }

  function Num(b: Body): nat {
    if |b| > 0 then AsNat(b[0]) else 0
  }

  function AddrAt(b: Body, i: nat): nat {
    if 1 + 3 * i < |b| then AsNat(b[1 + 3 * i]) else 0
  }

  function OldAt(b: Body, i: nat): Word {
    if 2 + 3 * i < |b| then b[2 + 3 * i] else Plain(0)
  }

  function NewAt(b: Body, i: nat): Word {
    if 3 + 3 * i < |b| then b[3 + 3 * i] else Plain(0)
  }

  function RdcssBody(tag: Word, snap: Body, i: nat): (b: Body)
    ensures |b| == 5
  {
    [Plain(if tag.KcasTag? then tag.tid else 0), tag, OldAt(snap, i), Plain(AddrAt(snap, i)), tag]
  }

  datatype KcasDesc = KcasDesc(bits: SeqBits, body: Body)

  datatype RdcssDesc = RdcssDesc(sn: nat, body: Body)

  /** Ghost record of a k-CAS: its entries, its fate, and whether some word was seen to
      hold an unexpected value while it was undecided. */
  datatype Op = Op(body: Body, status: Status, mismatch: bool)

  /** Ghost record of an RDCSS: its descriptor, the entry it serves, and whether its
      tag has been put into memory. */
  datatype Rop = Rop(body: Body, i: nat, installed: bool)

  datatype Frame =
    | HelpFrame(tag: Word, own: bool, ssn: nat, snap: Body, i: nat)
    | ReadFrame(a: nat)

  /** Where `rdcssHelpOther` was called from. */
  datatype Back = ToRdcss(f: Frame, rt: Word) | ToRead(a: nat)

  datatype RdcssHelp = RdcssHelp(rt: Word, own: bool, body: Body, back: Back)

  datatype Result = NoResult | Done(ok: bool, tag: Word) | Value(a: nat, w: Word)

  datatype Pc =
    | Idle
    | StartWrite(v: SeqBits)
    | Initialize(v: SeqBits)
    | ReadWord(a: nat)
    | RdcssCopy(back: Back, rt: Word, got: map<nat, Word>)
    | RdcssStatus(x: RdcssHelp)
    | RdcssFinish(x: RdcssHelp, undecided: bool)
    | KcasCopy(tag: Word, ssn: int, got: map<nat, Word>)
    | ReadStatus(f: Frame)
    | RdcssNew(f: Frame)
    | RdcssNewWrite(f: Frame, n: nat)
    | RdcssFill(f: Frame, j: nat)
    | RdcssInitialize(f: Frame, n: nat)
    | RdcssCas(f: Frame, rt: Word)
    | DecideRead(f: Frame, st: Status)
    | DecideCas(f: Frame, st: Status)
    | DecideReread(f: Frame, st: Status)
    | PhaseTwo(f: Frame)
    | Unlock(f: Frame, ok: bool, j: nat)

  datatype Thread = Thread(pc: Pc, stack: seq<Frame>, ret: Result)

  datatype Shared = Shared(
    mem: seq<Word>,
    kd: seq<KcasDesc>,
    rd: seq<RdcssDesc>,
    ops: map<Word, Op>,      // ghost: every k-CAS ever published
    rops: map<Word, Rop>     // ghost: every RDCSS ever published
  )

  datatype State = State(g: Shared, th: seq<Thread>)

  /* ------------------------------------------------------------------ steps */

  ghost predicate Init(s: State) {
    && |s.g.kd| == |s.g.rd| == |s.th|
    && (forall a | 0 <= a < |s.g.mem| :: s.g.mem[a].Plain?)
    && (forall t | 0 <= t < |s.th| ::
          && s.g.kd[t].bits == SeqBits(1, Undecided)
          && s.g.rd[t].sn == 1 && |s.g.rd[t].body| == 5
          && s.th[t] == Thread(Idle, [], NoResult))
    && s.g.ops == map[] && s.g.rops == map[]
  }

  function SetPc(s: State, t: nat, pc: Pc): State
    requires t < |s.th|
  {
    s.(th := s.th[t := s.th[t].(pc := pc)])
  }

  function SetMem(s: State, a: nat, w: Word): State
    requires a < |s.g.mem|
  {
    s.(g := s.g.(mem := s.g.mem[a := w]))
  }

  function SetKd(s: State, u: nat, d: KcasDesc): State
    requires u < |s.g.kd|
  {
    s.(g := s.g.(kd := s.g.kd[u := d]))
  }

  function SetRd(s: State, u: nat, d: RdcssDesc): State
    requires u < |s.g.rd|
  {
    s.(g := s.g.(rd := s.g.rd[u := d]))
  }

  function SetOp(s: State, k: Word, o: Op): State {
    s.(g := s.g.(ops := s.g.ops[k := o]))
  }

  function SetRop(s: State, r: Word, o: Rop): State {
    s.(g := s.g.(rops := s.g.rops[r := o]))
  }

  /** The loop head of phase one. */
  function Enter(f: Frame): Pc {
    if f.HelpFrame? && f.i < Num(f.snap) then RdcssNew(f) else DecideRead(f, Succeeded)
  }

  function Advance(f: Frame): Frame {
    if f.HelpFrame? then f.(i := f.i + 1) else f
  }

  /** What follows when `help` returns. */
  function Leave(s: State, t: nat, f: Frame, ok: bool): State
    requires t < |s.th|
  {
    if f.HelpFrame? && f.own then s.(th := s.th[t := Thread(Idle, [], Done(ok, f.tag))]) else Pop(s, t)
  }

  /** What follows when `helpOther` returns. */
  function Pop(s: State, t: nat): State
    requires t < |s.th|
  {
    var x := s.th[t];
    if x.stack == [] then SetPc(s, t, Idle)
    else
      var f := x.stack[|x.stack| - 1];
      s.(th := s.th[t := x.(stack := x.stack[..|x.stack| - 1],
                            pc := if f.ReadFrame? then ReadWord(f.a) else RdcssNew(f))])
  }

  function Resume(b: Back): Pc {
    if b.ToRead? then ReadWord(b.a) else RdcssCas(b.f, b.rt)
  }

  /** `start`: the read and the store of DESC_NEW. */
  ghost predicate StartReadStep(s: State, t: nat, s': State) {
    && t < |s.th| && t < |s.g.kd| && s.th[t].pc == Idle && s.g.kd[t].bits.sn % 2 == 1
    && s' == SetPc(s, t, StartWrite(s.g.kd[t].bits))
  }

  ghost predicate StartWriteStep(s: State, t: nat, s': State) {
    && t < |s.th| && t < |s.g.kd| && s.th[t].pc.StartWrite?
    && s' == SetPc(SetKd(s, t, s.g.kd[t].(bits := SeqBits(s.th[t].pc.v.sn + 1, Undecided))), t, Idle)
  }

  function StoreWord(d: KcasDesc, i: nat, w: Word): KcasDesc
    requires i < |d.body|
  {
    d.(body := d.body[i := w])
  }

  /** `start`, the add functions and the sort of `execute`: between `start` and the
      publication the owner stores any word of its descriptor. */
  ghost predicate BuildWord(s: State, t: nat, s': State) {
    && t < |s.th| && t < |s.g.kd| && s.th[t].pc == Idle && s.g.kd[t].bits.sn % 2 == 0
    && exists i: nat, w: Word | i < |s.g.kd[t].body| ::
         s' == SetKd(s, t, StoreWord(s.g.kd[t], i, w))
  }

  /** Entries name distinct words of the memory and plain values. */
  ghost predicate WellFormed(b: Body, m: nat) {
    && 1 + 3 * Num(b) <= |b|
    && (forall i: nat | i < Num(b) :: AddrAt(b, i) < m && OldAt(b, i).Plain? && NewAt(b, i).Plain?)
    && (forall i: nat, j: nat | i < Num(b) && j < Num(b) && AddrAt(b, i) == AddrAt(b, j) :: i == j)
  }

  ghost predicate InitializeRead(s: State, t: nat, s': State) {
    && t < |s.th| && t < |s.g.kd| && s.th[t].pc == Idle && s.g.kd[t].bits.sn % 2 == 0
    && WellFormed(s.g.kd[t].body, |s.g.mem|)
    && s' == SetPc(s, t, Initialize(s.g.kd[t].bits))
  }

  ghost predicate InitializeWrite(s: State, t: nat, s': State) {
    && t < |s.th| && t < |s.g.kd| && s.th[t].pc.Initialize?
    && var v := s.th[t].pc.v;
    && var tag := KcasTag(t, v.sn + 1);
    && var b := s.g.kd[t].body;
    && s' == SetPc(SetOp(SetKd(s, t, s.g.kd[t].(bits := v.(sn := v.sn + 1))), tag, Op(b, Undecided, false)),
                   t, ReadStatus(HelpFrame(tag, true, v.sn + 1, b, 0)))
  }

  /** The first read of `help`. */
  ghost predicate ReadStatusStep(s: State, t: nat, s': State) {
    && t < |s.th| && s.th[t].pc.ReadStatus? && s.th[t].pc.f.HelpFrame?
    && var f := s.th[t].pc.f;
    && f.tag.KcasTag? && f.tag.tid < |s.g.kd|
    && var bits := s.g.kd[f.tag.tid].bits;
    && s' == if bits.sn != f.tag.sn then Leave(s, t, f, false)
             else if bits.status == Undecided then SetPc(s, t, Enter(f))
             else SetPc(s, t, PhaseTwo(f))
  }

  /** DESC_NEW for the RDCSS descriptor. */
  ghost predicate RdcssNewRead(s: State, t: nat, s': State) {
    && t < |s.th| && t < |s.g.rd| && s.th[t].pc.RdcssNew?
    && s' == SetPc(s, t, RdcssNewWrite(s.th[t].pc.f, s.g.rd[t].sn))
  }

  ghost predicate RdcssNewStore(s: State, t: nat, s': State) {
    && t < |s.th| && t < |s.g.rd| && s.th[t].pc.RdcssNewWrite?
    && s' == SetPc(SetRd(s, t, s.g.rd[t].(sn := s.th[t].pc.n + 1)), t, RdcssFill(s.th[t].pc.f, 0))
  }

  /** The five field stores, then the read of DESC_INITIALIZED. */
  ghost predicate RdcssFillStep(s: State, t: nat, s': State) {
    && t < |s.th| && t < |s.g.rd| && s.th[t].pc.RdcssFill? && s.th[t].pc.f.HelpFrame?
    && var f := s.th[t].pc.f;
    && var j := s.th[t].pc.j;
    && |s.g.rd[t].body| == 5
    && s' == if j < 5
             then SetPc(SetRd(s, t, s.g.rd[t].(body := s.g.rd[t].body[j := RdcssBody(f.tag, f.snap, f.i)[j]])), t,
                  RdcssFill(f, j + 1))
             else SetPc(s, t, RdcssInitialize(f, s.g.rd[t].sn))
  }

  ghost predicate RdcssPublish(s: State, t: nat, s': State) {
    && t < |s.th| && t < |s.g.rd| && s.th[t].pc.RdcssInitialize? && s.th[t].pc.f.HelpFrame?
    && var f := s.th[t].pc.f;
    && var rt := RdcssTag(t, s.th[t].pc.n + 1);
    && s' == SetPc(SetRop(SetRd(s, t, s.g.rd[t].(sn := s.th[t].pc.n + 1)), rt, Rop(s.g.rd[t].body, f.i, false)),
                   t, RdcssCas(f, rt))
  }

  /** What `help` does with the value its RDCSS returned without installing. */
  ghost function AfterRdcss(s: State, t: nat, f: Frame, rt: Word, r: Word): State
    requires t < |s.th| && f.HelpFrame?
  {
    if r.RdcssTag? then SetPc(s, t, RdcssCopy(ToRdcss(f, rt), r, map[]))
    else if r == f.tag then SetPc(s, t, Enter(Advance(f)))
    else if r.KcasTag? then s.(th := s.th[t := s.th[t].(stack := s.th[t].stack + [f], pc := KcasCopy(r, -1, map[]))])
    else SetPc(SetOp(s, f.tag, if f.tag in s.g.ops then Witness(s.g.ops[f.tag]) else Op([], Undecided, false)),
               t, DecideRead(f, Failed))
  }

  function Witness(o: Op): Op {
    if o.status == Undecided then o.(mismatch := true) else o
  }

  /** The CAS of `rdcss`. */
  ghost predicate RdcssCasStep(s: State, t: nat, s': State) {
    && t < |s.th| && s.th[t].pc.RdcssCas? && s.th[t].pc.f.HelpFrame?
    && var f := s.th[t].pc.f;
    && var rt := s.th[t].pc.rt;
    && var a := AddrAt(f.snap, f.i);
    && var expected := OldAt(f.snap, f.i);
    && a < |s.g.mem| && rt in s.g.rops && f.tag in s.g.ops
    && s' == if s.g.mem[a] == expected
             then SetPc(SetRop(SetMem(s, a, rt), rt, s.g.rops[rt].(installed := true)),
                        t, RdcssStatus(RdcssHelp(rt, true, RdcssBody(f.tag, f.snap, f.i), ToRdcss(f, rt))))
             else AfterRdcss(s, t, f, rt, s.g.mem[a])
  }

  /** One word of the memcpy in `rdcssHelpOther`, in any order. */
  ghost predicate RdcssCopyWord(s: State, t: nat, s': State) {
    && t < |s.th| && s.th[t].pc.RdcssCopy?
    && var pc := s.th[t].pc;
    && pc.rt.RdcssTag? && pc.rt.tid < |s.g.rd|
    && var d := s.g.rd[pc.rt.tid];
    && exists i: nat | i < |d.body| :: s' == SetPc(s, t, RdcssCopy(pc.back, pc.rt, pc.got[i := d.body[i]]))
  }

  ghost predicate RdcssCopyCheck(s: State, t: nat, s': State) {
    && t < |s.th| && s.th[t].pc.RdcssCopy?
    && var pc := s.th[t].pc;
    && pc.rt.RdcssTag? && pc.rt.tid < |s.g.rd|
    && var d := s.g.rd[pc.rt.tid];
    && Complete(pc.got, |d.body|)
    && s' == SetPc(s, t,
                   if d.sn == pc.rt.sn
                   then RdcssStatus(RdcssHelp(pc.rt, false, Assemble(pc.got, |d.body|), pc.back))
                   else Resume(pc.back))
  }

  /** The status read of `rdcssHelp`; a descriptor that moved on counts as decided. */
  ghost predicate RdcssStatusRead(s: State, t: nat, s': State) {
    && t < |s.th| && s.th[t].pc.RdcssStatus?
    && var x := s.th[t].pc.x;
    && |x.body| == 5 && AsNat(x.body[0]) < |s.g.kd| && x.body[1].KcasTag?
    && var bits := s.g.kd[AsNat(x.body[0])].bits;
    && s' == SetPc(s, t, RdcssFinish(x, bits.sn == x.body[1].sn && bits.status == Undecided))
  }

  /** The CAS that takes an RDCSS tag out of its word. */
  ghost predicate RdcssFinishCas(s: State, t: nat, s': State) {
    && t < |s.th| && s.th[t].pc.RdcssFinish?
    && var x := s.th[t].pc.x;
    && |x.body| == 5
    && var a := AsNat(x.body[3]);
    && a < |s.g.mem|
    && var w := if s.th[t].pc.undecided then x.body[4] else x.body[2];
    && s' == SetPc(if s.g.mem[a] == x.rt then SetMem(s, a, w) else s, t,
                   if x.own && x.back.ToRdcss? then Enter(Advance(x.back.f)) else Resume(x.back))
  }

  /** The loop of `readPtr` and `rdcssRead`. */
  ghost predicate ReadBegin(s: State, t: nat, s': State) {
    && t < |s.th| && s.th[t].pc == Idle
    && exists a: nat | a < |s.g.mem| :: s' == SetPc(s, t, ReadWord(a))
  }

  ghost predicate ReadWordStep(s: State, t: nat, s': State) {
    && t < |s.th| && s.th[t].pc.ReadWord?
    && var a := s.th[t].pc.a;
    && a < |s.g.mem|
    && var r := s.g.mem[a];
    && s' == match r
             case RdcssTag(_, _) => SetPc(s, t, RdcssCopy(ToRead(a), r, map[]))
             case KcasTag(_, _) =>
               s.(th := s.th[t := s.th[t].(stack := s.th[t].stack + [ReadFrame(a)], pc := KcasCopy(r, -1, map[]))])
             case Plain(_) => s.(th := s.th[t := Thread(Idle, [], Value(a, r))])
  }

  /** The memcpy and the check of `helpOther`. */
  ghost predicate KcasCopyWord(s: State, t: nat, s': State) {
    && t < |s.th| && s.th[t].pc.KcasCopy?
    && var pc := s.th[t].pc;
    && pc.tag.KcasTag? && pc.tag.tid < |s.g.kd|
    && var d := s.g.kd[pc.tag.tid];
    && (|| s' == SetPc(s, t, KcasCopy(pc.tag, d.bits.sn, pc.got))
        || exists i: nat | i < |d.body| :: s' == SetPc(s, t, KcasCopy(pc.tag, pc.ssn, pc.got[i := d.body[i]])))
  }

  ghost predicate KcasCopyCheck(s: State, t: nat, s': State) {
    && t < |s.th| && s.th[t].pc.KcasCopy?
    && var pc := s.th[t].pc;
    && pc.tag.KcasTag? && pc.tag.tid < |s.g.kd|
    && var d := s.g.kd[pc.tag.tid];
    && pc.ssn >= 0 && Complete(pc.got, |d.body|)
    && s' == if d.bits.sn == pc.tag.sn
             then SetPc(s, t, ReadStatus(HelpFrame(pc.tag, false, pc.ssn, Assemble(pc.got, |d.body|), 1)))
             else Pop(s, t)
  }

  /** SEQBITS_CAS_FIELD from Undecided to the new status. */
  ghost predicate DecideReadStep(s: State, t: nat, s': State) {
    && t < |s.th| && (s.th[t].pc.DecideRead? || s.th[t].pc.DecideReread?) && s.th[t].pc.f.HelpFrame?
    && var pc := s.th[t].pc;
    && pc.f.tag.KcasTag? && pc.f.tag.tid < |s.g.kd|
    && var v := s.g.kd[pc.f.tag.tid].bits;
    && s' == SetPc(s, t, if v.sn != pc.f.ssn || (pc.DecideReread? && v.status != Undecided) then PhaseTwo(pc.f)
                         else DecideCas(pc.f, pc.st))
  }

  ghost predicate Decides(s: State, t: nat) {
    && t < |s.th| && s.th[t].pc.DecideCas? && s.th[t].pc.f.HelpFrame?
    && var f := s.th[t].pc.f;
    && f.tag.KcasTag? && f.tag.tid < |s.g.kd| && s.g.kd[f.tag.tid].bits == SeqBits(f.ssn, Undecided)
  }

  ghost predicate DecideCasStep(s: State, t: nat, s': State) {
    && t < |s.th| && s.th[t].pc.DecideCas? && s.th[t].pc.f.HelpFrame?
    && var pc := s.th[t].pc;
    && pc.f.tag.KcasTag? && pc.f.tag.tid < |s.g.kd| && pc.f.tag in s.g.ops
    && var u := pc.f.tag.tid;
    && s' == if Decides(s, t)
             then SetPc(SetOp(SetKd(s, u, s.g.kd[u].(bits := SeqBits(pc.f.ssn, pc.st))),
                              pc.f.tag, s.g.ops[pc.f.tag].(status := pc.st)),
                        t, PhaseTwo(pc.f))
             else SetPc(s, t, DecideReread(pc.f, pc.st))
  }

  /** The status read that starts phase two. */
  ghost predicate PhaseTwoRead(s: State, t: nat, s': State) {
    && t < |s.th| && s.th[t].pc.PhaseTwo? && s.th[t].pc.f.HelpFrame?
    && var f := s.th[t].pc.f;
    && f.tag.KcasTag? && f.tag.tid < |s.g.kd|
    && var bits := s.g.kd[f.tag.tid].bits;
    && s' == if bits.sn != f.tag.sn then Leave(s, t, f, false)
             else SetPc(s, t, Unlock(f, bits.status == Succeeded, 0))
  }

  /** One iteration of the loop of phase two. */
  ghost predicate UnlockCas(s: State, t: nat, s': State) {
    && t < |s.th| && s.th[t].pc.Unlock? && s.th[t].pc.f.HelpFrame?
    && var pc := s.th[t].pc;
    && var b := pc.f.snap;
    && if pc.j >= Num(b) then s' == Leave(s, t, pc.f, pc.ok)
       else
         && AddrAt(b, pc.j) < |s.g.mem|
         && var a := AddrAt(b, pc.j);
         && s' == SetPc(if s.g.mem[a] == pc.f.tag
                        then SetMem(s, a, if pc.ok then NewAt(b, pc.j) else OldAt(b, pc.j))
                        else s,
                        t, Unlock(pc.f, pc.ok, pc.j + 1))
  }

  ghost predicate LocalStep(s: State, t: nat, s': State) {
    || StartReadStep(s, t, s') || InitializeRead(s, t, s') || ReadStatusStep(s, t, s') || RdcssNewRead(s, t, s')
    || RdcssCopyWord(s, t, s') || RdcssCopyCheck(s, t, s') || RdcssStatusRead(s, t, s')
    || ReadBegin(s, t, s') || ReadWordStep(s, t, s') || KcasCopyWord(s, t, s') || KcasCopyCheck(s, t, s')
    || DecideReadStep(s, t, s') || PhaseTwoRead(s, t, s')
  }

  ghost predicate SharedStep(s: State, t: nat, s': State) {
    || StartWriteStep(s, t, s') || BuildWord(s, t, s') || InitializeWrite(s, t, s')
    || RdcssNewStore(s, t, s') || RdcssFillStep(s, t, s') || RdcssPublish(s, t, s')
    || RdcssCasStep(s, t, s') || RdcssFinishCas(s, t, s') || DecideCasStep(s, t, s') || UnlockCas(s, t, s')
  }

  ghost predicate ThreadStep(s: State, t: nat, s': State) {
    LocalStep(s, t, s') || SharedStep(s, t, s')
  }

  ghost predicate Next(s: State, s': State) {
    exists t: nat :: ThreadStep(s, t, s')
  }

  ghost predicate StepAt(run: seq<State>, i: nat) {
    i + 1 < |run| && Next(run[i], run[i + 1])
  }

  /** A run: any finite interleaving from an initial state. */
  ghost predicate Run(run: seq<State>) {
    |run| > 0 && Init(run[0]) && forall i: nat | i + 1 < |run| :: StepAt(run, i)
  }
}
