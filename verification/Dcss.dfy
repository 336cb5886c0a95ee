/** DCSS with reused descriptors, as a transition system with one access to shared memory
    per step.  `addr1` names a word of the control memory, which the environment writes at
    will; `addr2` names a word that is written by DCSS only.  Sequence numbers are unbounded. */
module DcssModel {

  import opened WordCopies

  /** A word of the second kind: a value with a clear tag bit, or a tag. */
  datatype Word = Plain(v: int) | Tag(tid: nat, sn: nat)

  datatype Status = Undecided | Succeeded | Failed

  datatype Mutables = Mutables(sn: nat, status: Status)

  /** addr1, old1, addr2, old2, new2. */
  type Body = seq<int>

  datatype Desc = Desc(mut: Mutables, body: Body)

  function AsNat(i: int): nat {
    if i >= 0 then i else 0
  }

  function Addr1(b: Body): nat {
    if |b| == 5 then AsNat(b[0]) else 0
  }

  function Old1(b: Body): int {
    if |b| == 5 then b[1] else 0
  }

  function Addr2(b: Body): nat {
    if |b| == 5 then AsNat(b[2]) else 0
  }

  function Old2(b: Body): Word {
    Plain(if |b| == 5 then b[3] else 0)
  }

  function New2(b: Body): Word {
    Plain(if |b| == 5 then b[4] else 0)
  }

  /** Ghost record of a DCSS: its fate, whether its tag was ever put into addr2, what
      addr1 was seen to be while the operation was undecided, and whether it returned. */
  datatype Op = Op(body: Body, status: Status, put: bool, met: bool, missed: bool, ended: bool)

  datatype Back = ToPut(tag: Word) | ToRead(a: nat)

  datatype Help = Help(tag: Word, own: bool, ssn: int, body: Body, back: Back)

  datatype Result =
    | NoResult
    | Success(tag: Word)
    | FailedAddr1(tag: Word)
    | FailedAddr2(tag: Word, w: Word)
    | Value(a: nat, w: Word)

  datatype Pc =
    | Idle
    | NewWrite(args: Body, v: Mutables)
    | Fill(args: Body, j: nat)
    | InitWrite(v: Mutables)
    | PutCas(tag: Word)
    | ReadWord(a: nat)
    | Copy(back: Back, rt: Word, ssn: int, got: map<nat, int>)
    | ReadControl(x: Help)
    | StateRead(x: Help, st: Status)
    | StateCas(x: Help, st: Status, v: Mutables)
    | Finish(x: Help, ok: bool)

  datatype Thread = Thread(pc: Pc, ret: Result)

  datatype Shared = Shared(ctl: seq<int>, mem: seq<Word>, desc: seq<Desc>, ops: map<Word, Op>)

  datatype State = State(g: Shared, th: seq<Thread>)

  /** Both addresses name words of their memories. */
  predicate WellFormed(b: Body, c: nat, m: nat) {
    |b| == 5 && Addr1(b) < c && Addr2(b) < m
  }

  ghost predicate Init(s: State) {
    && |s.g.desc| == |s.th|
    && (forall a | 0 <= a < |s.g.mem| :: s.g.mem[a].Plain?)
    && (forall t | 0 <= t < |s.th| ::
          s.g.desc[t] == Desc(Mutables(1, Undecided), [0, 0, 0, 0, 0]) && s.th[t] == Thread(Idle, NoResult))
    && s.g.ops == map[]
  }

  function SetPc(s: State, t: nat, pc: Pc): State
    requires t < |s.th|
  {
    s.(th := s.th[t := s.th[t].(pc := pc)])
  }

  function SetMem(s: State, a: nat, w: Word): State
    requires a < |s.g.mem|
  {
    s.(g := s.g.(mem := s.g.mem[a := w]))
  }

  function SetDesc(s: State, u: nat, d: Desc): State
    requires u < |s.g.desc|
  {
    s.(g := s.g.(desc := s.g.desc[u := d]))
  }

  function SetOp(s: State, k: Word, o: Op): State {
    s.(g := s.g.(ops := s.g.ops[k := o]))
  }

  /** The call returns: its record is closed. */
  function Return(s: State, t: nat, k: Word, r: Result): State
    requires t < |s.th| && k in s.g.ops
  {
    SetOp(s.(th := s.th[t := Thread(Idle, r)]), k, s.g.ops[k].(ended := true))
  }

  function Resume(b: Back): Pc {
    if b.ToRead? then ReadWord(b.a) else PutCas(b.tag)
  }

  /* ------------------------------------------------------------------ steps */

  /** Anybody may write the control memory. */
  ghost predicate Environment(s: State, s': State) {
    exists a: nat, v: int | a < |s.g.ctl| :: s' == SetControl(s, a, v)
  }

  function SetControl(s: State, a: nat, v: int): State
    requires a < |s.g.ctl|
  {
    s.(g := s.g.(ctl := s.g.ctl[a := v]))
  }

  /** `dcssPtr` with any arguments: the read of DESC_NEW. */
  ghost predicate NewRead(s: State, t: nat, s': State) {
    && t < |s.th| && t < |s.g.desc| && s.th[t].pc == Idle
    && exists args: Body | WellFormed(args, |s.g.ctl|, |s.g.mem|) :: s' == SetPc(s, t, NewWrite(args, s.g.desc[t].mut))
  }

  ghost predicate NewStore(s: State, t: nat, s': State) {
    && t < |s.th| && t < |s.g.desc| && s.th[t].pc.NewWrite?
    && var pc := s.th[t].pc;
    && s' == SetPc(SetDesc(s, t, s.g.desc[t].(mut := Mutables(pc.v.sn + 1, Undecided))), t, Fill(pc.args, 0))
  }

  /** The five field stores, then the read of DESC_INITIALIZED. */
  ghost predicate FillStep(s: State, t: nat, s': State) {
    && t < |s.th| && t < |s.g.desc| && s.th[t].pc.Fill?
    && var pc := s.th[t].pc;
    && |pc.args| == |s.g.desc[t].body|
    && s' == if pc.j < |pc.args|
             then SetPc(SetDesc(s, t, s.g.desc[t].(body := s.g.desc[t].body[pc.j := pc.args[pc.j]])), t,
                  Fill(pc.args, pc.j + 1))
             else SetPc(s, t, InitWrite(s.g.desc[t].mut))
  }

  ghost predicate Publish(s: State, t: nat, s': State) {
    && t < |s.th| && t < |s.g.desc| && s.th[t].pc.InitWrite?
    && var v := s.th[t].pc.v;
    && var tag := Tag(t, v.sn + 1);
    && s' == SetPc(SetOp(SetDesc(s, t, s.g.desc[t].(mut := v.(sn := v.sn + 1))),
                         tag, Op(s.g.desc[t].body, Undecided, false, false, false, false)),
                   t, PutCas(tag))
  }

  /** The VAL_CAS of `dcssPtr` on addr2. */
  ghost predicate PutStep(s: State, t: nat, s': State) {
    && t < |s.th| && t < |s.g.desc| && s.th[t].pc.PutCas?
    && var tag := s.th[t].pc.tag;
    && var b := s.g.desc[t].body;
    && tag in s.g.ops && Addr2(b) < |s.g.mem|
    && var r := s.g.mem[Addr2(b)];
    && s' == if r == Old2(b)
             then SetPc(SetOp(SetMem(s, Addr2(b), tag), tag, s.g.ops[tag].(put := true)),
                        t, ReadControl(Help(tag, true, s.g.desc[t].mut.sn, b, ToPut(tag))))
             else if r.Tag? then SetPc(s, t, Copy(ToPut(tag), r, -1, map[]))
             else Return(s, t, tag, FailedAddr2(tag, r))
  }

  /** The loop of `dcssRead`. */
  ghost predicate ReadBegin(s: State, t: nat, s': State) {
    && t < |s.th| && s.th[t].pc == Idle
    && exists a: nat | a < |s.g.mem| :: s' == SetPc(s, t, ReadWord(a))
  }

  ghost predicate ReadStep(s: State, t: nat, s': State) {
    && t < |s.th| && s.th[t].pc.ReadWord?
    && var a := s.th[t].pc.a;
    && a < |s.g.mem|
    && var r := s.g.mem[a];
    && s' == if r.Tag? then SetPc(s, t, Copy(ToRead(a), r, -1, map[]))
             else s.(th := s.th[t := Thread(Idle, Value(a, r))])
  }

  /** One word of the memcpy in DESC_SNAPSHOT, in any order. */
  ghost predicate CopyWord(s: State, t: nat, s': State) {
    && t < |s.th| && s.th[t].pc.Copy?
    && var pc := s.th[t].pc;
    && pc.rt.Tag? && pc.rt.tid < |s.g.desc|
    && var d := s.g.desc[pc.rt.tid];
    && (|| s' == SetPc(s, t, Copy(pc.back, pc.rt, d.mut.sn, pc.got))
        || exists i: nat | i < |d.body| :: s' == SetPc(s, t, Copy(pc.back, pc.rt, pc.ssn, pc.got[i := d.body[i]])))
  }

  ghost predicate CopyCheck(s: State, t: nat, s': State) {
    && t < |s.th| && s.th[t].pc.Copy?
    && var pc := s.th[t].pc;
    && pc.rt.Tag? && pc.rt.tid < |s.g.desc|
    && var d := s.g.desc[pc.rt.tid];
    && pc.ssn >= 0 && Complete(pc.got, |d.body|)
    && s' == SetPc(s, t, if d.mut.sn == pc.rt.sn
                         then ReadControl(Help(pc.rt, false, pc.ssn, Assemble(pc.got, |d.body|), pc.back))
                         else Resume(pc.back))
  }

  /** What the read of addr1 adds to the record of the operation. */
  function Witness(o: Op, val1: int): Op {
    if o.status != Undecided then o
    else if val1 == Old1(o.body) then o.(met := true) else o.(missed := true)
  }

  /** `dcssHelp` reads addr1. */
  ghost predicate ControlStep(s: State, t: nat, s': State) {
    && t < |s.th| && s.th[t].pc.ReadControl?
    && var x := s.th[t].pc.x;
    && x.tag in s.g.ops && Addr1(x.body) < |s.g.ctl|
    && var val1 := s.g.ctl[Addr1(x.body)];
    && s' == SetPc(SetOp(s, x.tag, Witness(s.g.ops[x.tag], val1)),
                   t, StateRead(x, if val1 == Old1(x.body) then Succeeded else Failed))
  }

  /** MUTABLES_VAL_CAS_FIELD: the first read and the check of the sequence number. */
  ghost predicate StateReadStep(s: State, t: nat, s': State) {
    && t < |s.th| && s.th[t].pc.StateRead?
    && var pc := s.th[t].pc;
    && pc.x.tag.Tag? && pc.x.tag.tid < |s.g.desc|
    && s' == SetPc(s, t, Retry(pc.x, pc.st, s.g.desc[pc.x.tag.tid].mut))
  }

  /** The top of the loop: give up when the descriptor has moved on. */
  function Retry(x: Help, st: Status, v: Mutables): Pc {
    if v.sn != x.ssn then Resume(x.back) else StateCas(x, st, v)
  }

  /** What the macro does when its CAS fails on the value cur: it reports any decided
      state, without looking at the sequence number again. */
  function AfterFailedCas(x: Help, st: Status, cur: Mutables): Pc {
    if cur.status != Undecided then Finish(x, cur.status == Succeeded) else Retry(x, st, cur)
  }

  /** The CAS from undecided to st succeeds. */
  ghost predicate Decides(s: State, t: nat) {
    && t < |s.th| && s.th[t].pc.StateCas?
    && var pc := s.th[t].pc;
    && pc.x.tag.Tag? && pc.x.tag.tid < |s.g.desc|
    && s.g.desc[pc.x.tag.tid].mut == Mutables(pc.v.sn, Undecided)
  }

  ghost predicate StateCasStep(s: State, t: nat, s': State) {
    && t < |s.th| && s.th[t].pc.StateCas?
    && var pc := s.th[t].pc;
    && pc.x.tag.Tag? && pc.x.tag.tid < |s.g.desc| && pc.x.tag in s.g.ops
    && var u := pc.x.tag.tid;
    && s' == if Decides(s, t)
             then SetPc(SetOp(SetDesc(s, u, s.g.desc[u].(mut := Mutables(pc.v.sn, pc.st))),
                              pc.x.tag, s.g.ops[pc.x.tag].(status := pc.st)),
                        t, Finish(pc.x, pc.st == Succeeded))
             else SetPc(s, t, AfterFailedCas(pc.x, pc.st, s.g.desc[u].mut))
  }

  /** The CAS that takes the tag out of addr2, and the return of the owner. */
  ghost predicate FinishStep(s: State, t: nat, s': State) {
    && t < |s.th| && s.th[t].pc.Finish?
    && var x := s.th[t].pc.x;
    && var ok := s.th[t].pc.ok;
    && var a := Addr2(x.body);
    && a < |s.g.mem| && x.tag in s.g.ops
    && var s1 := if s.g.mem[a] == x.tag then SetMem(s, a, if ok then New2(x.body) else Old2(x.body)) else s;
    && s' == if x.own then Return(s1, t, x.tag, if ok then Success(x.tag) else FailedAddr1(x.tag))
             else SetPc(s1, t, Resume(x.back))
  }

  ghost predicate LocalStep(s: State, t: nat, s': State) {
    || NewRead(s, t, s') || ReadBegin(s, t, s') || ReadStep(s, t, s') || CopyWord(s, t, s') || CopyCheck(s, t, s')
    || StateReadStep(s, t, s')
  }

  ghost predicate SharedStep(s: State, t: nat, s': State) {
    || NewStore(s, t, s') || FillStep(s, t, s') || Publish(s, t, s') || PutStep(s, t, s')
    || ControlStep(s, t, s') || StateCasStep(s, t, s') || FinishStep(s, t, s')
  }

  ghost predicate ThreadStep(s: State, t: nat, s': State) {
    LocalStep(s, t, s') || SharedStep(s, t, s')
  }

  ghost predicate Next(s: State, s': State) {
    Environment(s, s') || exists t: nat :: ThreadStep(s, t, s')
  }

  ghost predicate StepAt(run: seq<State>, i: nat) {
    i + 1 < |run| && Next(run[i], run[i + 1])
  }

  /** A run: any finite interleaving from an initial state. */
  ghost predicate Run(run: seq<State>) {
    |run| > 0 && Init(run[0]) && forall i: nat | i + 1 < |run| :: StepAt(run, i)
  }
}
