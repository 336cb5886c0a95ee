/** LLX and SCX over reused descriptors, as a transition system with one access
    to shared memory per step.  A tag is a pair of a thread and a sequence number;
    sequence numbers are unbounded.  Thread-local work between two shared accesses
    belongs to the step before it. */
module ScxModel {

  import opened WordCopies

  type Value = int

  datatype Handle = InitHandle | Tag(tid: nat, sn: nat)

  datatype Verdict = InProgress | Committed | Aborted

  /** The packed mutable word of a descriptor. */
  datatype Mutables = Mutables(sn: nat, allFrozen: bool, verdict: Verdict)

  /** One word of the immutable part of a descriptor. */
  datatype Word =
    | Count(n: nat)
    | FieldRef(node: nat, off: nat)
    | Contents(v: Value)
    | NodeRef(r: nat)
    | Flag(b: bool)
    | HandleRef(h: Handle)

  /** numNodes, field, oldVal, newVal, then one (node, finalize, scxPtrSeen) triple per node. */
  type Body = seq<Word>

  function Num(b: Body): nat {
    if |b| > 0 && b[0].Count? then b[0].n else 0
  }

  function FieldNode(b: Body): nat {
    if |b| > 1 && b[1].FieldRef? then b[1].node else 0
  }

  function FieldOff(b: Body): nat {
    if |b| > 1 && b[1].FieldRef? then b[1].off else 0
  }

  function OldVal(b: Body): Value {
    if |b| > 2 && b[2].Contents? then b[2].v else 0
  }

  function NewVal(b: Body): Value {
    if |b| > 3 && b[3].Contents? then b[3].v else 0
  }

  function NodeAt(b: Body, i: nat): nat {
    if 4 + 3 * i < |b| && b[4 + 3 * i].NodeRef? then b[4 + 3 * i].r else 0
  }

  function FinalizeAt(b: Body, i: nat): bool {
    5 + 3 * i < |b| && b[5 + 3 * i].Flag? && b[5 + 3 * i].b
  }

  function SeenAt(b: Body, i: nat): Handle {
    if 6 + 3 * i < |b| && b[6 + 3 * i].HandleRef? then b[6 + 3 * i].h else InitHandle
  }

  datatype Descriptor = Descriptor(mut: Mutables, body: Body)

  /** What a thread keeps from its last successful LLX on a node. */
  datatype Held = Held(h: Handle, vals: map<nat, Value>)

  datatype Result =
    | NoResult
    | LlxOk(r: nat)
    | LlxFail(r: nat, finalized: bool)
    | ScxDone(ok: bool, tag: Handle)

  /** The arguments of one activation of `help`; r and m are the node of the `llx` that helps and
      its first read of the mark. */
  datatype Help = Help(tag: Handle, own: bool, msn: nat, snap: Body, r: nat, m: bool)

  datatype Pc =
    | Idle
    | LlxMarked(r: nat)
    | LlxPtr(r: nat, m: bool)
    | LlxState(r: nat, m: bool, h: Handle)
    | LlxCheck(r: nat, m: bool, h: Handle)
    | LlxCopy(r: nat, m: bool, h: Handle, vals: map<nat, Value>)
    | Snapshot(r: nat, m: bool, h: Handle, msn: int, got: map<nat, Word>)
    | Initialize(v: Mutables, snaps: seq<map<nat, Value>>, fi: nat)
    | Freeze(a: Help, i: nat)
    | Reread(a: Help, i: nat, won: bool)
    | ReadFrozen(a: Help, i: nat)
    | AbortRead(a: Help)
    | AbortCas(a: Help, v: Mutables)
    | BitRead(a: Help)
    | BitCas(a: Help, v: Mutables)
    | Mark(a: Help, j: nat)
    | Update(a: Help)
    | CommitRead(a: Help)
    | CommitCas(a: Help, v: Mutables)
    | Renew(a: Help, ok: bool)
    | RenewWrite(a: Help, ok: bool, v: Mutables)

  datatype Thread = Thread(pc: Pc, held: map<nat, Held>, ret: Result)

  /** Ghost record of one SCX: its descriptor body when it was published, the LLX
      snapshots it is linked to, the index of the node owning its field, and its fate. */
  datatype Op = Op(body: Body, snaps: seq<map<nat, Value>>, fi: nat,
                   verdict: Verdict, allFrozen: bool, updated: bool)

  datatype Shared = Shared(
    ptr: seq<Handle>,
    marked: seq<bool>,
    mem: seq<seq<Value>>,
    desc: seq<Descriptor>,
    ops: map<Handle, Op>,               // ghost: every SCX ever published
    hist: seq<seq<Handle>>,             // ghost: all values scxPtr of a node has had
    past: seq<seq<set<Value>>>          // ghost: the overwritten values of each field
  )

  datatype State = State(g: Shared, th: seq<Thread>)

  const InitOp := Op([], [], 0, Committed, true, true)

  /* ------------------------------------------------------------------ steps */

  ghost predicate Init(s: State) {
    && s.g.ptr == [] && s.g.marked == [] && s.g.mem == [] && s.g.hist == [] && s.g.past == []
    && |s.g.desc| == |s.th|
    && (forall t | 0 <= t < |s.th| ::
          s.g.desc[t].mut == Mutables(2, false, InProgress) && s.th[t] == Thread(Idle, map[], NoResult))
    && s.g.ops == map[InitHandle := InitOp]
  }

  function SetPc(s: State, t: nat, pc: Pc): State
    requires t < |s.th|
  {
    s.(th := s.th[t := s.th[t].(pc := pc)])
  }

  function Finish(s: State, t: nat, ret: Result): State
    requires t < |s.th|
  {
    s.(th := s.th[t := s.th[t].(pc := Idle, ret := ret)])
  }

  function SetMut(s: State, u: nat, mut: Mutables): State
    requires u < |s.g.desc|
  {
    s.(g := s.g.(desc := s.g.desc[u := s.g.desc[u].(mut := mut)]))
  }

  /** Ghost: the record of one SCX changes together with its mutable word. */
  function SetFate(s: State, h: Handle, o: Op): State {
    s.(g := s.g.(ops := s.g.ops[h := o]))
  }

  function SetWord(s: State, u: nat, i: nat, w: Word): State
    requires u < |s.g.desc| && i < |s.g.desc[u].body|
  {
    s.(g := s.g.(desc := s.g.desc[u := s.g.desc[u].(body := s.g.desc[u].body[i := w])]))
  }

  function Allocate(s: State, vals: seq<Value>): State {
    s.(g := s.g.(ptr := s.g.ptr + [InitHandle], marked := s.g.marked + [false], mem := s.g.mem + [vals],
                 hist := s.g.hist + [[InitHandle]], past := s.g.past + [seq(|vals|, i => {})]))
  }

  /** A fresh node, after initNode. */
  ghost predicate AllocNode(s: State, s': State) {
    exists vals: seq<Value> :: s' == Allocate(s, vals)
  }

  /** The first read of `llx`. */
  ghost predicate LlxBegin(s: State, t: nat, s': State) {
    && t < |s.th| && s.th[t].pc == Idle
    && exists r: nat | r < |s.g.ptr| :: s' == SetPc(s, t, LlxMarked(r))
  }

  ghost predicate LlxReadMarked(s: State, t: nat, s': State) {
    && t < |s.th| && s.th[t].pc.LlxMarked?
    && var r := s.th[t].pc.r;
    && r < |s.g.marked|
    && s' == SetPc(s, t, LlxPtr(r, s.g.marked[r]))
  }

  ghost predicate LlxReadPtr(s: State, t: nat, s': State) {
    && t < |s.th| && s.th[t].pc.LlxPtr?
    && var pc := s.th[t].pc;
    && pc.r < |s.g.ptr|
    && s' == SetPc(s, t, LlxState(pc.r, pc.m, s.g.ptr[pc.r]))
  }

  /** The verdict `llx` works with; a descriptor that moved on counts as committed. */
  ghost function SeenVerdict(s: State, h: Handle): Verdict {
    if h.InitHandle? then Committed
    else if h.tid < |s.g.desc| && s.g.desc[h.tid].mut.sn == h.sn then s.g.desc[h.tid].mut.verdict
    else Committed
  }

  ghost predicate LlxReadState(s: State, t: nat, s': State) {
    && t < |s.th| && s.th[t].pc.LlxState?
    && var pc := s.th[t].pc;
    && s' == SetPc(s, t, match SeenVerdict(s, pc.h)
                         case Aborted => LlxCopy(pc.r, pc.m, pc.h, map[])
                         case Committed => LlxCheck(pc.r, pc.m, pc.h)
                         case InProgress => Snapshot(pc.r, pc.m, pc.h, -1, map[]))
  }

  ghost predicate LlxReadMarkedAgain(s: State, t: nat, s': State) {
    && t < |s.th| && s.th[t].pc.LlxCheck?
    && var pc := s.th[t].pc;
    && pc.r < |s.g.marked|
    && s' == if s.g.marked[pc.r] then Finish(s, t, LlxFail(pc.r, pc.m))
             else SetPc(s, t, LlxCopy(pc.r, pc.m, pc.h, map[]))
  }

  ghost predicate LlxCopyField(s: State, t: nat, s': State) {
    && t < |s.th| && s.th[t].pc.LlxCopy?
    && var pc := s.th[t].pc;
    && pc.r < |s.g.mem|
    && exists k: nat | k < |s.g.mem[pc.r]| ::
         s' == SetPc(s, t, pc.(vals := pc.vals[k := s.g.mem[pc.r][k]]))
  }

  /** The last read of `llx`: the snapshot is good when scxPtr has not changed. */
  ghost predicate LlxVerify(s: State, t: nat, s': State) {
    && t < |s.th| && s.th[t].pc.LlxCopy?
    && var pc := s.th[t].pc;
    && pc.r < |s.g.ptr| && pc.r < |s.g.mem|
    && Complete(pc.vals, |s.g.mem[pc.r]|)
    && s' == if s.g.ptr[pc.r] == pc.h
             then s.(th := s.th[t := Thread(Idle, s.th[t].held[pc.r := Held(pc.h, pc.vals)], LlxOk(pc.r))])
             else Finish(s, t, LlxFail(pc.r, pc.m))
  }

  /** One word of the memcpy in `helpOther`, in any order. */
  ghost predicate SnapshotWord(s: State, t: nat, s': State) {
    && t < |s.th| && s.th[t].pc.Snapshot? && s.th[t].pc.h.Tag? && s.th[t].pc.h.tid < |s.g.desc|
    && var pc := s.th[t].pc;
    && var d := s.g.desc[pc.h.tid];
    && (|| s' == SetPc(s, t, pc.(msn := d.mut.sn))
        || exists i: nat | i < |d.body| :: s' == SetPc(s, t, pc.(got := pc.got[i := d.body[i]])))
  }

  /** The check that ends DESC1_SNAPSHOT. */
  ghost predicate SnapshotCheck(s: State, t: nat, s': State) {
    && t < |s.th| && s.th[t].pc.Snapshot? && s.th[t].pc.h.Tag? && s.th[t].pc.h.tid < |s.g.desc|
    && var pc := s.th[t].pc;
    && var d := s.g.desc[pc.h.tid];
    && pc.msn >= 0
    && Complete(pc.got, |d.body|)
    && s' == if d.mut.sn == pc.h.sn
             then SetPc(s, t, Freeze(Help(pc.h, false, pc.msn, Assemble(pc.got, |d.body|), pc.r, pc.m), 1))
             else Finish(s, t, LlxFail(pc.r, pc.m))
  }

  /** scxInit, scxAddNode and the argument stores of scxExecute: while the sequence
      number is even the owner stores any word of its descriptor. */
  ghost predicate BuildWord(s: State, t: nat, s': State) {
    && t < |s.th| && t < |s.g.desc| && s.th[t].pc == Idle
    && exists i: nat, w: Word | i < |s.g.desc[t].body| :: s' == SetWord(s, t, i, w)
  }

  /** What the caller of scxExecute has set up: every added node with the handle and
      snapshot of this thread's last LLX on it, a field of one of these nodes, the old
      value of that field in the snapshot, and a new value the field has never had. */
  ghost predicate Prepared(s: State, t: nat, b: Body, snaps: seq<map<nat, Value>>, fi: nat)
    requires t < |s.th|
  {
    && fi < Num(b) && 4 + 3 * Num(b) <= |b| && |snaps| == Num(b)
    && (forall i: nat {:trigger NodeAt(b, i)} | i < Num(b) ::
          && NodeAt(b, i) in s.th[t].held
          && s.th[t].held[NodeAt(b, i)] == Held(SeenAt(b, i), snaps[i]))
    && FieldNode(b) == NodeAt(b, fi)
    && FieldNode(b) < |s.g.mem| && FieldNode(b) < |s.g.past|
    && FieldOff(b) < |s.g.mem[FieldNode(b)]| && FieldOff(b) < |s.g.past[FieldNode(b)]|
    && FieldOff(b) in snaps[fi] && snaps[fi][FieldOff(b)] == OldVal(b)
    && NewVal(b) !in s.g.past[FieldNode(b)][FieldOff(b)]
    && NewVal(b) != s.g.mem[FieldNode(b)][FieldOff(b)]
  }

  /** The read of DESC1_INITIALIZED. */
  ghost predicate InitializeRead(s: State, t: nat, s': State) {
    && t < |s.th| && t < |s.g.desc| && s.th[t].pc == Idle
    && exists snaps: seq<map<nat, Value>>, fi: nat | Prepared(s, t, s.g.desc[t].body, snaps, fi) ::
         s' == SetPc(s, t, Initialize(s.g.desc[t].mut, snaps, fi))
  }

  /** The store of DESC1_INITIALIZED publishes the descriptor under a new tag. */
  ghost predicate InitializeWrite(s: State, t: nat, s': State) {
    && t < |s.th| && t < |s.g.desc| && s.th[t].pc.Initialize?
    && var pc := s.th[t].pc;
    && var b := s.g.desc[t].body;
    && var tag := Tag(t, pc.v.sn + 1);
    && s' == s.(g := s.g.(desc := s.g.desc[t := s.g.desc[t].(mut := pc.v.(sn := pc.v.sn + 1))],
                          ops := s.g.ops[tag := Op(b, pc.snaps, pc.fi, InProgress, false, false)]),
                th := s.th[t := s.th[t].(pc := Freeze(Help(tag, true, pc.v.sn + 1, b, 0, false), 0))])
  }

  /** The freezing CAS of `help`, or the end of the freezing loop. */
  ghost predicate FreezeCas(s: State, t: nat, s': State) {
    && t < |s.th| && s.th[t].pc.Freeze?
    && var pc := s.th[t].pc;
    && var b := pc.a.snap;
    && if pc.i >= Num(b) then s' == SetPc(s, t, BitRead(pc.a))
       else
         && NodeAt(b, pc.i) < |s.g.ptr| && NodeAt(b, pc.i) < |s.g.hist|
         && var r := NodeAt(b, pc.i);
         && s' == if s.g.ptr[r] == SeenAt(b, pc.i)
                  then SetPc(s.(g := s.g.(ptr := s.g.ptr[r := pc.a.tag],
                                          hist := s.g.hist[r := s.g.hist[r] + [pc.a.tag]])),
                             t, Reread(pc.a, pc.i, true))
                  else SetPc(s, t, Reread(pc.a, pc.i, false))
  }

  ghost predicate FreezeReread(s: State, t: nat, s': State) {
    && t < |s.th| && s.th[t].pc.Reread?
    && var pc := s.th[t].pc;
    && NodeAt(pc.a.snap, pc.i) < |s.g.ptr|
    && s' == if pc.won || s.g.ptr[NodeAt(pc.a.snap, pc.i)] == pc.a.tag
             then SetPc(s, t, Freeze(pc.a, pc.i + 1))
             else SetPc(s, t, ReadFrozen(pc.a, pc.i))
  }

  /** What follows when `help` returns: the owner renews its descriptor, a helper's
      `llx` fails. */
  ghost function Leave(s: State, t: nat, a: Help, ok: bool): State
    requires t < |s.th|
  {
    if a.own then SetPc(s, t, Renew(a, ok)) else Finish(s, t, LlxFail(a.r, a.m))
  }

  ghost predicate ReadFrozenBit(s: State, t: nat, s': State) {
    && t < |s.th| && s.th[t].pc.ReadFrozen? && s.th[t].pc.a.tag.Tag? && s.th[t].pc.a.tag.tid < |s.g.desc|
    && var pc := s.th[t].pc;
    && var mut := s.g.desc[pc.a.tag.tid].mut;
    && s' == if mut.sn != pc.a.tag.sn then Leave(s, t, pc.a, false)
             else if mut.allFrozen then Leave(s, t, pc.a, true)
             else SetPc(s, t, AbortRead(pc.a))
  }

  ghost predicate AbortWriteRead(s: State, t: nat, s': State) {
    && t < |s.th| && s.th[t].pc.AbortRead? && s.th[t].pc.a.tag.Tag? && s.th[t].pc.a.tag.tid < |s.g.desc|
    && var a := s.th[t].pc.a;
    && var v := s.g.desc[a.tag.tid].mut;
    && s' == if v.sn == a.msn && v.verdict != Aborted then SetPc(s, t, AbortCas(a, v)) else Leave(s, t, a, false)
  }

  ghost predicate AbortWriteCas(s: State, t: nat, s': State) {
    && t < |s.th| && s.th[t].pc.AbortCas? && s.th[t].pc.a.tag.Tag? && s.th[t].pc.a.tag.tid < |s.g.desc|
    && var pc := s.th[t].pc;
    && var u := pc.a.tag.tid;
    && pc.a.tag in s.g.ops
    && s' == if s.g.desc[u].mut == pc.v
             then Leave(SetFate(SetMut(s, u, pc.v.(verdict := Aborted)), pc.a.tag,
                  s.g.ops[pc.a.tag].(verdict := Aborted)),
                        t, pc.a, false)
             else SetPc(s, t, AbortRead(pc.a))
  }

  ghost predicate BitWriteRead(s: State, t: nat, s': State) {
    && t < |s.th| && s.th[t].pc.BitRead? && s.th[t].pc.a.tag.Tag? && s.th[t].pc.a.tag.tid < |s.g.desc|
    && var a := s.th[t].pc.a;
    && var v := s.g.desc[a.tag.tid].mut;
    && s' == SetPc(s, t, if v.sn == a.msn && !v.allFrozen then BitCas(a, v) else Mark(a, 0))
  }

  ghost predicate BitWriteCas(s: State, t: nat, s': State) {
    && t < |s.th| && s.th[t].pc.BitCas? && s.th[t].pc.a.tag.Tag? && s.th[t].pc.a.tag.tid < |s.g.desc|
    && var pc := s.th[t].pc;
    && var u := pc.a.tag.tid;
    && pc.a.tag in s.g.ops
    && s' == if s.g.desc[u].mut == pc.v
             then SetPc(SetFate(SetMut(s, u, pc.v.(allFrozen := true)), pc.a.tag,
                  s.g.ops[pc.a.tag].(allFrozen := true)),
                        t, Mark(pc.a, 0))
             else SetPc(s, t, BitRead(pc.a))
  }

  /** One iteration of the marking loop. */
  ghost predicate MarkNode(s: State, t: nat, s': State) {
    && t < |s.th| && s.th[t].pc.Mark?
    && var pc := s.th[t].pc;
    && var b := pc.a.snap;
    && if pc.j >= Num(b) then s' == SetPc(s, t, Update(pc.a))
       else if !FinalizeAt(b, pc.j) then s' == SetPc(s, t, Mark(pc.a, pc.j + 1))
       else
         && NodeAt(b, pc.j) < |s.g.marked|
         && s' == SetPc(s.(g := s.g.(marked := s.g.marked[NodeAt(b, pc.j) := true])), t, Mark(pc.a, pc.j + 1))
  }

  /** The update CAS. */
  ghost predicate UpdateWins(s: State, t: nat) {
    && t < |s.th| && s.th[t].pc.Update?
    && var b := s.th[t].pc.a.snap;
    && FieldNode(b) < |s.g.mem| && FieldOff(b) < |s.g.mem[FieldNode(b)]|
    && s.g.mem[FieldNode(b)][FieldOff(b)] == OldVal(b)
  }

  ghost predicate UpdateCas(s: State, t: nat, s': State) {
    && t < |s.th| && s.th[t].pc.Update?
    && var a := s.th[t].pc.a;
    && var b := a.snap;
    && var r := FieldNode(b);
    && var k := FieldOff(b);
    && a.tag in s.g.ops
    && r < |s.g.mem| && r < |s.g.past| && k < |s.g.mem[r]| && k < |s.g.past[r]|
    && s' == if UpdateWins(s, t)
             then SetPc(s.(g := s.g.(mem := s.g.mem[r := s.g.mem[r][k := NewVal(b)]],
                                    past := s.g.past[r := s.g.past[r][k := s.g.past[r][k] + {OldVal(b)}]],
                                    ops := s.g.ops[a.tag := s.g.ops[a.tag].(updated := true)])),
                        t, CommitRead(a))
             else SetPc(s, t, CommitRead(a))
  }

  ghost predicate CommitWriteRead(s: State, t: nat, s': State) {
    && t < |s.th| && s.th[t].pc.CommitRead? && s.th[t].pc.a.tag.Tag? && s.th[t].pc.a.tag.tid < |s.g.desc|
    && var a := s.th[t].pc.a;
    && var v := s.g.desc[a.tag.tid].mut;
    && s' == if v.sn == a.msn && v.verdict != Committed then SetPc(s, t, CommitCas(a, v)) else Leave(s, t, a, true)
  }

  ghost predicate CommitWriteCas(s: State, t: nat, s': State) {
    && t < |s.th| && s.th[t].pc.CommitCas? && s.th[t].pc.a.tag.Tag? && s.th[t].pc.a.tag.tid < |s.g.desc|
    && var pc := s.th[t].pc;
    && var u := pc.a.tag.tid;
    && pc.a.tag in s.g.ops
    && s' == if s.g.desc[u].mut == pc.v
             then Leave(SetFate(SetMut(s, u, pc.v.(verdict := Committed)), pc.a.tag,
                  s.g.ops[pc.a.tag].(verdict := Committed)),
                        t, pc.a, true)
             else SetPc(s, t, CommitRead(pc.a))
  }

  /** DESC1_NEW after the owner's `help` returned: a read, then a store. */
  ghost predicate RenewReadStep(s: State, t: nat, s': State) {
    && t < |s.th| && t < |s.g.desc| && s.th[t].pc.Renew?
    && s' == SetPc(s, t, RenewWrite(s.th[t].pc.a, s.th[t].pc.ok, s.g.desc[t].mut))
  }

  ghost predicate RenewWriteStep(s: State, t: nat, s': State) {
    && t < |s.th| && t < |s.g.desc| && s.th[t].pc.RenewWrite?
    && var pc := s.th[t].pc;
    && s' == Finish(SetMut(s, t, Mutables(pc.v.sn + 1, false, InProgress)), t, ScxDone(pc.ok, pc.a.tag))
  }

  /** The steps that touch nothing but the moving thread. */
  ghost predicate LocalStep(s: State, t: nat, s': State) {
    || LlxBegin(s, t, s') || LlxReadMarked(s, t, s') || LlxReadPtr(s, t, s') || LlxReadState(s, t, s')
    || LlxReadMarkedAgain(s, t, s') || LlxCopyField(s, t, s') || LlxVerify(s, t, s')
    || SnapshotWord(s, t, s') || SnapshotCheck(s, t, s') || InitializeRead(s, t, s')
    || FreezeReread(s, t, s') || ReadFrozenBit(s, t, s') || AbortWriteRead(s, t, s')
    || BitWriteRead(s, t, s') || CommitWriteRead(s, t, s') || RenewReadStep(s, t, s')
  }

  ghost predicate SharedStep(s: State, t: nat, s': State) {
    || BuildWord(s, t, s') || InitializeWrite(s, t, s') || FreezeCas(s, t, s')
    || AbortWriteCas(s, t, s') || BitWriteCas(s, t, s') || MarkNode(s, t, s')
    || UpdateCas(s, t, s') || CommitWriteCas(s, t, s') || RenewWriteStep(s, t, s')
  }

  ghost predicate ThreadStep(s: State, t: nat, s': State) {
    LocalStep(s, t, s') || SharedStep(s, t, s')
  }

  ghost predicate Next(s: State, s': State) {
    AllocNode(s, s') || exists t: nat :: ThreadStep(s, t, s')
  }

  ghost predicate StepAt(run: seq<State>, i: nat) {
    i + 1 < |run| && Next(run[i], run[i + 1])
  }

  /** A run: any finite interleaving from an initial state. */
  ghost predicate Run(run: seq<State>) {
    |run| > 0 && Init(run[0]) && forall i: nat | i + 1 < |run| :: StepAt(run, i)
  }
}
