/** Range queries cut by a timestamp under the packed-word reader-writer lock that favours
    readers, as a transition system with one access to shared memory per step.  The lock word
    is 4 * readers + 2 * upgrader + writer. */
module RangeQueryModel {

  const NOT_SET: nat := 0

  /** A linearized update with its timestamp, or the timestamp increment of a query. */
  datatype Event = Update(ts: nat) | Cut(lin: nat)

  /** insAt and delAt are ghost: one more than the index of the event that inserted or
      deleted the node, or 0. */
  datatype Node = Node(itime: nat, dtime: nat, insAt: nat, delAt: nat)

  /** The nodes an update inserts and deletes. */
  datatype Job = Job(ins: seq<nat>, del: seq<nat>)

  datatype Stage =
    | Itime                  // wait until itime is set
    | ItimeAgain             // compare itime
    | Mark                   // is the node logically deleted?
    | Dtime(deleted: bool)
    | Spin                   // wait until dtime is set
    | LoopCheck              // is the node still announced?
    | LoopRead
    | LastRead

  /** A query with linearization time lin, whose increment is event cut, looks at node n.
      known is ghost: dtime was already set when the visit began. */
  datatype Visit = Visit(lin: nat, cut: nat, n: nat, found: bool, source: bool, known: bool)

  datatype Pc =
    | Idle
    // lock clients that may upgrade
    | ClientSpin
    | Held
    | UpgradeRead
    | UpgradeCas(expval: nat)
    | UpgradeWait
    | WriteHeld
    // updates
    | UpdateSpin(job: Job)
    | ReadStamp(job: Job)
    | Linearize(job: Job, ts: nat)
    | UpdateUnlock(job: Job, ts: nat, done: bool)
    | SetIns(job: Job, ts: nat, i: nat)
    | SetDel(job: Job, ts: nat, i: nat)
    // queries
    | CutLock
    | CutRead
    | CutWrite(now: nat)
    | CutUnlock(lin: nat, cut: nat)
    | Query(lin: nat, cut: nat)
    | Visiting(v: Visit, stage: Stage)
    | Verdict(v: Visit, accepted: bool, unknown: bool)

  /** events is ghost. */
  datatype State = State(lock: nat, time: nat, nodes: seq<Node>, th: seq<Pc>, events: seq<Event>, logical: bool)

  ghost predicate Init(s: State) {
    && s.lock == 0 && s.time == 1 && s.events == []
    && (forall n | 0 <= n < |s.nodes| :: s.nodes[n] == Node(NOT_SET, NOT_SET, 0, 0))
    && (forall t | 0 <= t < |s.th| :: s.th[t] == Idle)
  }

  function SetPc(s: State, t: nat, pc: Pc): State
    requires t < |s.th|
  {
    s.(th := s.th[t := pc])
  }

  predicate IsWriteLocked(lock: nat) {
    lock % 2 == 1
  }

  predicate IsUpgrading(lock: nat) {
    (lock / 2) % 2 == 1
  }

  /* --------------------------------------------------------------- the lock */

  /** `readLock`: the reader is counted at once, and waits for the writer to leave. */
  ghost predicate ReadLockAdd(s: State, t: nat, pc: Pc, s': State) {
    && t < |s.th| && s.th[t] == Idle && (pc.ClientSpin? || pc.UpdateSpin?)
    && s' == SetPc(s, t, pc).(lock := s.lock + 4)
  }

  ghost predicate ReadLockSpin(s: State, t: nat, s': State) {
    && t < |s.th| && (s.th[t].ClientSpin? || s.th[t].UpdateSpin?)
    && s' == if IsWriteLocked(s.lock) then s
       else SetPc(s, t, if s.th[t].ClientSpin? then Held else ReadStamp(s.th[t].job))
  }

  ghost predicate ClientUnlock(s: State, t: nat, s': State) {
    && t < |s.th|
    && (|| (s.th[t] == Held && s' == SetPc(s, t, Idle).(lock := if s.lock >= 4 then s.lock - 4 else 0))
        || (s.th[t] == WriteHeld && s' == SetPc(s, t, Idle).(lock := if s.lock >= 1 then s.lock - 1 else 0)))
  }

  /** `upgradeLock`: the read of the word. */
  ghost predicate UpgradeReadStep(s: State, t: nat, s': State) {
    && t < |s.th| && (s.th[t] == Held || s.th[t] == UpgradeRead)
    && s' == SetPc(s, t, if IsUpgrading(s.lock) then Held else UpgradeCas(s.lock))
  }

  /** The CAS that gives up the read lock and takes the upgrade bit. */
  ghost predicate UpgradeCasStep(s: State, t: nat, s': State) {
    && t < |s.th| && s.th[t].UpgradeCas?
    && var e := s.th[t].expval;
    && s' == if s.lock == e && e >= 4 then SetPc(s, t, UpgradeWait).(lock := e - 4 + 2) else SetPc(s, t, UpgradeRead)
  }

  /** The CAS from one upgrader and no readers to one writer. */
  ghost predicate UpgradeWaitStep(s: State, t: nat, s': State) {
    && t < |s.th| && s.th[t] == UpgradeWait
    && s' == if s.lock == 2 then SetPc(s, t, WriteHeld).(lock := 1) else s
  }

  /* ---------------------------------------------------------------- updates */

  ghost predicate ReadStampStep(s: State, t: nat, s': State) {
    && t < |s.th| && s.th[t].ReadStamp?
    && s' == SetPc(s, t, Linearize(s.th[t].job, s.time))
  }

  ghost predicate DistinctNodes(ns: seq<nat>) {
    forall i, j | 0 <= i < j < |ns| :: ns[i] != ns[j]
  }

  /** The nodes of an update that takes effect: it inserts new nodes and deletes present ones. */
  ghost predicate Applicable(s: State, job: Job) {
    && DistinctNodes(job.ins) && DistinctNodes(job.del)
    && (forall n | n in job.ins :: n < |s.nodes| && s.nodes[n].insAt == 0)
    && (forall n | n in job.del :: n < |s.nodes| && s.nodes[n].insAt > 0 && s.nodes[n].delAt == 0)
  }

  function AppliedNode(x: Node, n: nat, job: Job, at: nat): Node {
    x.(insAt := if n in job.ins then at else x.insAt, delAt := if n in job.del then at else x.delAt)
  }

  function Applied(nodes: seq<Node>, job: Job, at: nat): (r: seq<Node>)
    ensures |r| == |nodes| && forall n: nat | n < |nodes| :: r[n] == AppliedNode(nodes[n], n, job, at)
  {
    seq(|nodes|, n requires 0 <= n < |nodes| => AppliedNode(nodes[n], n, job, at))
  }

  /** The write or CAS that linearizes the update; a CAS may fail. */
  ghost predicate LinearizeStep(s: State, t: nat, done: bool, s': State) {
    && t < |s.th| && s.th[t].Linearize?
    && var pc := s.th[t];
    && (done ==> Applicable(s, pc.job))
    && var s1 := SetPc(s, t, UpdateUnlock(pc.job, pc.ts, done));
    && s' == if done then s1.(nodes := Applied(s.nodes, pc.job, |s.events| + 1), events := s.events + [Update(pc.ts)])
       else s1
  }

  ghost predicate UpdateUnlockStep(s: State, t: nat, s': State) {
    && t < |s.th| && s.th[t].UpdateUnlock?
    && var pc := s.th[t];
    && s' == SetPc(s, t, if pc.done then SetIns(pc.job, pc.ts, 0) else Idle).
               (lock := if s.lock >= 4 then s.lock - 4 else 0)
  }

  /** The timestamps are stored into the nodes after the lock is released. */
  ghost predicate SetInsStep(s: State, t: nat, s': State) {
    && t < |s.th| && s.th[t].SetIns?
    && var pc := s.th[t];
    && if pc.i >= |pc.job.ins| then s' == SetPc(s, t, SetDel(pc.job, pc.ts, 0))
       else
         && pc.job.ins[pc.i] < |s.nodes|
         && s' == SetPc(s, t, SetIns(pc.job, pc.ts, pc.i + 1))
                  .(nodes := s.nodes[pc.job.ins[pc.i] := s.nodes[pc.job.ins[pc.i]].(itime := pc.ts)])
  }

  ghost predicate SetDelStep(s: State, t: nat, s': State) {
    && t < |s.th| && s.th[t].SetDel?
    && var pc := s.th[t];
    && if pc.i >= |pc.job.del| then s' == SetPc(s, t, Idle)
       else
         && pc.job.del[pc.i] < |s.nodes|
         && s' == SetPc(s, t, SetDel(pc.job, pc.ts, pc.i + 1))
                  .(nodes := s.nodes[pc.job.del[pc.i] := s.nodes[pc.job.del[pc.i]].(dtime := pc.ts)])
  }

  /* ---------------------------------------------------------------- queries */

  ghost predicate QueryStart(s: State, t: nat, s': State) {
    t < |s.th| && s.th[t] == Idle && s' == SetPc(s, t, CutLock)
  }

  /** `writeLock`: the CAS from 0 to 1. */
  ghost predicate CutLockStep(s: State, t: nat, s': State) {
    && t < |s.th| && s.th[t] == CutLock
    && s' == if s.lock == 0 then SetPc(s, t, CutRead).(lock := 1) else s
  }

  /** The increment of the timestamp is a read and a store. */
  ghost predicate CutReadStep(s: State, t: nat, s': State) {
    t < |s.th| && s.th[t] == CutRead && s' == SetPc(s, t, CutWrite(s.time))
  }

  ghost predicate CutWriteStep(s: State, t: nat, s': State) {
    && t < |s.th| && s.th[t].CutWrite?
    && var l := s.th[t].now + 1;
    && s' == SetPc(s, t, CutUnlock(l, |s.events|)).(time := l, events := s.events + [Cut(l)])
  }

  ghost predicate CutUnlockStep(s: State, t: nat, s': State) {
    && t < |s.th| && s.th[t].CutUnlock?
    && s' == SetPc(s, t, Query(s.th[t].lin, s.th[t].cut)).(lock := if s.lock >= 1 then s.lock - 1 else 0)
  }

  /** The node was not deleted before the cut. */
  ghost predicate LinkedAfter(s: State, n: nat, cut: nat) {
    n < |s.nodes| && (s.nodes[n].delAt == 0 || s.nodes[n].delAt - 1 > cut)
  }

  /** `__traversal_try_add`.  A node met by the traversal of a structure without logical
      deletion is taken to have been linked at some time after the cut. */
  ghost predicate VisitBegin(s: State, t: nat, n: nat, found: bool, source: bool, s': State) {
    && t < |s.th| && s.th[t].Query? && n < |s.nodes| && (found ==> !source)
    && (found && !s.logical ==> LinkedAfter(s, n, s.th[t].cut))
    && s' == SetPc(s, t,
       Visiting(Visit(s.th[t].lin, s.th[t].cut, n, found, source, s.nodes[n].dtime != NOT_SET), Itime))
  }

  /** The last test, once dtime is known. */
  function Compare(v: Visit, dtime: nat): Pc {
    Verdict(v, dtime >= v.lin, false)
  }

  function AfterItime(logical: bool, v: Visit, itime: nat): Pc {
    if itime >= v.lin then Verdict(v, false, false)
    else if logical then Visiting(v, Mark)
    else if v.found then Verdict(v, true, false)
    else Visiting(v, Dtime(false))
  }

  function AfterDtime(logical: bool, v: Visit, deleted: bool, dtime: nat): Pc {
    if dtime != NOT_SET then Compare(v, dtime)
    else if logical && !deleted then Verdict(v, true, false)
    else if v.source then Visiting(v, LoopCheck)
    else Visiting(v, Spin)
  }

  /** One read of a visit; announced is what the announcement slot shows. */
  ghost predicate VisitStep(s: State, t: nat, announced: bool, s': State) {
    && t < |s.th| && s.th[t].Visiting? && s.th[t].v.n < |s.nodes|
    && var v := s.th[t].v;
    && var x := s.nodes[v.n];
    && s' == SetPc(s, t,
         match s.th[t].stage
         case Itime => Visiting(v, if x.itime == NOT_SET then Itime else ItimeAgain)
         case ItimeAgain => AfterItime(s.logical, v, x.itime)
         case Mark => Visiting(v, Dtime(x.delAt > 0))
         case Dtime(deleted) => AfterDtime(s.logical, v, deleted, x.dtime)
         case Spin => if x.dtime == NOT_SET then Visiting(v, Spin) else Compare(v, x.dtime)
         case LoopCheck => Visiting(v, if announced then LoopRead else LastRead)
         case LoopRead => if x.dtime == NOT_SET then Visiting(v, LoopCheck) else Compare(v, x.dtime)
         case LastRead => if x.dtime == NOT_SET then Verdict(v, false, true) else Compare(v, x.dtime))
  }

  ghost predicate VisitEnd(s: State, t: nat, s': State) {
    && t < |s.th| && (s.th[t].Verdict? || s.th[t].Query?)
    && s' == SetPc(s, t, if s.th[t].Verdict? then Query(s.th[t].v.lin, s.th[t].v.cut) else Idle)
  }

  /* ------------------------------------------------------------------- runs */

  ghost predicate LockStep(s: State, t: nat, s': State) {
    || ReadLockSpin(s, t, s') || ClientUnlock(s, t, s') || UpgradeReadStep(s, t, s') || UpgradeCasStep(s, t, s')
    || UpgradeWaitStep(s, t, s') || UpdateUnlockStep(s, t, s') || CutLockStep(s, t, s') || CutUnlockStep(s, t, s')
    || ReadStampStep(s, t, s') || QueryStart(s, t, s') || CutReadStep(s, t, s') || VisitEnd(s, t, s')
  }

  ghost predicate ThreadStep(s: State, t: nat, s': State) {
    || LockStep(s, t, s') || SetInsStep(s, t, s') || SetDelStep(s, t, s') || CutWriteStep(s, t, s')
  }

  ghost predicate Next(s: State, s': State) {
    || (exists t: nat :: ThreadStep(s, t, s'))
    || (exists t: nat, pc: Pc :: ReadLockAdd(s, t, pc, s'))
    || (exists t: nat, done: bool :: LinearizeStep(s, t, done, s'))
    || (exists t: nat, announced: bool :: VisitStep(s, t, announced, s'))
    || (exists t: nat, n: nat, found: bool, source: bool :: VisitBegin(s, t, n, found, source, s'))
  }

  ghost predicate StepAt(run: seq<State>, i: nat) {
    i + 1 < |run| && Next(run[i], run[i + 1])
  }

  /** A run: any finite interleaving from an initial state. */
  ghost predicate Run(run: seq<State>) {
    |run| > 0 && Init(run[0]) && forall i: nat | i + 1 < |run| :: StepAt(run, i)
  }
}

/** The lock excludes, so timestamps cut the updates. */
module RangeQuerySafety {

  import opened FiniteSets
  import opened RangeQueryModel

  /* ------------------------------------------------------------- invariant */

  datatype Kind = Outside | Reader | Upgrader | Writer

  /** What the thread adds to the lock word. */
  function KindOf(pc: Pc): Kind {
    match pc
    case ClientSpin => Reader
    case Held => Reader
    case UpgradeRead => Reader
    case UpgradeCas(_) => Reader
    case UpdateSpin(_) => Reader
    case ReadStamp(_) => Reader
    case Linearize(_, _) => Reader
    case UpdateUnlock(_, _, _) => Reader
    case UpgradeWait => Upgrader
    case WriteHeld => Writer
    case CutRead => Writer
    case CutWrite(_) => Writer
    case CutUnlock(_, _) => Writer
    case _ => Outside
  }

  /** The thread holds the read lock, not merely waits for it. */
  predicate ReadHeld(pc: Pc) {
    KindOf(pc) == Reader && !pc.ClientSpin? && !pc.UpdateSpin?
  }

  function Of(th: seq<Pc>, k: Kind): set<nat> {
    set t: nat | t < |th| && KindOf(th[t]) == k
  }

  ghost predicate LockOk(s: State) {
    && s.lock == 4 * |Of(s.th, Reader)| + 2 * |Of(s.th, Upgrader)| + |Of(s.th, Writer)|
    && |Of(s.th, Upgrader)| + |Of(s.th, Writer)| <= 1
    && (forall t: nat | t < |s.th| && ReadHeld(s.th[t]) :: |Of(s.th, Writer)| == 0)
  }

  /** Cuts and updates are stamped in the order in which they happen. */
  ghost predicate Ordered(events: seq<Event>) {
    forall i, j | 0 <= i < j < |events| :: InOrder(events[i], events[j])
  }

  predicate InOrder(a: Event, b: Event) {
    match (a, b)
    case (Update(ts), Cut(l)) => ts < l
    case (Cut(l), Update(ts)) => l <= ts
    case (Cut(l), Cut(l')) => l < l'
    case (Update(ts), Update(ts')) => ts <= ts'
  }

  function StampOf(e: Event): nat {
    match e
    case Update(ts) => ts
    case Cut(l) => l
  }

  ghost predicate EventsOk(s: State) {
    && s.time >= 1 && Ordered(s.events)
    && forall i: nat | i < |s.events| :: 1 <= StampOf(s.events[i]) <= s.time
  }

  ghost predicate StampedBy(s: State, at: nat, ts: nat) {
    0 < at <= |s.events| && s.events[at - 1] == Update(ts)
  }

  ghost predicate NodeOk(s: State, n: nat)
    requires n < |s.nodes|
  {
    var x := s.nodes[n];
    && x.insAt <= |s.events| && x.delAt <= |s.events|
    && (x.itime != NOT_SET ==> StampedBy(s, x.insAt, x.itime))
    && (x.dtime != NOT_SET ==> StampedBy(s, x.delAt, x.dtime))
    && (x.insAt > 0 ==> s.events[x.insAt - 1].Update?)
    && (x.delAt > 0 ==> s.events[x.delAt - 1].Update?)
  }

  /** The update of a thread that has taken effect. */
  ghost predicate JobOk(s: State, job: Job, ts: nat) {
    && ts >= 1
    && (forall n | n in job.ins :: n < |s.nodes| && StampedBy(s, s.nodes[n].insAt, ts))
    && (forall n | n in job.del :: n < |s.nodes| && StampedBy(s, s.nodes[n].delAt, ts))
  }

  ghost predicate CutOk(s: State, lin: nat, cut: nat) {
    cut < |s.events| && s.events[cut] == Cut(lin)
  }

  /** The node has been found to be inserted before the cut. */
  ghost predicate Before(s: State, v: Visit) {
    v.n < |s.nodes| && s.nodes[v.n].itime != NOT_SET && s.nodes[v.n].itime < v.lin
  }

  ghost predicate VisitOk(s: State, v: Visit) {
    && CutOk(s, v.lin, v.cut) && v.n < |s.nodes|
    && (v.found && !s.logical ==> LinkedAfter(s, v.n, v.cut))
    && (v.known ==> s.nodes[v.n].dtime != NOT_SET)
  }

  ghost predicate PcOk(s: State, pc: Pc) {
    match pc
    case UpgradeCas(expval) => !IsUpgrading(expval)
    case Linearize(_, ts) => ts == s.time
    case UpdateUnlock(job, ts, done) => done ==> JobOk(s, job, ts)
    case SetIns(job, ts, _) => JobOk(s, job, ts)
    case SetDel(job, ts, _) => JobOk(s, job, ts)
    case CutWrite(now) => now == s.time
    case CutUnlock(lin, cut) => CutOk(s, lin, cut)
    case Query(lin, cut) => CutOk(s, lin, cut)
    case Visiting(v, stage) =>
      && VisitOk(s, v)
      && (match stage
          case Itime => true
          case ItimeAgain => s.nodes[v.n].itime != NOT_SET
          case Mark => Before(s, v)
          case Dtime(deleted) => Before(s, v) && (s.logical && !deleted ==> LinkedAfter(s, v.n, v.cut))
          case _ => Before(s, v))
    case Verdict(v, accepted, unknown) =>
      && VisitOk(s, v) && s.nodes[v.n].itime != NOT_SET
      && (accepted ==> Before(s, v) && LinkedAfter(s, v.n, v.cut) && !unknown)
      && (!accepted && !unknown ==> !Before(s, v) || (s.nodes[v.n].dtime != NOT_SET && s.nodes[v.n].dtime < v.lin))
      && (unknown ==> !v.known)
    case _ => true
  }

  ghost predicate Inv(s: State) {
    && LockOk(s) && EventsOk(s)
    && (forall n: nat | n < |s.nodes| :: NodeOk(s, n))
    && (forall t: nat | t < |s.th| :: PcOk(s, s.th[t]))
  }

  /* --------------------------------------------------------------- the lock */

  lemma OneApart(a: set<nat>, b: set<nat>, t: nat)
    requires a - {t} == b - {t}
    ensures |b| == |a| + (if t in b then 1 else 0) - (if t in a then 1 else 0)
  {
    assert t in a ==> a == (a - {t}) + {t};
    assert t in b ==> b == (b - {t}) + {t};
    assert t !in a ==> a == a - {t};
    assert t !in b ==> b == b - {t};
  }

  lemma KindChange(th: seq<Pc>, t: nat, pc: Pc, k: Kind)
    requires t < |th|
    ensures |Of(th[t := pc], k)|
            == |Of(th, k)| + (if KindOf(pc) == k then 1 else 0) - (if KindOf(th[t]) == k then 1 else 0)
  {
    hide KindOf;
    OneApart(Of(th, k), Of(th[t := pc], k), t);
  }

  lemma KindCounts(th: seq<Pc>, t: nat, k: Kind)
    requires t < |th| && KindOf(th[t]) == k
    ensures |Of(th, k)| >= 1
  {
    assert t in Of(th, k);
  }

  lemma KindAlone(th: seq<Pc>, t: nat, u: nat, k: Kind)
    requires t < |th| && u < |th| && KindOf(th[t]) == k && KindOf(th[u]) == k && t != u
    ensures |Of(th, k)| >= 2
  {
    assert {t, u} <= Of(th, k);
    assert |{t, u}| == 2;
    SubsetSize({t, u}, Of(th, k));
  }

  lemma AllKinds(th: seq<Pc>, t: nat, pc: Pc)
    requires t < |th|
    ensures forall k ::
              |Of(th[t := pc], k)|
              == |Of(th, k)| + (if KindOf(pc) == k then 1 else 0) - (if KindOf(th[t]) == k then 1 else 0)
    ensures |Of(th, KindOf(th[t]))| >= 1
  {
    forall k
      ensures |Of(th[t := pc], k)|
              == |Of(th, k)| + (if KindOf(pc) == k then 1 else 0) - (if KindOf(th[t]) == k then 1 else 0)
    {
      KindChange(th, t, pc, k);
    }
    KindCounts(th, t, KindOf(th[t]));
  }

  function Weight(k: Kind): nat {
    match k
    case Outside => 0
    case Reader => 4
    case Upgrader => 2
    case Writer => 1
  }

  /** Every legal move of one thread keeps the word exact and the writer alone. */
  lemma LockKept(s: State, t: nat, s': State)
    requires LockOk(s) && t < |s.th| == |s'.th| && s'.th == s.th[t := s'.th[t]]
    requires s'.lock == s.lock + Weight(KindOf(s'.th[t])) - Weight(KindOf(s.th[t]))
    requires KindOf(s'.th[t]) == Writer && KindOf(s.th[t]) != Writer
             ==> s.lock == (if KindOf(s.th[t]) == Upgrader then 2 else 0)
    requires KindOf(s'.th[t]) == Upgrader && KindOf(s.th[t]) != Upgrader ==> ReadHeld(s.th[t]) && !IsUpgrading(s.lock)
    requires ReadHeld(s'.th[t]) ==> ReadHeld(s.th[t]) || (KindOf(s.th[t]) == Reader && !IsWriteLocked(s.lock))
    ensures LockOk(s')
  {
    AllKinds(s.th, t, s'.th[t]);
    WordBits(|Of(s.th, Reader)|, |Of(s.th, Upgrader)|, |Of(s.th, Writer)|);
    forall u: nat | u < |s'.th| && u != t && ReadHeld(s'.th[u])
      ensures |Of(s.th, Reader)| >= 1 && |Of(s.th, Writer)| == 0 {
      KindCounts(s.th, u, Reader);
    }
    hide Of;
  }

  lemma WordBits(r: nat, u: nat, w: nat)
    requires u + w <= 1
    ensures IsWriteLocked(4 * r + 2 * u + w) <==> w == 1
    ensures IsUpgrading(4 * r + 2 * u + w) <==> u == 1
  {
  }

  /** The word is at least the weight of any thread in it. */
  lemma LockAtLeast(s: State, t: nat)
    requires LockOk(s) && t < |s.th|
    ensures s.lock >= Weight(KindOf(s.th[t]))
  {
    KindCounts(s.th, t, KindOf(s.th[t]));
    hide Of;
  }

  lemma WriterAlone(s: State, t: nat, u: nat)
    requires LockOk(s) && t < |s.th| && u < |s.th| && t != u && KindOf(s.th[t]) == Writer
    ensures KindOf(s.th[u]) != Writer && KindOf(s.th[u]) != Upgrader && !ReadHeld(s.th[u])
  {
    KindCounts(s.th, t, Writer);
    if KindOf(s.th[u]) == Writer {
      KindAlone(s.th, t, u, Writer);
    }
    if KindOf(s.th[u]) == Upgrader {
      KindCounts(s.th, u, Upgrader);
    }
  }

  /* ------------------------------------------------------------------ steps */

  /** Only thread t moves; the rest of the state is as before but for the lock. */
  lemma OnlyMoves(s: State, t: nat, s': State)
    requires Inv(s) && t < |s.th| == |s'.th| && s' == s.(th := s.th[t := s'.th[t]], lock := s'.lock)
    requires LockOk(s') && PcOk(s', s'.th[t])
    ensures Inv(s')
  {
    hide LockOk;
    forall n: nat | n < |s'.nodes| ensures NodeOk(s', n) {
      assert NodeOk(s, n);
    }
    forall u: nat | u < |s'.th| ensures PcOk(s', s'.th[u]) {
      if u != t {
        assert PcOk(s, s.th[u]);
        SamePcOk(s, s', s.th[u]);
      }
    }
  }

  lemma SamePcOk(s: State, s': State, pc: Pc)
    requires PcOk(s, pc) && s'.time == s.time && s'.nodes == s.nodes && s'.events == s.events && s'.logical == s.logical
    ensures PcOk(s', pc)
  {
  }

  ghost predicate WordStep(s: State, t: nat, s': State) {
    || ReadLockSpin(s, t, s') || ClientUnlock(s, t, s') || UpgradeReadStep(s, t, s') || UpgradeCasStep(s, t, s')
    || UpgradeWaitStep(s, t, s')
  }

  lemma UpgradeOk(s: State, t: nat, s': State)
    requires Inv(s) && (UpgradeReadStep(s, t, s') || UpgradeCasStep(s, t, s') || UpgradeWaitStep(s, t, s'))
    ensures Inv(s')
  {
    hide LinkedAfter, NodeOk, EventsOk;
    if s' != s {
      assert PcOk(s, s.th[t]);
      LockAtLeast(s, t);
      hide LockOk;
      LockKept(s, t, s');
      OnlyMoves(s, t, s');
    }
  }

  lemma WordStepOk(s: State, t: nat, s': State)
    requires Inv(s) && WordStep(s, t, s')
    ensures Inv(s')
  {
    hide LinkedAfter, NodeOk, EventsOk;
    if UpgradeReadStep(s, t, s') || UpgradeCasStep(s, t, s') || UpgradeWaitStep(s, t, s') {
      UpgradeOk(s, t, s');
    } else if s' != s {
      assert PcOk(s, s.th[t]);
      LockAtLeast(s, t);
      hide LockOk;
      LockKept(s, t, s');
      OnlyMoves(s, t, s');
    }
  }

  ghost predicate CutLockSteps(s: State, t: nat, s': State) {
    UpdateUnlockStep(s, t, s') || CutLockStep(s, t, s') || CutUnlockStep(s, t, s')
  }

  lemma CutLockOk(s: State, t: nat, s': State)
    requires Inv(s) && CutLockSteps(s, t, s')
    ensures Inv(s')
  {
    hide Of, NodeOk, EventsOk;
    if s' != s {
      assert PcOk(s, s.th[t]);
      LockAtLeast(s, t);
      hide LockOk;
      LockKept(s, t, s');
      SamePcOk(s, s', s.th[t]);
      OnlyMoves(s, t, s');
    }
  }

  lemma QuietOk(s: State, t: nat, s': State)
    requires Inv(s) && (ReadStampStep(s, t, s') || QueryStart(s, t, s') || CutReadStep(s, t, s') || VisitEnd(s, t, s'))
    ensures Inv(s')
  {
    hide NodeOk, EventsOk, LockOk;
    assert PcOk(s, s.th[t]);
    LockKept(s, t, s');
    SamePcOk(s, s', s.th[t]);
    OnlyMoves(s, t, s');
  }

  lemma LockStepOk(s: State, t: nat, s': State)
    requires Inv(s) && LockStep(s, t, s')
    ensures Inv(s')
  {
    hide Inv;
    if WordStep(s, t, s') {
      WordStepOk(s, t, s');
    } else if CutLockSteps(s, t, s') {
      CutLockOk(s, t, s');
    } else {
      QuietOk(s, t, s');
    }
  }

  lemma ReadLockAddOk(s: State, t: nat, pc: Pc, s': State)
    requires Inv(s) && ReadLockAdd(s, t, pc, s')
    ensures Inv(s')
  {
    hide NodeOk, EventsOk;
    LockKept(s, t, s');
    OnlyMoves(s, t, s');
  }

  lemma VisitBeginOk(s: State, t: nat, n: nat, found: bool, source: bool, s': State)
    requires Inv(s) && VisitBegin(s, t, n, found, source, s')
    ensures Inv(s')
  {
    hide NodeOk, EventsOk;
    assert PcOk(s, s.th[t]);
    LockKept(s, t, s');
    OnlyMoves(s, t, s');
  }

  /** An event before the cut has a stamp below it, one after it has not. */
  lemma StampAndCut(s: State, at: nat, ts: nat, lin: nat, cut: nat)
    requires EventsOk(s) && StampedBy(s, at, ts) && CutOk(s, lin, cut)
    ensures ts < lin <==> at - 1 < cut
  {
    if at - 1 < cut {
      assert InOrder(s.events[at - 1], s.events[cut]);
    } else {
      assert at - 1 != cut;
      assert InOrder(s.events[cut], s.events[at - 1]);
    }
  }

  lemma CompareOk(s: State, v: Visit)
    requires EventsOk(s) && VisitOk(s, v) && Before(s, v) && NodeOk(s, v.n) && s.nodes[v.n].dtime != NOT_SET
    ensures PcOk(s, Compare(v, s.nodes[v.n].dtime))
  {
    var x := s.nodes[v.n];
    StampAndCut(s, x.delAt, x.dtime, v.lin, v.cut);
  }

  /** Without a deletion event before the cut there is no dtime below it. */
  lemma LinkedStamp(s: State, v: Visit)
    requires EventsOk(s) && VisitOk(s, v) && NodeOk(s, v.n)
    ensures LinkedAfter(s, v.n, v.cut) && s.nodes[v.n].dtime != NOT_SET ==> s.nodes[v.n].dtime >= v.lin
  {
    var x := s.nodes[v.n];
    if x.dtime != NOT_SET {
      StampAndCut(s, x.delAt, x.dtime, v.lin, v.cut);
    }
  }

  lemma VisitStepOk(s: State, t: nat, announced: bool, s': State)
    requires Inv(s) && VisitStep(s, t, announced, s')
    ensures Inv(s')
  {
    hide LockOk, NodeOk;
    assert PcOk(s, s.th[t]);
    var v := s.th[t].v;
    assert NodeOk(s, v.n);
    if s.nodes[v.n].dtime != NOT_SET && Before(s, v) {
      CompareOk(s, v);
    }
    VisitPcOk(s, v, s.th[t].stage, s'.th[t], announced);
    SamePcOk(s, s', s'.th[t]);
    LockKept(s, t, s');
    OnlyMoves(s, t, s');
  }

  lemma VisitPcOk(s: State, v: Visit, stage: Stage, pc: Pc, announced: bool)
    requires PcOk(s, Visiting(v, stage)) && NodeOk(s, v.n) && EventsOk(s)
    requires s.nodes[v.n].dtime != NOT_SET && Before(s, v) ==> PcOk(s, Compare(v, s.nodes[v.n].dtime))
    requires var x := s.nodes[v.n];
             pc == match stage
                   case Itime => Visiting(v, if x.itime == NOT_SET then Itime else ItimeAgain)
                   case ItimeAgain => AfterItime(s.logical, v, x.itime)
                   case Mark => Visiting(v, Dtime(x.delAt > 0))
                   case Dtime(deleted) => AfterDtime(s.logical, v, deleted, x.dtime)
                   case Spin => if x.dtime == NOT_SET then Visiting(v, Spin) else Compare(v, x.dtime)
                   case LoopCheck => Visiting(v, if announced then LoopRead else LastRead)
                   case LoopRead => if x.dtime == NOT_SET then Visiting(v, LoopCheck) else Compare(v, x.dtime)
                   case LastRead => if x.dtime == NOT_SET then Verdict(v, false, true) else Compare(v, x.dtime)
    ensures PcOk(s, pc)
  {
    hide EventsOk;
  }

  /* --------------------------------------------- steps that change the record */

  /** Stamps and events grow; what is set stays. */
  ghost predicate Grows(s: State, s': State) {
    && s'.logical == s.logical && |s'.nodes| == |s.nodes|
    && |s.events| <= |s'.events| && s.events == s'.events[..|s.events|]
    && forall n: nat | n < |s.nodes| :: NodeGrows(s, s.nodes[n], s'.nodes[n])
  }

  ghost predicate NodeGrows(s: State, x: Node, x': Node) {
    && (x.itime != NOT_SET ==> x'.itime == x.itime) && (x.dtime != NOT_SET ==> x'.dtime == x.dtime)
    && (x.insAt > 0 ==> x'.insAt == x.insAt) && (x.delAt > 0 ==> x'.delAt == x.delAt)
    && (x.delAt == 0 && x'.delAt > 0 ==> x'.delAt > |s.events|)
  }

  lemma PcGrows(s: State, s': State, pc: Pc)
    requires PcOk(s, pc) && Grows(s, s') && EventsOk(s') && (forall n: nat | n < |s'.nodes| :: NodeOk(s', n))
    requires pc.Linearize? || pc.CutWrite? ==> s'.time == s.time
    ensures PcOk(s', pc)
  {
    match pc
    case UpdateUnlock(job, ts, done) => if done { JobGrows(s, s', job, ts); }
    case SetIns(job, ts, _) => JobGrows(s, s', job, ts);
    case SetDel(job, ts, _) => JobGrows(s, s', job, ts);
    case CutUnlock(lin, cut) => CutGrows(s, s', lin, cut);
    case Query(lin, cut) => CutGrows(s, s', lin, cut);
    case Visiting(v, stage) => VisitGrows(s, s', v);
    case Verdict(v, accepted, unknown) => VisitGrows(s, s', v);
    case _ =>
  }

  lemma CutGrows(s: State, s': State, lin: nat, cut: nat)
    requires Grows(s, s') && CutOk(s, lin, cut)
    ensures CutOk(s', lin, cut)
  {
    assert s'.events[cut] == s'.events[..|s.events|][cut];
  }

  lemma VisitGrows(s: State, s': State, v: Visit)
    requires Grows(s, s') && VisitOk(s, v)
    ensures VisitOk(s', v) && (Before(s, v) ==> Before(s', v))
    ensures LinkedAfter(s, v.n, v.cut) ==> LinkedAfter(s', v.n, v.cut)
    ensures s.nodes[v.n].itime != NOT_SET ==> s'.nodes[v.n].itime == s.nodes[v.n].itime
    ensures s.nodes[v.n].dtime != NOT_SET ==> s'.nodes[v.n].dtime == s.nodes[v.n].dtime
  {
    CutGrows(s, s', v.lin, v.cut);
    assert NodeGrows(s, s.nodes[v.n], s'.nodes[v.n]);
  }

  lemma JobGrows(s: State, s': State, job: Job, ts: nat)
    requires Grows(s, s') && JobOk(s, job, ts)
    ensures JobOk(s', job, ts)
  {
    forall n | n in job.ins ensures n < |s'.nodes| && StampedBy(s', s'.nodes[n].insAt, ts) {
      assert NodeGrows(s, s.nodes[n], s'.nodes[n]);
      assert s'.events[..|s.events|][s.nodes[n].insAt - 1] == Update(ts);
    }
    forall n | n in job.del ensures n < |s'.nodes| && StampedBy(s', s'.nodes[n].delAt, ts) {
      assert NodeGrows(s, s.nodes[n], s'.nodes[n]);
      assert s'.events[..|s.events|][s.nodes[n].delAt - 1] == Update(ts);
    }
  }

  lemma GrowingStep(s: State, t: nat, s': State)
    requires Inv(s) && Grows(s, s') && t < |s.th| == |s'.th| && s'.th == s.th[t := s'.th[t]]
    requires LockOk(s') && EventsOk(s') && (forall n: nat | n < |s'.nodes| :: NodeOk(s', n))
    requires PcOk(s', s'.th[t])
    requires forall u: nat | u < |s.th| && u != t && (s.th[u].Linearize? || s.th[u].CutWrite?) :: s'.time == s.time
    ensures Inv(s')
  {
    hide LockOk, EventsOk, Grows, NodeOk;
    forall u: nat | u < |s'.th| ensures PcOk(s', s'.th[u]) {
      if u != t {
        assert PcOk(s, s.th[u]);
        PcGrows(s, s', s.th[u]);
      }
    }
  }

  lemma AppendOrdered(s: State, e: Event)
    requires EventsOk(s) && StampOf(e) >= s.time && (e.Cut? ==> StampOf(e) > s.time)
    ensures Ordered(s.events + [e])
  {
    var es := s.events + [e];
    forall i, j | 0 <= i < j < |es| ensures InOrder(es[i], es[j]) {
      if j < |s.events| {
        assert InOrder(s.events[i], s.events[j]);
      } else {
        assert StampOf(s.events[i]) <= s.time;
      }
    }
  }

  lemma CutWriteOk(s: State, t: nat, s': State)
    requires Inv(s) && CutWriteStep(s, t, s')
    ensures Inv(s')
  {
    hide Of;
    assert PcOk(s, s.th[t]);
    LockKept(s, t, s');
    AppendOrdered(s, Cut(s.time + 1));
    forall n: nat | n < |s'.nodes| ensures NodeOk(s', n) {
      assert NodeOk(s, n);
    }
    forall u: nat | u < |s.th| && u != t ensures !s.th[u].Linearize? && !s.th[u].CutWrite? {
      WriterAlone(s, t, u);
    }
    assert s'.events[..|s.events|] == s.events;
    hide LockOk;
    GrowingStep(s, t, s');
  }

  lemma LinearizeNode(s: State, t: nat, s': State, n: nat)
    requires Inv(s) && LinearizeStep(s, t, true, s') && n < |s.nodes|
    ensures NodeOk(s', n) && NodeGrows(s, s.nodes[n], s'.nodes[n])
  {
    hide LockOk, EventsOk, PcOk, Applied, DistinctNodes;
    assert NodeOk(s, n);
    assert s'.nodes[n] == AppliedNode(s.nodes[n], n, s.th[t].job, |s.events| + 1);
  }

  lemma LinearizeNodes(s: State, t: nat, s': State)
    requires Inv(s) && LinearizeStep(s, t, true, s')
    ensures Grows(s, s') && forall n: nat | n < |s'.nodes| :: NodeOk(s', n)
    ensures JobOk(s', s.th[t].job, s.th[t].ts)
  {
    hide LockOk, NodeOk, NodeGrows, DistinctNodes;
    assert PcOk(s, s.th[t]);
    assert s'.events[..|s.events|] == s.events;
    forall n: nat | n < |s'.nodes| ensures NodeOk(s', n) && NodeGrows(s, s.nodes[n], s'.nodes[n]) {
      LinearizeNode(s, t, s', n);
    }
  }

  lemma LinearizeOk(s: State, t: nat, done: bool, s': State)
    requires Inv(s) && LinearizeStep(s, t, done, s')
    ensures Inv(s')
  {
    assert PcOk(s, s.th[t]);
    LockKept(s, t, s');
    if done {
      LinearizeNodes(s, t, s');
      AppendOrdered(s, Update(s.th[t].ts));
      hide LockOk, NodeOk;
      GrowingStep(s, t, s');
    } else {
      OnlyMoves(s, t, s');
    }
  }

  lemma StampInsNode(s: State, t: nat, s': State, n: nat)
    requires Inv(s) && SetInsStep(s, t, s') && n < |s.nodes| == |s'.nodes|
    ensures NodeOk(s', n) && NodeGrows(s, s.nodes[n], s'.nodes[n])
  {
    hide LockOk, EventsOk;
    assert PcOk(s, s.th[t]);
    assert NodeOk(s, n);
  }

  lemma StampDelNode(s: State, t: nat, s': State, n: nat)
    requires Inv(s) && SetDelStep(s, t, s') && n < |s.nodes| == |s'.nodes|
    ensures NodeOk(s', n) && NodeGrows(s, s.nodes[n], s'.nodes[n])
  {
    hide LockOk, EventsOk;
    assert PcOk(s, s.th[t]);
    assert NodeOk(s, n);
  }

  lemma StampNodes(s: State, t: nat, s': State)
    requires Inv(s) && (SetInsStep(s, t, s') || SetDelStep(s, t, s'))
    ensures Grows(s, s') && EventsOk(s') && forall n: nat | n < |s'.nodes| :: NodeOk(s', n)
  {
    hide LockOk, NodeOk, NodeGrows, PcOk;
    forall n: nat | n < |s'.nodes| ensures NodeOk(s', n) && NodeGrows(s, s.nodes[n], s'.nodes[n]) {
      if SetInsStep(s, t, s') {
        StampInsNode(s, t, s', n);
      } else {
        StampDelNode(s, t, s', n);
      }
    }
  }

  lemma StampOk(s: State, t: nat, s': State)
    requires Inv(s) && (SetInsStep(s, t, s') || SetDelStep(s, t, s'))
    ensures Inv(s')
  {
    hide NodeOk, EventsOk, Grows;
    assert PcOk(s, s.th[t]);
    LockKept(s, t, s');
    hide LockOk;
    StampNodes(s, t, s');
    JobGrows(s, s', s.th[t].job, s.th[t].ts);
    GrowingStep(s, t, s');
  }

  /* ------------------------------------------------------------------ runs */

  lemma InitOk(s: State)
    requires Init(s)
    ensures Inv(s)
  {
    assert Of(s.th, Reader) == {} && Of(s.th, Upgrader) == {} && Of(s.th, Writer) == {};
  }

  lemma NextOk(s: State, s': State)
    requires Inv(s) && Next(s, s')
    ensures Inv(s')
  {
    hide Inv, LockStep, LinearizeStep, VisitStep, VisitBegin, SetInsStep, SetDelStep, CutWriteStep;
    if t: nat :| ThreadStep(s, t, s') {
      if LockStep(s, t, s') { LockStepOk(s, t, s'); }
      else if CutWriteStep(s, t, s') { CutWriteOk(s, t, s'); }
      else { StampOk(s, t, s'); }
    } else if t: nat, pc: Pc :| ReadLockAdd(s, t, pc, s') {
      ReadLockAddOk(s, t, pc, s');
    } else if t: nat, done: bool :| LinearizeStep(s, t, done, s') {
      LinearizeOk(s, t, done, s');
    } else if t: nat, announced: bool :| VisitStep(s, t, announced, s') {
      VisitStepOk(s, t, announced, s');
    } else {
      var t: nat, n: nat, found: bool, source: bool :| VisitBegin(s, t, n, found, source, s');
      VisitBeginOk(s, t, n, found, source, s');
    }
  }

  lemma {:induction false} RunOk(run: seq<State>, i: nat)
    requires Run(run) && i < |run|
    ensures Inv(run[i])
  {
    hide Inv, Next, Init;
    if i == 0 {
      InitOk(run[0]);
    } else {
      RunOk(run, i - 1);
      assert StepAt(run, i - 1);
      NextOk(run[i - 1], run[i]);
    }
  }

  /* --------------------------------------------------------------- theorems */

  /** A writer, however it got the lock, holds it alone. */
  lemma Exclusion(run: seq<State>, i: nat, t: nat, u: nat)
    requires Run(run) && i < |run| && t < |run[i].th| && u < |run[i].th| && t != u
    requires KindOf(run[i].th[t]) == Writer
    ensures KindOf(run[i].th[u]) != Writer && !ReadHeld(run[i].th[u])
  {
    RunOk(run, i);
    WriterAlone(run[i], t, u);
  }

  /** At most one thread is upgrading, and none while there is a writer. */
  lemma OneUpgrader(run: seq<State>, i: nat, t: nat, u: nat)
    requires Run(run) && i < |run| && t < |run[i].th| && u < |run[i].th| && t != u
    requires KindOf(run[i].th[t]) == Upgrader
    ensures KindOf(run[i].th[u]) != Upgrader && KindOf(run[i].th[u]) != Writer
  {
    RunOk(run, i);
    KindCounts(run[i].th, t, Upgrader);
    if KindOf(run[i].th[u]) == Upgrader {
      KindAlone(run[i].th, t, u, Upgrader);
    }
    if KindOf(run[i].th[u]) == Writer {
      KindCounts(run[i].th, u, Writer);
    }
  }

  /** The lock word is zero exactly when nobody holds it, upgrades it or waits as a reader. */
  lemma WordIsExact(run: seq<State>, i: nat)
    requires Run(run) && i < |run|
    ensures run[i].lock == 0 <==> forall t: nat | t < |run[i].th| :: KindOf(run[i].th[t]) == Outside
  {
    RunOk(run, i);
    var s := run[i];
    forall t: nat | t < |s.th| && s.lock == 0 ensures KindOf(s.th[t]) == Outside {
      LockAtLeast(s, t);
    }
    if forall t: nat | t < |s.th| :: KindOf(s.th[t]) == Outside {
      assert Of(s.th, Reader) == {} && Of(s.th, Upgrader) == {} && Of(s.th, Writer) == {};
    }
  }

  /** The write of an update comes before the increment of a query exactly if its stamp is
      below the linearization time of the query. */
  lemma StampsCutTheUpdates(run: seq<State>, i: nat, j: nat, k: nat)
    requires Run(run) && i < |run| && j < |run[i].events| && k < |run[i].events|
    requires run[i].events[j].Update? && run[i].events[k].Cut?
    ensures j < k <==> run[i].events[j].ts < run[i].events[k].lin
  {
    RunOk(run, i);
    StampAndCut(run[i], j + 1, run[i].events[j].ts, run[i].events[k].lin, k);
  }

  /** A stamp in a node is the stamp of the event that inserted or deleted it. */
  lemma StampsAreTrue(run: seq<State>, i: nat, n: nat)
    requires Run(run) && i < |run| && n < |run[i].nodes|
    ensures run[i].nodes[n].itime != NOT_SET ==> StampedBy(run[i], run[i].nodes[n].insAt, run[i].nodes[n].itime)
    ensures run[i].nodes[n].dtime != NOT_SET ==> StampedBy(run[i], run[i].nodes[n].delAt, run[i].nodes[n].dtime)
  {
    RunOk(run, i);
    assert NodeOk(run[i], n);
  }

  /** An accepted node was inserted before the cut and not deleted before it; a rejected one
      was inserted after the cut or deleted before it, unless its announcement went away
      while its dtime was unknown. */
  lemma VerdictIsRight(run: seq<State>, i: nat, t: nat)
    requires Run(run) && i < |run| && t < |run[i].th| && run[i].th[t].Verdict?
    ensures var pc := run[i].th[t]; var v := pc.v;
            && v.n < |run[i].nodes|
            && var x := run[i].nodes[v.n];
            && x.insAt > 0
            && (pc.accepted ==> x.insAt - 1 < v.cut && LinkedAfter(run[i], v.n, v.cut))
            && (!pc.accepted && !pc.unknown ==> x.insAt - 1 > v.cut || !LinkedAfter(run[i], v.n, v.cut))
  {
    RunOk(run, i);
    var s := run[i];
    assert PcOk(s, s.th[t]);
    var v := s.th[t].v;
    var x := s.nodes[v.n];
    assert NodeOk(s, v.n);
    StampAndCut(s, x.insAt, x.itime, v.lin, v.cut);
    if x.dtime != NOT_SET {
      StampAndCut(s, x.delAt, x.dtime, v.lin, v.cut);
    }
  }

  /** An offered node whose dtime was set when the visit began passes exactly if
      itime < rq_lin_time <= dtime. */
  lemma StampedNodePasses(run: seq<State>, i: nat, t: nat)
    requires Run(run) && i < |run| && t < |run[i].th| && run[i].th[t].Verdict? && run[i].th[t].v.known
    ensures var pc := run[i].th[t]; var v := pc.v;
            && v.n < |run[i].nodes|
            && var x := run[i].nodes[v.n];
            && x.itime != NOT_SET && x.dtime != NOT_SET && (pc.accepted <==> x.itime < v.lin <= x.dtime)
  {
    RunOk(run, i);
    var s := run[i];
    assert PcOk(s, s.th[t]);
    assert NodeOk(s, s.th[t].v.n);
    LinkedStamp(s, s.th[t].v);
  }
}
