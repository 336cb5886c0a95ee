/** DEBRA: epoch based reclamation with one incremental scan per thread, as a transition
    system with one access to shared memory per step.  Each thread has three limbo bags. */
module DebraModel {

  import opened Limbo

  const INCREMENT := 2

  predicate Quiescent(ann: nat) {
    ann % 2 == 1
  }

  function EpochBits(ann: nat): nat {
    ann - ann % 2
  }

  function WithQuiescent(ann: nat): nat {
    EpochBits(ann) + 1
  }

  datatype Pc =
    | Outside                // between operations
    | Rotate(e: nat)         // the epoch read differs from the last one
    | Announce(e: nat)
    | Scan(e: nat)
    | Advance(e: nat)
    | Inside                 // the body of the operation

  /** ann is shared; annAt and opNum are ghost: the global epoch at the last announcement,
      and how many operations were announced. */
  datatype Data = Data(ann: nat, local: nat, index: nat, checked: nat, ops: nat, pc: Pc, annAt: nat, opNum: nat)

  /** Ghost record of a retired object: the global epoch at its retirement, and for each
      thread the operation it was running then, or 0. */
  datatype Ret = Ret(epoch: nat, running: seq<nat>)

  datatype State = State(epoch: nat, td: seq<Data>, store: Store, rec: map<nat, Ret>, minOps: nat, block: nat)

  /** The thread is in an operation, from its announcement on. */
  predicate Running(d: Data) {
    d.pc.Scan? || d.pc.Advance? || d.pc.Inside?
  }

  /** The number of the operation the thread is running, or 0. */
  function Operation(d: Data): nat {
    if Running(d) then d.opNum else 0
  }

  ghost predicate Init(s: State) {
    && s.epoch == 0 && s.rec == map[] && s.minOps > 0 && |s.td| > 0
    && s.store.place == map[] && |s.store.bags| == |s.td|
    && forall t | 0 <= t < |s.td| ::
         && s.td[t] == Data(WithQuiescent(0), WithQuiescent(0), 0, 0, 0, Outside, 0, 0)
         && s.store.bags[t] == [EMPTY, EMPTY, EMPTY]
  }

  function Set(s: State, t: nat, d: Data): State
    requires t < |s.td|
  {
    s.(td := s.td[t := d])
  }

  /** `startOp`: the read of the epoch. */
  ghost predicate StartRead(s: State, t: nat, s': State) {
    && t < |s.td| && s.td[t].pc == Outside
    && var d := s.td[t];
    && s' == Set(s, t, if s.epoch != d.local then d.(local := s.epoch, checked := 0, pc := Rotate(s.epoch))
                       else d.(pc := Announce(s.epoch)))
  }

  /** `rotateEpochBags`: the full blocks of the oldest bag go to the pool. */
  ghost predicate RotateStep(s: State, t: nat, s': State) {
    && t < |s.td| && s.td[t].pc.Rotate?
    && var d := s.td[t];
    && var next := (d.index + 1) % EPOCH_BAGS;
    && Has(s.store, t, next)
    && s' == Set(s, t, d.(index := next, pc := Announce(d.pc.e)))
             .(store := FreeFull(s.store, t, next), rec := s.rec - Freed(s.store, t, next))
  }

  /** The store of the announcement.  Read-only operations do not count; every minOps others
      one thread is scanned. */
  ghost predicate AnnounceStep(s: State, t: nat, s': State) {
    && t < |s.td| && s.td[t].pc.Announce?
    && var d := s.td[t].(ann := s.td[t].pc.e, annAt := s.epoch, opNum := s.td[t].opNum + 1);
    && var scan := d.ops + 1 == s.minOps;
    && (|| s' == Set(s, t, d.(pc := Inside))
        || s' == Set(s, t, d.(ops := if scan then 0 else d.ops + 1, pc := if scan then Scan(d.pc.e) else Inside)))
  }

  /** The read of one other announcement. */
  ghost predicate ScanStep(s: State, t: nat, s': State) {
    && t < |s.td| && s.td[t].pc.Scan?
    && var d := s.td[t];
    && d.checked < |s.td|
    && var other := s.td[d.checked].ann;
    && s' == Set(s, t, if EpochBits(other) == d.pc.e || Quiescent(other)
                       then d.(checked := d.checked + 1,
                               pc := if d.checked + 1 >= |s.td| then Advance(d.pc.e) else Inside)
                       else d.(pc := Inside))
  }

  /** The CAS on the epoch. */
  ghost predicate AdvanceStep(s: State, t: nat, s': State) {
    && t < |s.td| && s.td[t].pc.Advance?
    && var d := s.td[t];
    && s' == Set(s, t, d.(pc := Inside)).(epoch := if s.epoch == d.pc.e then s.epoch + INCREMENT else s.epoch)
  }

  function Snapshot(s: State): Ret {
    Ret(s.epoch, seq(|s.td|, u requires 0 <= u < |s.td| => Operation(s.td[u])))
  }

  /** `retire` of an object that is neither in limbo nor in the pool. */
  ghost predicate RetireStep(s: State, t: nat, p: nat, s': State) {
    && t < |s.td| && s.td[t].pc == Inside && p !in s.store.place && p !in s.store.pool
    && Has(s.store, t, s.td[t].index)
    && s' == s.(store := Retire(s.store, t, s.td[t].index, s.block, p), rec := s.rec[p := Snapshot(s)])
  }

  /** An object leaves the pool to be used again. */
  ghost predicate Allocate(s: State, p: nat, s': State) {
    s' == s.(store := Reuse(s.store, p))
  }

  /** `endOp`. */
  ghost predicate EndStep(s: State, t: nat, s': State) {
    && t < |s.td| && s.td[t].pc == Inside
    && s' == Set(s, t, s.td[t].(ann := WithQuiescent(s.td[t].local), pc := Outside))
  }

  /** The steps of a thread that move no object. */
  ghost predicate EpochStep(s: State, t: nat, s': State) {
    StartRead(s, t, s') || AnnounceStep(s, t, s') || ScanStep(s, t, s') || AdvanceStep(s, t, s') || EndStep(s, t, s')
  }

  ghost predicate Next(s: State, s': State) {
    || (exists t: nat :: EpochStep(s, t, s'))
    || (exists t: nat :: RotateStep(s, t, s'))
    || (exists t: nat, p: nat :: RetireStep(s, t, p, s'))
    || (exists p: nat :: Allocate(s, p, s'))
  }

  ghost predicate StepAt(run: seq<State>, i: nat) {
    i + 1 < |run| && Next(run[i], run[i + 1])
  }

  /** A run: any finite interleaving from an initial state. */
  ghost predicate Run(run: seq<State>) {
    |run| > 0 && Init(run[0]) && forall i: nat | i + 1 < |run| :: StepAt(run, i)
  }
}

/** The grace period of DEBRA. */
module DebraSafety {

  import opened Limbo
  import opened DebraModel

  /* ------------------------------------------------------------- invariant */

  /** The scanner has seen thread u quiescent, or announced no earlier than its epoch. */
  ghost predicate Passed(d: Data, u: Data) {
    Running(u) ==> u.annAt >= d.local
  }

  ghost predicate EpochOk(s: State, d: Data) {
    && (d.local % 2 == 0 ==> d.local <= s.epoch)
    && (d.local % 2 == 1 ==> d.pc == Outside && d.opNum == 0 && d.checked == 0)
    && match d.pc
       case Outside => Quiescent(d.ann)
       case Rotate(e) => Quiescent(d.ann) && d.local == e && d.checked == 0
       case Announce(e) => Quiescent(d.ann) && d.local == e
       case Scan(e) => d.local == e
       case Advance(e) => d.local == e
       case Inside => true
  }

  ghost predicate DataOk(s: State, t: nat)
    requires t < |s.td|
  {
    var d := s.td[t];
    && EpochOk(s, d)
    && (Running(d)
        ==> d.ann == d.local && d.annAt >= d.local && d.opNum > 0 && d.annAt <= s.epoch <= d.annAt + INCREMENT)
    && d.checked <= |s.td|
    && (d.pc.Advance? ==> d.checked == |s.td|)
    && (d.pc.Announce? || d.pc.Scan? ==> d.checked < |s.td|)
    && (d.checked == |s.td| && !d.pc.Advance? ==> d.local % 2 == 0 && s.epoch != d.local)
    && (forall u: nat | u < |s.td| && u < d.checked :: Passed(d, s.td[u]))
    && d.ops < s.minOps && d.index < EPOCH_BAGS
    && |s.store.bags| == |s.td| && |s.store.bags[t]| == EPOCH_BAGS
  }

  /** An object retired at the given epoch may be in a bag of that age. */
  ghost predicate OldEnough(d: Data, bag: nat, epoch: nat) {
    && d.index < EPOCH_BAGS && bag < EPOCH_BAGS && d.local % 2 == 0
    && var a := Age(d.index, bag);
    && if d.pc.Rotate? then d.local >= epoch + INCREMENT * a
       else a >= 1 ==> d.local >= epoch + INCREMENT * (a - 1)
  }

  ghost predicate SameOperation(s: State, u: nat, n: nat) {
    u < |s.td| && n > 0 && Operation(s.td[u]) == n
  }

  /** The operations that ran at the retirement and still run were announced by then. */
  ghost predicate RetOk(s: State, r: Ret, w: Place) {
    && r.epoch <= s.epoch && r.epoch % 2 == 0 && |r.running| == |s.td|
    && (forall u: nat | u < |s.td| :: r.running[u] <= s.td[u].opNum)
    && (forall u: nat | u < |s.td| && SameOperation(s, u, r.running[u]) :: s.td[u].annAt <= r.epoch)
    && w.tid < |s.td| && OldEnough(s.td[w.tid], w.bag, r.epoch)
  }

  ghost predicate Inv(s: State) {
    && s.epoch % 2 == 0 && s.minOps > 0 && s.rec.Keys == s.store.place.Keys && StoreOk(s.store)
    && (forall t: nat | t < |s.td| :: DataOk(s, t))
    && (forall p | p in s.rec :: RetOk(s, s.rec[p], s.store.place[p]))
  }

  /* ------------------------------------------------------------------ steps */

  /** Running operations keep their announcement; new ones are announced at the present
      epoch; and no bag gets too old for its objects. */
  ghost predicate Moves(s: State, s': State) {
    && |s'.td| == |s.td| && s'.epoch >= s.epoch
    && (forall u: nat | u < |s.td| :: Moved(s, s', u))
  }

  ghost predicate Moved(s: State, s': State, u: nat)
    requires u < |s.td| == |s'.td|
  {
    var d, d' := s.td[u], s'.td[u];
    && d.opNum <= d'.opNum
    && (Running(d') ==> if Running(d) then d'.opNum == d.opNum && d'.annAt == d.annAt
                        else d'.opNum == d.opNum + 1 && d'.annAt == s.epoch)
  }

  lemma RetStay(s: State, s': State, r: Ret, w: Place)
    requires RetOk(s, r, w) && Moves(s, s')
    requires OldEnough(s'.td[w.tid], w.bag, r.epoch)
    ensures RetOk(s', r, w)
  {
    forall u: nat | u < |s'.td| ensures r.running[u] <= s'.td[u].opNum
                                     && (SameOperation(s', u, r.running[u]) ==> s'.td[u].annAt <= r.epoch) {
      assert Moved(s, s', u);
      assert SameOperation(s', u, r.running[u]) ==> SameOperation(s, u, r.running[u]);
    }
  }

  lemma DataStay(s: State, s': State, t: nat)
    requires t < |s.td| && DataOk(s, t) && Moves(s, s') && s'.td[t] == s.td[t] && s'.minOps == s.minOps
    requires |s'.store.bags| == |s.store.bags| && |s'.store.bags[t]| == |s.store.bags[t]|
    requires Running(s.td[t]) ==> s'.epoch <= s.td[t].annAt + INCREMENT
    ensures DataOk(s', t)
  {
    forall u: nat | u < |s'.td| && u < s'.td[t].checked ensures Passed(s'.td[t], s'.td[u]) {
      assert Passed(s.td[t], s.td[u]) && Moved(s, s', u);
    }
  }

  lemma EpochMoves(s: State, t: nat, s': State)
    requires Inv(s) && EpochStep(s, t, s')
    ensures Moves(s, s') && s'.epoch % 2 == 0
    ensures forall b: nat, e: nat | OldEnough(s.td[t], b, e) && e <= s.epoch && e % 2 == 0 :: OldEnough(s'.td[t], b, e)
  {
    hide RetOk, StoreOk;
    assert DataOk(s, t);
    forall u: nat | u < |s.td| ensures Moved(s, s', u) {
    }
  }

  /** Everybody was seen before the epoch advances, so it passes no announcement by more
      than one increment. */
  lemma EpochBound(s: State, t: nat, s': State, u: nat)
    requires Inv(s) && EpochStep(s, t, s') && u < |s.td| && Running(s.td[u])
    ensures s'.epoch <= s.td[u].annAt + INCREMENT
  {
    hide RetOk, StoreOk;
    assert DataOk(s, t) && DataOk(s, u);
    if AdvanceStep(s, t, s') {
      assert Passed(s.td[t], s.td[u]);
    }
  }

  lemma EpochPassed(s: State, t: nat, s': State, v: nat)
    requires Inv(s) && EpochStep(s, t, s') && Moves(s, s') && t < |s'.td| && v < |s'.td| && v < s'.td[t].checked
    ensures Passed(s'.td[t], s'.td[v])
  {
    hide RetOk, StoreOk;
    assert DataOk(s, t) && DataOk(s, v) && Moved(s, s', v);
    assert v < s.td[t].checked ==> Passed(s.td[t], s.td[v]);
  }

  lemma EpochActor(s: State, t: nat, s': State)
    requires Inv(s) && EpochStep(s, t, s') && Moves(s, s')
    ensures DataOk(s', t)
  {
    hide RetOk, StoreOk;
    assert DataOk(s, t);
    if Running(s.td[t]) {
      EpochBound(s, t, s', t);
    }
    hide Passed;
    forall v: nat | v < |s'.td| && v < s'.td[t].checked ensures Passed(s'.td[t], s'.td[v]) {
      EpochPassed(s, t, s', v);
    }
  }

  lemma EpochStepOk(s: State, t: nat, s': State)
    requires Inv(s) && EpochStep(s, t, s')
    ensures Inv(s')
  {
    hide StoreOk, EpochStep, OldEnough;
    assert s'.store == s.store && s'.rec == s.rec && s'.minOps == s.minOps by {
      StoreKept(s, t, s');
    }
    EpochMoves(s, t, s');
    forall u: nat | u < |s'.td| ensures DataOk(s', u) {
      if u == t {
        EpochActor(s, t, s');
      } else {
        assert DataOk(s, u);
        OthersKept(s, t, s', u);
        if Running(s.td[u]) {
          EpochBound(s, t, s', u);
        }
        DataStay(s, s', u);
      }
    }
    forall p | p in s'.rec ensures RetOk(s', s'.rec[p], s'.store.place[p]) {
      var r, w := s.rec[p], s.store.place[p];
      assert RetOk(s, r, w);
      if w.tid != t {
        OthersKept(s, t, s', w.tid);
      }
      RetStay(s, s', r, w);
    }
  }

  lemma StoreKept(s: State, t: nat, s': State)
    requires EpochStep(s, t, s')
    ensures s'.store == s.store && s'.rec == s.rec && s'.minOps == s.minOps
  {
  }

  lemma OthersKept(s: State, t: nat, s': State, u: nat)
    requires EpochStep(s, t, s') && u < |s.td| && u != t
    ensures |s'.td| == |s.td| && s'.td[u] == s.td[u]
  {
  }

  /** The heart of the matter: an object in the bag that is about to be freed was retired
      two epochs ago or earlier, so every operation that ran then has ended. */
  lemma OldestIsSafe(s: State, t: nat, p: nat, u: nat)
    requires Inv(s) && t < |s.td| && s.td[t].pc.Rotate? && u < |s.td|
    requires p in s.rec && s.store.place[p] == Place(t, (s.td[t].index + 1) % EPOCH_BAGS)
    ensures |s.rec[p].running| == |s.td| && !SameOperation(s, u, s.rec[p].running[u])
  {
    hide Placed;
    assert DataOk(s, t) && DataOk(s, u);
    assert RetOk(s, s.rec[p], s.store.place[p]);
    assert Age(s.td[t].index, (s.td[t].index + 1) % EPOCH_BAGS) == 2;
  }

  /** One rotation later every remaining object is still old enough for its bag. */
  lemma RotatedAge(d: Data, d': Data, bag: nat, e: nat)
    requires OldEnough(d, bag, e) && d.pc.Rotate? && d'.index == (d.index + 1) % EPOCH_BAGS
    requires d'.local == d.local && d'.pc.Announce?
    ensures OldEnough(d', bag, e)
  {
  }

  lemma RotateMoves(s: State, t: nat, s': State)
    requires Inv(s) && RotateStep(s, t, s')
    ensures Moves(s, s') && StoreOk(s'.store) && s'.rec.Keys == s'.store.place.Keys
    ensures forall u: nat | u < |s'.td| :: DataOk(s', u)
    ensures forall p | p in s'.rec :: p in s.rec && s'.rec[p] == s.rec[p] && s'.store.place[p] == s.store.place[p]
    ensures forall p | p in s.rec && p !in s'.rec :: s.store.place[p] == Place(t, (s.td[t].index + 1) % EPOCH_BAGS)
  {
    hide StoreOk, RetOk;
    assert DataOk(s, t);
    FreeFullOk(s.store, t, (s.td[t].index + 1) % EPOCH_BAGS);
    assert Moves(s, s');
    forall u: nat | u < |s'.td| ensures DataOk(s', u) {
      assert DataOk(s, u);
      if u != t {
        DataStay(s, s', u);
      }
    }
  }

  lemma RotatedRet(s: State, t: nat, s': State, r: Ret, w: Place)
    requires RotateStep(s, t, s') && Moves(s, s') && RetOk(s, r, w)
    ensures RetOk(s', r, w)
  {
    hide Moves;
    if w.tid == t {
      RotatedAge(s.td[t], s'.td[t], w.bag, r.epoch);
    }
    hide OldEnough;
    RetStay(s, s', r, w);
  }

  lemma RotateOk(s: State, t: nat, s': State)
    requires Inv(s) && RotateStep(s, t, s')
    ensures Inv(s')
  {
    hide StoreOk, DataOk, RetOk, Moves;
    RotateMoves(s, t, s');
    forall p | p in s'.rec ensures RetOk(s', s'.rec[p], s'.store.place[p]) {
      RotatedRet(s, t, s', s.rec[p], s.store.place[p]);
    }
  }

  lemma RetireStepOk(s: State, t: nat, p: nat, s': State)
    requires Inv(s) && RetireStep(s, t, p, s')
    ensures Inv(s')
  {
    hide RetOk, StoreOk, OldEnough, Contents, Passed, Add, Snapshot, Running;
    assert DataOk(s, t);
    RetireOk(s.store, t, s.td[t].index, s.block, p);
    assert Moves(s, s');
    forall u: nat | u < |s'.td| ensures DataOk(s', u) {
      assert DataOk(s, u);
      DataStay(s, s', u);
    }
    forall q | q in s'.rec ensures RetOk(s', s'.rec[q], s'.store.place[q]) {
      RetireRet(s, t, p, s', q);
    }
  }

  lemma RetireRet(s: State, t: nat, p: nat, s': State, q: nat)
    requires Inv(s) && RetireStep(s, t, p, s') && Moves(s, s') && q in s'.rec
    ensures q in s'.store.place && RetOk(s', s'.rec[q], s'.store.place[q])
  {
    hide StoreOk, OldEnough, DataOk, Snapshot;
    if q != p {
      assert RetOk(s, s.rec[q], s.store.place[q]);
      RetStay(s, s', s.rec[q], s.store.place[q]);
    } else {
      RetiredRet(s, t, p, s');
    }
  }

  lemma RetiredRet(s: State, t: nat, p: nat, s': State)
    requires Inv(s) && RetireStep(s, t, p, s')
    ensures RetOk(s', s'.rec[p], s'.store.place[p])
  {
    hide RetOk, StoreOk;
    assert DataOk(s, t);
    forall u: nat | u < |s.td| ensures Running(s.td[u]) ==> s.td[u].annAt <= s.epoch {
      assert DataOk(s, u);
    }
    SnapshotOk(s, s', Place(t, s.td[t].index));
  }

  lemma SnapshotOk(s: State, s': State, w: Place)
    requires s'.td == s.td && s'.epoch == s.epoch
    requires s.epoch % 2 == 0 && w.tid < |s.td| && OldEnough(s.td[w.tid], w.bag, s.epoch)
    requires forall u: nat | u < |s.td| :: Running(s.td[u]) ==> s.td[u].annAt <= s.epoch
    ensures RetOk(s', Snapshot(s), w)
  {
  }

  lemma AllocateOk(s: State, p: nat, s': State)
    requires Inv(s) && Allocate(s, p, s')
    ensures Inv(s')
  {
    hide StoreOk;
    ReuseOk(s.store, p);
    assert Moves(s, s');
    forall u: nat | u < |s'.td| ensures DataOk(s', u) {
      assert DataOk(s, u);
      DataStay(s, s', u);
    }
    forall q | q in s'.rec ensures RetOk(s', s'.rec[q], s'.store.place[q]) {
      assert RetOk(s, s.rec[q], s.store.place[q]);
      RetStay(s, s', s.rec[q], s.store.place[q]);
    }
  }

  /* ------------------------------------------------------------------ runs */

  lemma InitOk(s: State)
    requires Init(s)
    ensures Inv(s)
  {
  }

  lemma NextOk(s: State, s': State)
    requires Inv(s) && Next(s, s')
    ensures Inv(s')
  {
    hide Inv, EpochStep, RotateStep, RetireStep, Allocate;
    if t: nat :| EpochStep(s, t, s') {
      EpochStepOk(s, t, s');
    } else if t: nat :| RotateStep(s, t, s') {
      RotateOk(s, t, s');
    } else if t: nat, p: nat :| RetireStep(s, t, p, s') {
      RetireStepOk(s, t, p, s');
    } else {
      var p: nat :| Allocate(s, p, s');
      AllocateOk(s, p, s');
    }
  }

  lemma {:induction false} RunOk(run: seq<State>, i: nat)
    requires Run(run) && i < |run|
    ensures Inv(run[i])
  {
    hide Inv, Next, Init;
    if i == 0 {
      InitOk(run[0]);
    } else {
      RunOk(run, i - 1);
      assert StepAt(run, i - 1);
      NextOk(run[i - 1], run[i]);
    }
  }

  /* --------------------------------------------------------------- theorems */

  /** Thread u runs the same operation in both states. */
  ghost predicate StillIn(run: seq<State>, i: nat, j: nat, u: nat) {
    && i < |run| && j < |run| && u < |run[i].td| && u < |run[j].td|
    && Running(run[i].td[u]) && Running(run[j].td[u]) && run[i].td[u].opNum == run[j].td[u].opNum
  }

  lemma StepMoves(s: State, s': State)
    requires Inv(s) && Next(s, s')
    ensures Moves(s, s')
  {
    hide Inv, EpochStep;
    if t: nat :| EpochStep(s, t, s') {
      EpochMoves(s, t, s');
    }
  }

  lemma {:induction false} RunMoves(run: seq<State>, i: nat, j: nat, u: nat)
    requires Run(run) && i <= j < |run| && u < |run[i].td|
    ensures |run[j].td| == |run[i].td| && run[i].epoch <= run[j].epoch && run[i].td[u].opNum <= run[j].td[u].opNum
    ensures StillIn(run, i, j, u) ==> run[j].td[u].annAt == run[i].td[u].annAt
    ensures i < j && StillIn(run, i, j, u) ==> StillIn(run, i, j - 1, u)
    decreases j - i
  {
    hide Inv, Next, Init;
    if i < j {
      RunMoves(run, i, j - 1, u);
      RunOk(run, j - 1);
      assert StepAt(run, j - 1);
      StepMoves(run[j - 1], run[j]);
      assert Moved(run[j - 1], run[j], u);
    }
  }

  /** While a thread stays in one operation the global epoch advances at most once past its
      value at the announcement, however stale the announcement is. */
  lemma EpochAdvancesOnce(run: seq<State>, i: nat, j: nat, u: nat)
    requires Run(run) && i < j < |run| && AnnounceStep(run[i], u, run[i + 1]) && StillIn(run, i + 1, j, u)
    ensures run[i].epoch <= run[j].epoch <= run[i].epoch + INCREMENT
  {
    RunMoves(run, i, j, u);
    RunMoves(run, i + 1, j, u);
    RunOk(run, j);
    assert DataOk(run[j], u);
  }

  /** A scan never looks past the last thread, and has passed everybody before the thread
      tries to advance the epoch. */
  lemma ScanCoversAll(run: seq<State>, i: nat, t: nat)
    requires Run(run) && i < |run| && t < |run[i].td|
    ensures run[i].td[t].pc.Scan? ==> run[i].td[t].checked < |run[i].td|
    ensures run[i].td[t].pc.Advance? ==> forall u: nat | u < |run[i].td| :: Passed(run[i].td[t], run[i].td[u])
  {
    RunOk(run, i);
    assert DataOk(run[i], t);
  }

  lemma StepHolds(s: State, s': State, p: nat, u: nat)
    requires Inv(s) && Next(s, s') && p in s.rec && u < |s.td| == |s.rec[p].running|
    requires SameOperation(s, u, s.rec[p].running[u])
    ensures p in s'.rec && s'.rec[p] == s.rec[p]
  {
    hide Inv, EpochStep, SameOperation;
    KeysAgree(s);
    if t: nat :| EpochStep(s, t, s') {
      StoreKept(s, t, s');
    } else if t: nat :| RotateStep(s, t, s') {
      RotateMoves(s, t, s');
      if p !in s'.rec {
        OldestIsSafe(s, t, p, u);
      }
    }
  }

  lemma KeysAgree(s: State)
    requires Inv(s)
    ensures s.rec.Keys == s.store.place.Keys && StoreOk(s.store)
  {
  }

  /** While any operation that was running at the retirement is still running, the object
      stays in limbo, under the record made at its retirement. */
  lemma {:induction false} HeldBack(run: seq<State>, i: nat, j: nat, t: nat, p: nat, u: nat)
    requires Run(run) && i < j < |run| && RetireStep(run[i], t, p, run[i + 1]) && StillIn(run, i, j, u)
    ensures p in run[j].rec && run[j].rec[p] == Snapshot(run[i]) && p !in run[j].store.pool
    decreases j - i
  {
    hide Inv, Next, Init;
    RunMoves(run, i, j, u);
    if j > i + 1 {
      HeldBack(run, i, j - 1, t, p, u);
      RunMoves(run, i, j - 1, u);
      RunOk(run, j - 1);
      assert StepAt(run, j - 1);
      StartedKnown(run, i, u);
      StepHolds(run[j - 1], run[j], p, u);
    }
    RunOk(run, j);
    InLimbo(run[j], p);
  }

  lemma StartedKnown(run: seq<State>, i: nat, u: nat)
    requires Run(run) && i < |run| && u < |run[i].td| && Running(run[i].td[u])
    ensures run[i].td[u].opNum > 0
  {
    RunOk(run, i);
    assert DataOk(run[i], u);
  }

  lemma InLimbo(s: State, p: nat)
    requires Inv(s) && p in s.rec
    ensures p !in s.store.pool
  {
    assert Placed(s.store, p);
  }

  /** The grace period: when an object reaches the pool, every operation that was running
      at its retirement has ended. */
  lemma GracePeriod(run: seq<State>, i: nat, j: nat, t: nat, p: nat, u: nat)
    requires Run(run) && i < j < |run| && RetireStep(run[i], t, p, run[i + 1]) && p in run[j].store.pool
    ensures !StillIn(run, i, j, u)
  {
    if StillIn(run, i, j, u) {
      HeldBack(run, i, j, t, p, u);
    }
  }
}
