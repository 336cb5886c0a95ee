/** Token based reclamation: a token goes round the threads, each passes it on between two
    operations and then rotates its two limbo bags. */
module TokenModel {

  import opened Limbo

  const NUM_BAGS := 2

  datatype Pc =
    | Outside
    | HasToken          // in `startOp`, having seen its flag set
    | Passing           // its flag is cleared, the next flag is not yet set
    | Rotate
    | Inside            // the body of the operation

  /** token is shared; curr is the index of the bag that `curr` points to; visits and
      opNum are ghost: how often the thread has passed the token on, and begun an operation. */
  datatype Data = Data(token: bool, count: nat, curr: nat, pc: Pc, visits: nat, opNum: nat)

  /** Ghost record of a retired object: how often each thread had passed the token at its
      retirement, and the operation each was running then, or 0. */
  datatype Ret = Ret(visits: seq<nat>, running: seq<nat>)

  /** pos and round are ghost: whose turn it is, and how often the token went round. */
  datatype State = State(td: seq<Data>, store: Store, rec: map<nat, Ret>, block: nat, pos: nat, round: nat)

  function Operation(d: Data): nat {
    if d.pc.Inside? then d.opNum else 0
  }

  ghost predicate Init(s: State) {
    && |s.td| > 0 && s.pos == 0 && s.round == 0 && s.rec == map[]
    && s.store.place == map[] && |s.store.bags| == |s.td|
    && forall t | 0 <= t < |s.td| ::
         s.td[t] == Data(t == 0, 0, 0, Outside, 0, 0) && s.store.bags[t] == [EMPTY, EMPTY]
  }

  function Set(s: State, t: nat, d: Data): State
    requires t < |s.td|
  {
    s.(td := s.td[t := d])
  }

  /** `startOp` reads the thread's own flag. */
  ghost predicate StartRead(s: State, t: nat, s': State) {
    && t < |s.td| && s.td[t].pc == Outside
    && var d := s.td[t];
    && s' == Set(s, t,
                 if d.token then d.(count := d.count + 1, pc := HasToken)
                 else d.(pc := Inside, opNum := d.opNum + 1))
  }

  ghost predicate ClearStep(s: State, t: nat, s': State) {
    && t < |s.td| && s.td[t].pc == HasToken
    && s' == Set(s, t, s.td[t].(token := false, pc := Passing))
  }

  /** The flag of the next thread is set. */
  ghost predicate PassStep(s: State, t: nat, s': State) {
    && t < |s.td| && s.td[t].pc == Passing
    && var next := (t + 1) % |s.td|;
    && var s1 := Set(s, t, s.td[t].(pc := Rotate, visits := s.td[t].visits + 1));
    && s' == Set(s1, next, s1.td[next].(token := true))
             .(pos := next, round := if t + 1 == |s.td| then s.round + 1 else s.round)
  }

  /** `rotateEpochBags`: the full blocks of `last` go to the pool, then the bags are swapped. */
  ghost predicate RotateStep(s: State, t: nat, s': State) {
    && t < |s.td| && s.td[t].pc == Rotate
    && var d := s.td[t];
    && d.curr < NUM_BAGS
    && var last := 1 - d.curr;
    && Has(s.store, t, last)
    && s' == Set(s, t, d.(curr := last, pc := Inside, opNum := d.opNum + 1))
             .(store := FreeFull(s.store, t, last), rec := s.rec - Freed(s.store, t, last))
  }

  function Snapshot(s: State): Ret {
    Ret(seq(|s.td|, u requires 0 <= u < |s.td| => s.td[u].visits),
        seq(|s.td|, u requires 0 <= u < |s.td| => Operation(s.td[u])))
  }

  /** `retire` of an object that is neither in limbo nor in the pool. */
  ghost predicate RetireStep(s: State, t: nat, p: nat, s': State) {
    && t < |s.td| && s.td[t].pc == Inside && p !in s.store.place && p !in s.store.pool
    && Has(s.store, t, s.td[t].curr)
    && s' == s.(store := Retire(s.store, t, s.td[t].curr, s.block, p), rec := s.rec[p := Snapshot(s)])
  }

  ghost predicate Allocate(s: State, p: nat, s': State) {
    s' == s.(store := Reuse(s.store, p))
  }

  /** The body of the operation ends; `endOp` itself does nothing. */
  ghost predicate EndStep(s: State, t: nat, s': State) {
    t < |s.td| && s.td[t].pc == Inside && s' == Set(s, t, s.td[t].(pc := Outside))
  }

  /** The steps of a thread that move no object. */
  ghost predicate TokenStep(s: State, t: nat, s': State) {
    StartRead(s, t, s') || ClearStep(s, t, s') || PassStep(s, t, s') || EndStep(s, t, s')
  }

  ghost predicate Next(s: State, s': State) {
    || (exists t: nat :: TokenStep(s, t, s'))
    || (exists t: nat :: RotateStep(s, t, s'))
    || (exists t: nat, p: nat :: RetireStep(s, t, p, s'))
    || (exists p: nat :: Allocate(s, p, s'))
  }

  ghost predicate StepAt(run: seq<State>, i: nat) {
    i + 1 < |run| && Next(run[i], run[i + 1])
  }

  /** A run: any finite interleaving from an initial state. */
  ghost predicate Run(run: seq<State>) {
    |run| > 0 && Init(run[0]) && forall i: nat | i + 1 < |run| :: StepAt(run, i)
  }
}

/** One token, and a full circle before anything is freed. */
module TokenSafety {

  import opened Limbo
  import opened TokenModel

  /* ------------------------------------------------------------- invariant */

  ghost predicate DataOk(s: State, t: nat)
    requires t < |s.td|
  {
    var d := s.td[t];
    && (d.token || d.pc == Passing <==> t == s.pos)
    && !(d.token && d.pc == Passing)
    && (d.pc == HasToken ==> d.token)
    && d.visits == s.round + (if t < s.pos then 1 else 0)
    && (d.pc == Rotate ==> d.visits > 0)
    && d.count == d.visits + (if d.pc == HasToken || d.pc == Passing then 1 else 0)
    && (d.pc == Inside ==> d.opNum > 0)
    && d.curr < NUM_BAGS && |s.store.bags| == |s.td| && |s.store.bags[t]| == NUM_BAGS
  }

  /** How often the owner of the bag has passed the token since the retirement. */
  ghost predicate OldEnough(d: Data, bag: nat, visits: nat) {
    && d.curr < NUM_BAGS && bag < NUM_BAGS
    && d.visits >= visits + (if bag == d.curr then 0 else 1) + (if d.pc == Rotate then 1 else 0)
  }

  ghost predicate SameOperation(s: State, u: nat, n: nat) {
    u < |s.td| && n > 0 && Operation(s.td[u]) == n
  }

  /** The visits at the retirement fit one position of the token; who still runs the
      operation of that time has not passed the token since. */
  ghost predicate RetOk(s: State, r: Ret, w: Place) {
    && |r.visits| == |r.running| == |s.td|
    && (forall u: nat | u < |s.td| :: r.running[u] <= s.td[u].opNum)
    && (forall u: nat | u < |s.td| && SameOperation(s, u, r.running[u]) :: s.td[u].visits == r.visits[u])
    && w.tid < |s.td| && OldEnough(s.td[w.tid], w.bag, r.visits[w.tid])
    && exists pos: nat, round: nat :: Fits(r.visits, pos, round)
  }

  ghost predicate Fits(visits: seq<nat>, pos: nat, round: nat) {
    forall u: nat | u < |visits| :: visits[u] == round + (if u < pos then 1 else 0)
  }

  ghost predicate Inv(s: State) {
    && s.pos < |s.td| && s.rec.Keys == s.store.place.Keys && StoreOk(s.store)
    && (forall t: nat | t < |s.td| :: DataOk(s, t))
    && (forall p | p in s.rec :: RetOk(s, s.rec[p], s.store.place[p]))
  }

  /* ------------------------------------------------------------------ steps */

  /** Operation numbers grow, and nobody passes the token inside an operation. */
  ghost predicate Moved(s: State, s': State, u: nat)
    requires u < |s.td| == |s'.td|
  {
    var d, d' := s.td[u], s'.td[u];
    && d.opNum <= d'.opNum
    && (d'.pc == Inside ==> if d.pc == Inside then d'.opNum == d.opNum && d'.visits == d.visits
                            else d'.opNum == d.opNum + 1)
  }

  ghost predicate Moves(s: State, s': State) {
    |s'.td| == |s.td| && forall u: nat | u < |s.td| :: Moved(s, s', u)
  }

  lemma RetStay(s: State, s': State, r: Ret, w: Place)
    requires RetOk(s, r, w) && Moves(s, s')
    requires OldEnough(s'.td[w.tid], w.bag, r.visits[w.tid])
    ensures RetOk(s', r, w)
  {
    forall u: nat | u < |s'.td| ensures r.running[u] <= s'.td[u].opNum
                                     && (SameOperation(s', u, r.running[u]) ==> s'.td[u].visits == r.visits[u]) {
      assert Moved(s, s', u);
      assert SameOperation(s', u, r.running[u]) ==> SameOperation(s, u, r.running[u]);
    }
  }

  lemma TokenMoves(s: State, t: nat, s': State)
    requires Inv(s) && TokenStep(s, t, s')
    ensures Moves(s, s') && s'.pos < |s'.td|
    ensures forall u: nat | u < |s'.td| :: DataOk(s', u)
    ensures s'.store == s.store && s'.rec == s.rec
  {
    hide RetOk, StoreOk;
    assert DataOk(s, t);
    forall u: nat | u < |s.td| ensures DataOk(s', u) && Moved(s, s', u) {
      assert DataOk(s, u);
      NextPos(t, |s.td|);
    }
  }

  lemma NextPos(t: nat, n: nat)
    requires t < n
    ensures (t + 1) % n == (if t + 1 == n then 0 else t + 1)
  {
  }

  lemma TokenAges(s: State, t: nat, s': State, w: Place, v: nat)
    requires TokenStep(s, t, s') && w.tid < |s.td| && OldEnough(s.td[w.tid], w.bag, v)
    ensures w.tid < |s'.td| && OldEnough(s'.td[w.tid], w.bag, v)
  {
  }

  lemma TokenStepOk(s: State, t: nat, s': State)
    requires Inv(s) && TokenStep(s, t, s')
    ensures Inv(s')
  {
    hide StoreOk, DataOk, Moves, TokenStep;
    TokenMoves(s, t, s');
    forall p | p in s'.rec ensures RetOk(s', s'.rec[p], s'.store.place[p]) {
      var r, w := s.rec[p], s.store.place[p];
      assert RetOk(s, r, w);
      TokenAges(s, t, s', w, r.visits[w.tid]);
      RetStay(s, s', r, w);
    }
  }

  /** Since its owner passed the token twice, everybody has passed it at least once. */
  lemma FullCircle(s: State, r: Ret, t: nat, u: nat)
    requires Inv(s) && t < |s.td| && u < |s.td| && |r.visits| == |s.td|
    requires exists pos: nat, round: nat :: Fits(r.visits, pos, round)
    requires s.td[t].visits >= r.visits[t] + 2
    ensures s.td[u].visits > r.visits[u]
  {
    hide RetOk, StoreOk;
    var pos: nat, round: nat :| Fits(r.visits, pos, round);
    assert DataOk(s, t) && DataOk(s, u);
  }

  lemma OldestIsSafe(s: State, t: nat, p: nat, u: nat)
    requires Inv(s) && t < |s.td| && s.td[t].pc == Rotate && u < |s.td|
    requires p in s.rec && s.td[t].curr < NUM_BAGS && s.store.place[p] == Place(t, 1 - s.td[t].curr)
    ensures |s.rec[p].running| == |s.td| && !SameOperation(s, u, s.rec[p].running[u])
  {
    hide StoreOk, DataOk, Fits;
    assert RetOk(s, s.rec[p], s.store.place[p]);
    FullCircle(s, s.rec[p], t, u);
  }

  lemma RotateMoves(s: State, t: nat, s': State)
    requires Inv(s) && RotateStep(s, t, s')
    ensures Moves(s, s') && StoreOk(s'.store) && s'.rec.Keys == s'.store.place.Keys
    ensures forall u: nat | u < |s'.td| :: DataOk(s', u)
    ensures forall p | p in s'.rec :: p in s.rec && s'.rec[p] == s.rec[p] && s'.store.place[p] == s.store.place[p]
    ensures s.td[t].curr < NUM_BAGS
    ensures forall p | p in s.rec && p !in s'.rec :: s.store.place[p] == Place(t, 1 - s.td[t].curr)
  {
    hide StoreOk, RetOk;
    FreeFullOk(s.store, t, 1 - s.td[t].curr);
    forall u: nat | u < |s.td| ensures DataOk(s', u) && Moved(s, s', u) {
      assert DataOk(s, u);
    }
  }

  lemma RotatedRet(s: State, t: nat, s': State, r: Ret, w: Place)
    requires RotateStep(s, t, s') && Moves(s, s') && RetOk(s, r, w)
    ensures RetOk(s', r, w)
  {
    hide Moves;
    assert OldEnough(s'.td[w.tid], w.bag, r.visits[w.tid]);
    RetStay(s, s', r, w);
  }

  lemma RotateOk(s: State, t: nat, s': State)
    requires Inv(s) && RotateStep(s, t, s')
    ensures Inv(s')
  {
    hide StoreOk, DataOk, RetOk, Moves;
    RotateMoves(s, t, s');
    forall p | p in s'.rec ensures RetOk(s', s'.rec[p], s'.store.place[p]) {
      RotatedRet(s, t, s', s.rec[p], s.store.place[p]);
    }
  }

  lemma SnapshotOk(s: State, s': State, w: Place)
    requires s'.td == s.td && w.tid < |s.td| && OldEnough(s.td[w.tid], w.bag, s.td[w.tid].visits)
    requires forall u: nat | u < |s.td| :: DataOk(s, u)
    ensures RetOk(s', Snapshot(s), w)
  {
    var v := Snapshot(s).visits;
    forall u: nat | u < |v| ensures v[u] == s.round + (if u < s.pos then 1 else 0) {
      assert DataOk(s, u);
    }
    assert Fits(v, s.pos, s.round);
  }

  lemma RetiredRet(s: State, t: nat, p: nat, s': State)
    requires Inv(s) && RetireStep(s, t, p, s')
    ensures RetOk(s', s'.rec[p], s'.store.place[p])
  {
    hide RetOk, StoreOk;
    assert DataOk(s, t);
    SnapshotOk(s, s', Place(t, s.td[t].curr));
  }

  lemma RetireStepOk(s: State, t: nat, p: nat, s': State)
    requires Inv(s) && RetireStep(s, t, p, s')
    ensures Inv(s')
  {
    hide StoreOk, OldEnough, Fits;
    RetireOk(s.store, t, s.td[t].curr, s.block, p);
    forall u: nat | u < |s'.td| ensures DataOk(s', u) {
      assert DataOk(s, u);
    }
    RetiredRet(s, t, p, s');
    forall q | q in s'.rec && q != p ensures RetOk(s', s'.rec[q], s'.store.place[q]) {
      assert RetOk(s, s.rec[q], s.store.place[q]);
      RetStay(s, s', s.rec[q], s.store.place[q]);
    }
  }

  lemma AllocateOk(s: State, p: nat, s': State)
    requires Inv(s) && Allocate(s, p, s')
    ensures Inv(s')
  {
    hide StoreOk;
    ReuseOk(s.store, p);
    forall u: nat | u < |s'.td| ensures DataOk(s', u) {
      assert DataOk(s, u);
    }
    forall q | q in s'.rec ensures RetOk(s', s'.rec[q], s'.store.place[q]) {
      assert RetOk(s, s.rec[q], s.store.place[q]);
      RetStay(s, s', s.rec[q], s.store.place[q]);
    }
  }

  /* ------------------------------------------------------------------ runs */

  lemma InitOk(s: State)
    requires Init(s)
    ensures Inv(s)
  {
  }

  lemma NextOk(s: State, s': State)
    requires Inv(s) && Next(s, s')
    ensures Inv(s')
  {
    hide Inv, TokenStep, RotateStep, RetireStep, Allocate;
    if t: nat :| TokenStep(s, t, s') {
      TokenStepOk(s, t, s');
    } else if t: nat :| RotateStep(s, t, s') {
      RotateOk(s, t, s');
    } else if t: nat, p: nat :| RetireStep(s, t, p, s') {
      RetireStepOk(s, t, p, s');
    } else {
      var p: nat :| Allocate(s, p, s');
      AllocateOk(s, p, s');
    }
  }

  lemma {:induction false} RunOk(run: seq<State>, i: nat)
    requires Run(run) && i < |run|
    ensures Inv(run[i])
  {
    hide Inv, Next, Init;
    if i == 0 {
      InitOk(run[0]);
    } else {
      RunOk(run, i - 1);
      assert StepAt(run, i - 1);
      NextOk(run[i - 1], run[i]);
    }
  }

  /* --------------------------------------------------------------- theorems */

  /** The thread holds the token, or is about to hand it over. */
  predicate Holds(d: Data) {
    d.token || d.pc == Passing
  }

  /** There is never more than one token: of all threads exactly one has its flag set or is
      between clearing it and setting the next one. */
  lemma OneToken(run: seq<State>, i: nat, t: nat, u: nat)
    requires Run(run) && i < |run| && t < |run[i].td| && u < |run[i].td|
    ensures Holds(run[i].td[t]) && Holds(run[i].td[u]) ==> t == u
    ensures exists v: nat :: v < |run[i].td| && Holds(run[i].td[v])
    ensures !(run[i].td[t].token && run[i].td[u].pc == Passing)
  {
    RunOk(run, i);
    assert DataOk(run[i], t) && DataOk(run[i], u) && DataOk(run[i], run[i].pos);
    assert Holds(run[i].td[run[i].pos]);
  }

  /** No thread receives the token twice before every other thread has received it. */
  lemma FairCounts(run: seq<State>, i: nat, t: nat, u: nat)
    requires Run(run) && i < |run| && t < |run[i].td| && u < |run[i].td|
    ensures run[i].td[t].count <= run[i].td[u].count + 1
  {
    RunOk(run, i);
    assert DataOk(run[i], t) && DataOk(run[i], u);
  }

  /** Thread u runs the same operation in both states. */
  ghost predicate StillIn(run: seq<State>, i: nat, j: nat, u: nat) {
    && i < |run| && j < |run| && u < |run[i].td| && u < |run[j].td|
    && run[i].td[u].pc == run[j].td[u].pc == Inside && run[i].td[u].opNum == run[j].td[u].opNum
  }

  lemma StepMoves(s: State, s': State)
    requires Inv(s) && Next(s, s')
    ensures Moves(s, s')
  {
    hide Inv, TokenStep, RotateStep;
    if t: nat :| TokenStep(s, t, s') {
      TokenMoves(s, t, s');
    } else if t: nat :| RotateStep(s, t, s') {
      RotateMoves(s, t, s');
    }
  }

  lemma {:induction false} RunMoves(run: seq<State>, i: nat, j: nat, u: nat)
    requires Run(run) && i <= j < |run| && u < |run[i].td|
    ensures |run[j].td| == |run[i].td| && run[i].td[u].opNum <= run[j].td[u].opNum
    ensures i < j && StillIn(run, i, j, u) ==> StillIn(run, i, j - 1, u)
    decreases j - i
  {
    hide Inv, Next, Init;
    if i < j {
      RunMoves(run, i, j - 1, u);
      RunOk(run, j - 1);
      assert StepAt(run, j - 1);
      StepMoves(run[j - 1], run[j]);
      assert Moved(run[j - 1], run[j], u);
    }
  }

  lemma StepHolds(s: State, s': State, p: nat, u: nat)
    requires Inv(s) && Next(s, s') && p in s.rec && u < |s.td| == |s.rec[p].running|
    requires SameOperation(s, u, s.rec[p].running[u])
    ensures p in s'.rec && s'.rec[p] == s.rec[p]
  {
    hide Inv, TokenStep, SameOperation;
    KeysAgree(s);
    if t: nat :| TokenStep(s, t, s') {
      TokenMoves(s, t, s');
    } else if t: nat :| RotateStep(s, t, s') {
      RotateMoves(s, t, s');
      if p !in s'.rec {
        OldestIsSafe(s, t, p, u);
      }
    }
  }

  lemma KeysAgree(s: State)
    requires Inv(s)
    ensures s.rec.Keys == s.store.place.Keys
  {
  }

  lemma KnowsData(run: seq<State>, i: nat, u: nat)
    requires Run(run) && i < |run| && u < |run[i].td|
    ensures DataOk(run[i], u)
  {
    RunOk(run, i);
  }

  /** While an operation that was running at the retirement is still running, the object
      stays in limbo, under the record made at its retirement. */
  lemma {:induction false} HeldBack(run: seq<State>, i: nat, j: nat, t: nat, p: nat, u: nat)
    requires Run(run) && i < j < |run| && RetireStep(run[i], t, p, run[i + 1]) && StillIn(run, i, j, u)
    ensures p in run[j].rec && run[j].rec[p] == Snapshot(run[i]) && p !in run[j].store.pool
    decreases j - i
  {
    hide Inv, Next, Init;
    RunMoves(run, i, j, u);
    if j > i + 1 {
      HeldBack(run, i, j - 1, t, p, u);
      RunMoves(run, i, j - 1, u);
      RunOk(run, j - 1);
      assert StepAt(run, j - 1);
      KnowsData(run, i, u);
      StepHolds(run[j - 1], run[j], p, u);
    }
    RunOk(run, j);
    InLimbo(run[j], p);
  }

  lemma InLimbo(s: State, p: nat)
    requires Inv(s) && p in s.rec
    ensures p !in s.store.pool
  {
    assert Placed(s.store, p);
  }

  /** When an object reaches the pool, every operation that was running at its retirement
      has ended. */
  lemma GracePeriod(run: seq<State>, i: nat, j: nat, t: nat, p: nat, u: nat)
    requires Run(run) && i < j < |run| && RetireStep(run[i], t, p, run[i + 1]) && p in run[j].store.pool
    ensures !StillIn(run, i, j, u)
  {
    if StillIn(run, i, j, u) {
      HeldBack(run, i, j, t, p, u);
    }
  }

  /** An object is freed only after every thread has passed the token on since its retirement:
      a full circle. */
  lemma FreedAfterFullCircle(run: seq<State>, j: nat, t: nat, p: nat, u: nat)
    requires Run(run) && j + 1 < |run| && RotateStep(run[j], t, run[j + 1])
    requires p in run[j].rec && p !in run[j + 1].rec && u < |run[j].td|
    ensures |run[j].rec[p].visits| == |run[j].td| && run[j].td[u].visits > run[j].rec[p].visits[u]
  {
    hide StoreOk, FreeFull, Freed;
    RunOk(run, j);
    RotateMoves(run[j], t, run[j + 1]);
    assert RetOk(run[j], run[j].rec[p], run[j].store.place[p]);
    FullCircle(run[j], run[j].rec[p], t, u);
  }
}
