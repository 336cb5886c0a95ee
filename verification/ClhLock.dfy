/** The CLH reader-writer lock as a transition system with one access to shared memory per
    step.  Nodes are heap cells; a freed cell may be handed out again at once. */
module ClhLockModel {

  /** k is ghost: the position of the thread's node in the order of the tail exchanges. */
  datatype Pc =
    | Idle
    | Exchange(write: bool, node: nat)
    | WaitPrev(write: bool, k: nat, node: nat, prev: nat)
    | ReadInc(k: nat, node: nat, prev: nat)
    | ReadOpen(k: nat, node: nat, prev: nat)
    | ReadFree(k: nat, prev: nat)
    | Reading
    | WaitReaders(k: nat, node: nat, prev: nat)
    | SetMine(k: nat, node: nat, prev: nat)
    | WriteFree(k: nat, prev: nat)
    | Writing(k: nat)
    | WriteOpen(k: nat, node: nat)

  /** mem maps every allocated node to its succ_must_wait.  Ghost: queue lists the nodes in
      the order of the tail exchanges, after the sentinel; granted and cleared are the last
      positions that stopped waiting for their predecessor and that cleared their flag;
      freed holds the positions whose nodes were freed. */
  datatype State = State(
    mem: map<nat, bool>,
    tail: nat,
    mynode: nat,
    readers: int,
    th: seq<Pc>,
    queue: seq<nat>,
    granted: nat,
    cleared: nat,
    freed: set<int>
  )

  ghost predicate Init(s: State) {
    && s.mem == map[s.tail := false] && s.mynode == s.tail && s.readers == 0
    && (forall t | 0 <= t < |s.th| :: s.th[t] == Idle)
    && s.queue == [s.tail] && s.granted == 0 && s.cleared == 0 && s.freed == {}
  }

  function SetPc(s: State, t: nat, pc: Pc): State
    requires t < |s.th|
  {
    s.(th := s.th[t := pc])
  }

  /** Both lock functions begin by creating a node with its flag set. */
  ghost predicate Create(s: State, t: nat, write: bool, node: nat, s': State) {
    && t < |s.th| && s.th[t] == Idle && node !in s.mem
    && s' == SetPc(s, t, Exchange(write, node)).(mem := s.mem[node := true])
  }

  ghost predicate ExchangeStep(s: State, t: nat, s': State) {
    && t < |s.th| && s.th[t].Exchange?
    && var pc := s.th[t];
    && s' == SetPc(s, t, WaitPrev(pc.write, |s.queue|, pc.node, s.tail)).(tail := pc.node, queue := s.queue + [pc.node])
  }

  /** One read of the predecessor's flag; a freed cell may read as anything. */
  ghost predicate WaitPrevStep(s: State, t: nat, wait: bool, s': State) {
    && t < |s.th| && s.th[t].WaitPrev?
    && var pc := s.th[t];
    && (pc.prev in s.mem ==> wait == s.mem[pc.prev])
    && s' == if wait then s
             else SetPc(s, t, if pc.write then WaitReaders(pc.k, pc.node, pc.prev) else ReadInc(pc.k, pc.node, pc.prev))
                  .(granted := pc.k)
  }

  ghost predicate ReadIncStep(s: State, t: nat, s': State) {
    && t < |s.th| && s.th[t].ReadInc?
    && s' == SetPc(s, t, ReadOpen(s.th[t].k, s.th[t].node, s.th[t].prev)).(readers := s.readers + 1)
  }

  ghost predicate ReadOpenStep(s: State, t: nat, s': State) {
    && t < |s.th| && s.th[t].ReadOpen?
    && s' == SetPc(s, t, ReadFree(s.th[t].k, s.th[t].prev)).(mem := s.mem[s.th[t].node := false], cleared := s.th[t].k)
  }

  ghost predicate FreeStep(s: State, t: nat, s': State) {
    && t < |s.th| && (s.th[t].ReadFree? || s.th[t].WriteFree?)
    && var pc := s.th[t];
    && s' == SetPc(s, t, if pc.ReadFree? then Reading else Writing(pc.k))
             .(mem := s.mem - {pc.prev}, freed := s.freed + {pc.k - 1})
  }

  /** `clh_rwlock_readunlock`. */
  ghost predicate ReadUnlock(s: State, t: nat, s': State) {
    t < |s.th| && s.th[t] == Reading && s' == SetPc(s, t, Idle).(readers := s.readers - 1)
  }

  ghost predicate WaitReadersStep(s: State, t: nat, s': State) {
    && t < |s.th| && s.th[t].WaitReaders?
    && s' == if s.readers != 0 then s else SetPc(s, t, SetMine(s.th[t].k, s.th[t].node, s.th[t].prev))
  }

  ghost predicate SetMineStep(s: State, t: nat, s': State) {
    && t < |s.th| && s.th[t].SetMine?
    && s' == SetPc(s, t, WriteFree(s.th[t].k, s.th[t].prev)).(mynode := s.th[t].node)
  }

  /** `clh_rwlock_writeunlock`: the read of mynode and the store through it. */
  ghost predicate WriteUnlock(s: State, t: nat, s': State) {
    t < |s.th| && s.th[t].Writing? && s' == SetPc(s, t, WriteOpen(s.th[t].k, s.mynode))
  }

  ghost predicate WriteOpenStep(s: State, t: nat, s': State) {
    && t < |s.th| && s.th[t].WriteOpen?
    && s' == SetPc(s, t, Idle).(mem := s.mem[s.th[t].node := false], cleared := s.th[t].k)
  }

  ghost predicate ThreadStep(s: State, t: nat, s': State) {
    || ExchangeStep(s, t, s') || ReadIncStep(s, t, s') || ReadOpenStep(s, t, s') || FreeStep(s, t, s')
    || ReadUnlock(s, t, s') || WaitReadersStep(s, t, s') || SetMineStep(s, t, s')
    || WriteUnlock(s, t, s') || WriteOpenStep(s, t, s')
  }

  ghost predicate Next(s: State, s': State) {
    || (exists t: nat :: ThreadStep(s, t, s'))
    || (exists t: nat, write: bool, node: nat :: Create(s, t, write, node, s'))
    || (exists t: nat, wait: bool :: WaitPrevStep(s, t, wait, s'))
  }

  ghost predicate StepAt(run: seq<State>, i: nat) {
    i + 1 < |run| && Next(run[i], run[i + 1])
  }

  /** A run: any finite interleaving from an initial state. */
  ghost predicate Run(run: seq<State>) {
    |run| > 0 && Init(run[0]) && forall i: nat | i + 1 < |run| :: StepAt(run, i)
  }
}

/** Exclusion, order and memory safety of the lock. */
module ClhLockSafety {

  import opened ClhLockModel

  /* ------------------------------------------------------------- invariant */

  /** The thread is between its tail exchange and its last use of its queue position. */
  predicate Queued(pc: Pc) {
    !(pc.Idle? || pc.Exchange? || pc.Reading?)
  }

  /** The thread is counted in readers_counter, that is, it holds the lock for reading. */
  predicate HoldsRead(pc: Pc) {
    pc.ReadOpen? || pc.ReadFree? || pc.Reading?
  }

  predicate HoldsWrite(pc: Pc) {
    pc.SetMine? || pc.WriteFree? || pc.Writing? || pc.WriteOpen?
  }

  /** The thread has not freed its predecessor's node. */
  predicate OwesFree(pc: Pc) {
    pc.WaitPrev? || pc.ReadInc? || pc.ReadOpen? || pc.ReadFree? || pc.WaitReaders? || pc.SetMine? || pc.WriteFree?
  }

  ghost predicate Live(s: State, i: nat) {
    i < |s.queue| && i !in s.freed
  }

  ghost predicate QueueOk(s: State) {
    && |s.queue| > 0 && s.tail == s.queue[|s.queue| - 1]
    && s.cleared <= s.granted <= s.cleared + 1 && s.granted < |s.queue|
    && (forall i | i in s.freed :: i <= s.cleared && i < s.granted)
  }

  ghost predicate NodeOk(s: State, i: nat) {
    Live(s, i) ==> s.queue[i] in s.mem && s.mem[s.queue[i]] == (i > s.cleared)
  }

  ghost predicate Apart(s: State, i: nat, j: nat) {
    Live(s, i) && Live(s, j) && i != j ==> s.queue[i] != s.queue[j]
  }

  /** The node of a thread that has not yet exchanged the tail is private. */
  ghost predicate Private(s: State, node: nat) {
    node in s.mem && s.mem[node] && forall i: nat | Live(s, i) :: s.queue[i] != node
  }

  ghost predicate Position(s: State, k: nat, node: nat, prev: nat) {
    1 <= k < |s.queue| && node == s.queue[k] && prev == s.queue[k - 1]
  }

  /** The position whose owner has stopped waiting and not yet cleared its flag. */
  ghost predicate Turn(s: State, k: nat) {
    1 <= k == s.cleared + 1 == s.granted < |s.queue|
  }

  ghost predicate PcOk(s: State, pc: Pc) {
    match pc
    case Idle => true
    case Exchange(_, node) => Private(s, node)
    case WaitPrev(_, k, node, prev) => Position(s, k, node, prev) && s.granted < k
    case ReadInc(k, node, prev) => Position(s, k, node, prev) && Turn(s, k)
    case ReadOpen(k, node, prev) => Position(s, k, node, prev) && Turn(s, k)
    case ReadFree(k, prev) => 1 <= k <= s.cleared < |s.queue| && prev == s.queue[k - 1]
    case Reading => true
    case WaitReaders(k, node, prev) => Position(s, k, node, prev) && Turn(s, k)
    case SetMine(k, node, prev) => Position(s, k, node, prev) && Turn(s, k)
    case WriteFree(k, prev) => Position(s, k, s.mynode, prev) && Turn(s, k)
    case Writing(k) => Turn(s, k) && s.mynode == s.queue[k]
    case WriteOpen(k, node) => Turn(s, k) && node == s.queue[k]
  }

  ghost predicate ThreadOk(s: State, t: nat)
    requires t < |s.th| && QueueOk(s)
  {
    var pc := s.th[t];
    && PcOk(s, pc)
    && (OwesFree(pc) ==> pc.k >= 1 && pc.k - 1 !in s.freed)
    && (HoldsWrite(pc) ==> s.readers == 0)
  }

  /** Two threads have different positions, and different private nodes. */
  ghost predicate PairOk(s: State, t: nat, u: nat)
    requires t < |s.th| && u < |s.th|
  {
    t != u ==>
      && (Queued(s.th[t]) && Queued(s.th[u]) ==> s.th[t].k != s.th[u].k)
      && (s.th[t].Exchange? && s.th[u].Exchange? ==> s.th[t].node != s.th[u].node)
  }

  function Holders(th: seq<Pc>): set<nat> {
    set t: nat | t < |th| && HoldsRead(th[t])
  }

  ghost predicate Inv(s: State) {
    && QueueOk(s)
    && (forall i: nat | i < |s.queue| :: NodeOk(s, i))
    && (forall i: nat, j: nat | i < |s.queue| && j < |s.queue| :: Apart(s, i, j))
    && (forall t: nat | t < |s.th| :: ThreadOk(s, t))
    && (forall t: nat, u: nat | t < |s.th| && u < |s.th| :: PairOk(s, t, u))
    && s.readers == |Holders(s.th)|
  }

  /* ------------------------------------------------------------------ steps */

  lemma HoldersChange(th: seq<Pc>, t: nat, pc: Pc)
    requires t < |th|
    ensures var th' := th[t := pc];
            |Holders(th')| == |Holders(th)| + (if HoldsRead(pc) then 1 else 0) - (if HoldsRead(th[t]) then 1 else 0)
  {
    var th' := th[t := pc];
    var rest := Holders(th) - {t};
    assert Holders(th) == if HoldsRead(th[t]) then rest + {t} else rest;
    assert Holders(th') == if HoldsRead(pc) then rest + {t} else rest;
  }

  lemma HolderCounts(th: seq<Pc>, t: nat)
    requires t < |th| && HoldsRead(th[t])
    ensures |Holders(th)| > 0
  {
    assert t in Holders(th);
  }

  lemma ThreadsKept(s: State, t: nat, s': State)
    requires Inv(s) && QueueOk(s') && t < |s.th| == |s'.th| && s'.th == s.th[t := s'.th[t]]
    requires ThreadOk(s', t)
    requires forall u: nat | u < |s.th| && u != t :: ThreadOk(s', u)
    requires forall u: nat | u < |s.th| && u != t :: PairOk(s', t, u) && PairOk(s', u, t)
    requires forall i: nat | i < |s'.queue| :: NodeOk(s', i)
    requires forall i: nat, j: nat | i < |s'.queue| && j < |s'.queue| :: Apart(s', i, j)
    requires s'.readers == |Holders(s'.th)|
    ensures Inv(s')
  {
    forall u: nat, v: nat | u < |s'.th| && v < |s'.th| ensures PairOk(s', u, v) {
      assert PairOk(s, u, v);
    }
  }

  lemma CreateOk(s: State, t: nat, write: bool, node: nat, s': State)
    requires Inv(s) && Create(s, t, write, node, s')
    ensures Inv(s')
  {
    HoldersChange(s.th, t, s'.th[t]);
    forall i: nat | i < |s'.queue| ensures NodeOk(s', i) && (Live(s, i) ==> s.queue[i] != node) {
      assert NodeOk(s, i);
    }
    forall i: nat, j: nat | i < |s'.queue| && j < |s'.queue| ensures Apart(s', i, j) {
      assert Apart(s, i, j);
    }
    forall u: nat | u < |s.th| && u != t ensures ThreadOk(s', u) && PairOk(s', t, u) && PairOk(s', u, t) {
      assert ThreadOk(s, u);
    }
    ThreadsKept(s, t, s');
  }

  lemma ExchangeOk(s: State, t: nat, s': State)
    requires Inv(s) && ExchangeStep(s, t, s')
    ensures Inv(s')
  {
    hide Holders;
    HoldersChange(s.th, t, s'.th[t]);
    assert ThreadOk(s, t);
    var n := |s.queue|;
    forall i: nat | i < |s'.queue| ensures NodeOk(s', i) {
      assert i < n ==> NodeOk(s, i) && Live(s, i) == Live(s', i);
    }
    forall i: nat, j: nat | i < |s'.queue| && j < |s'.queue| ensures Apart(s', i, j) {
      assert i < n && j < n ==> Apart(s, i, j);
      assert i < n ==> Live(s, i) == Live(s', i);
      assert j < n ==> Live(s, j) == Live(s', j);
    }
    forall u: nat | u < |s.th| && u != t ensures ThreadOk(s', u) && PairOk(s', t, u) && PairOk(s', u, t) {
      assert ThreadOk(s, u) && PairOk(s, t, u);
      PrivateKept(s, s', u);
    }
    ThreadsKept(s, t, s');
  }

  lemma PrivateKept(s: State, s': State, u: nat)
    requires u < |s.th| && PcOk(s, s.th[u]) && s'.mem == s.mem && s'.freed == s.freed
    requires s.queue <= s'.queue && |s'.queue| == |s.queue| + 1
    requires s.th[u].Exchange? ==> s'.queue[|s.queue|] != s.th[u].node
    ensures s.th[u].Exchange? ==> Private(s', s.th[u].node)
  {
    if s.th[u].Exchange? {
      forall i: nat | Live(s', i) ensures s'.queue[i] != s.th[u].node {
        assert i < |s.queue| ==> Live(s, i);
      }
    }
  }

  /** The nodes and the positions are as before. */
  lemma SameNodes(s: State, s': State)
    requires Inv(s) && s'.mem == s.mem && s'.queue == s.queue && s'.freed == s.freed && s'.cleared == s.cleared
    ensures forall i: nat | i < |s'.queue| :: NodeOk(s', i)
    ensures forall i: nat, j: nat | i < |s'.queue| && j < |s'.queue| :: Apart(s', i, j)
    ensures forall node :: Private(s, node) ==> Private(s', node)
  {
    forall i: nat | i < |s'.queue| ensures NodeOk(s', i) {
      assert NodeOk(s, i) && Live(s, i) == Live(s', i);
    }
    forall i: nat, j: nat | i < |s'.queue| && j < |s'.queue| ensures Apart(s', i, j) {
      assert Apart(s, i, j) && Live(s, i) == Live(s', i) && Live(s, j) == Live(s', j);
    }
    forall node | Private(s, node) ensures Private(s', node) {
      forall i: nat | Live(s', i) ensures s'.queue[i] != node {
        assert Live(s, i);
      }
    }
  }

  lemma WaitPrevOk(s: State, t: nat, wait: bool, s': State)
    requires Inv(s) && WaitPrevStep(s, t, wait, s')
    ensures Inv(s')
  {
    if !wait {
      HoldersChange(s.th, t, s'.th[t]);
      SameNodes(s, s');
      assert ThreadOk(s, t);
      assert NodeOk(s, s.th[t].k - 1) && Live(s, s.th[t].k - 1);
      forall u: nat | u < |s.th| && u != t ensures ThreadOk(s', u) && PairOk(s', t, u) && PairOk(s', u, t) {
        assert ThreadOk(s, u) && PairOk(s, t, u);
      }
      ThreadsKept(s, t, s');
    }
  }

  lemma ReadIncOk(s: State, t: nat, s': State)
    requires Inv(s) && ReadIncStep(s, t, s')
    ensures Inv(s')
  {
    HoldersChange(s.th, t, s'.th[t]);
    SameNodes(s, s');
    assert ThreadOk(s, t);
    forall u: nat | u < |s.th| && u != t ensures ThreadOk(s', u) && PairOk(s', t, u) && PairOk(s', u, t) {
      assert ThreadOk(s, u) && PairOk(s, t, u);
    }
    ThreadsKept(s, t, s');
  }

  /** An owner clears the flag of its node. */
  lemma ClearNodes(s: State, s': State, k: nat)
    requires Inv(s) && Turn(s, k)
    requires s'.mem == s.mem[s.queue[k] := false] && s'.queue == s.queue && s'.freed == s.freed && s'.cleared == k
    ensures forall i: nat | i < |s'.queue| :: NodeOk(s', i)
    ensures forall i: nat, j: nat | i < |s'.queue| && j < |s'.queue| :: Apart(s', i, j)
    ensures forall node :: Private(s, node) ==> Private(s', node)
  {
    assert Live(s, k);
    forall i: nat | i < |s'.queue| ensures NodeOk(s', i) {
      assert NodeOk(s, i) && Apart(s, i, k) && Live(s, i) == Live(s', i);
    }
    forall i: nat, j: nat | i < |s'.queue| && j < |s'.queue| ensures Apart(s', i, j) {
      assert Apart(s, i, j) && Live(s, i) == Live(s', i) && Live(s, j) == Live(s', j);
    }
    forall node | Private(s, node) ensures Private(s', node) {
      forall i: nat | Live(s', i) ensures s'.queue[i] != node {
        assert Live(s, i);
      }
    }
  }

  lemma OpenOk(s: State, t: nat, s': State)
    requires Inv(s) && (ReadOpenStep(s, t, s') || WriteOpenStep(s, t, s'))
    ensures Inv(s')
  {
    HoldersChange(s.th, t, s'.th[t]);
    assert ThreadOk(s, t);
    ClearNodes(s, s', s.th[t].k);
    forall u: nat | u < |s.th| && u != t ensures ThreadOk(s', u) && PairOk(s', t, u) && PairOk(s', u, t) {
      assert ThreadOk(s, u) && PairOk(s, t, u);
    }
    ThreadsKept(s, t, s');
  }

  /** The successor frees the node of position j. */
  lemma FreeNodes(s: State, s': State, j: nat)
    requires Inv(s) && Live(s, j)
    requires s'.mem == s.mem - {s.queue[j]} && s'.queue == s.queue && s'.freed == s.freed + {j}
             && s'.cleared == s.cleared
    ensures forall i: nat | i < |s'.queue| :: NodeOk(s', i)
    ensures forall i: nat, l: nat | i < |s'.queue| && l < |s'.queue| :: Apart(s', i, l)
    ensures forall node :: Private(s, node) ==> Private(s', node)
  {
    forall i: nat | i < |s'.queue| ensures NodeOk(s', i) {
      assert NodeOk(s, i) && Apart(s, i, j) && (Live(s', i) ==> Live(s, i));
    }
    forall i: nat, l: nat | i < |s'.queue| && l < |s'.queue| ensures Apart(s', i, l) {
      assert Apart(s, i, l) && (Live(s', i) ==> Live(s, i)) && (Live(s', l) ==> Live(s, l));
    }
    forall node | Private(s, node) ensures Private(s', node) {
      forall i: nat | Live(s', i) ensures s'.queue[i] != node {
        assert Live(s, i);
      }
    }
  }

  lemma FreeOk(s: State, t: nat, s': State)
    requires Inv(s) && FreeStep(s, t, s')
    ensures Inv(s')
  {
    hide Holders;
    HoldersChange(s.th, t, s'.th[t]);
    assert ThreadOk(s, t);
    FreeNodes(s, s', s.th[t].k - 1);
    forall u: nat | u < |s.th| && u != t ensures ThreadOk(s', u) && PairOk(s', t, u) && PairOk(s', u, t) {
      assert ThreadOk(s, u) && PairOk(s, t, u);
    }
    ThreadsKept(s, t, s');
  }

  lemma ReadUnlockOk(s: State, t: nat, s': State)
    requires Inv(s) && ReadUnlock(s, t, s')
    ensures Inv(s')
  {
    HoldersChange(s.th, t, s'.th[t]);
    HolderCounts(s.th, t);
    SameNodes(s, s');
    forall u: nat | u < |s.th| && u != t ensures ThreadOk(s', u) && PairOk(s', t, u) && PairOk(s', u, t) {
      assert ThreadOk(s, u) && PairOk(s, t, u);
    }
    ThreadsKept(s, t, s');
  }

  lemma WriterOk(s: State, t: nat, s': State)
    requires Inv(s) && (WaitReadersStep(s, t, s') || SetMineStep(s, t, s') || WriteUnlock(s, t, s'))
    ensures Inv(s')
  {
    if s' != s {
      HoldersChange(s.th, t, s'.th[t]);
      SameNodes(s, s');
      assert ThreadOk(s, t);
      forall u: nat | u < |s.th| && u != t ensures ThreadOk(s', u) && PairOk(s', t, u) && PairOk(s', u, t) {
        assert ThreadOk(s, u) && PairOk(s, t, u);
      }
      ThreadsKept(s, t, s');
    }
  }

  /* ------------------------------------------------------------------ runs */

  lemma InitOk(s: State)
    requires Init(s)
    ensures Inv(s)
  {
    assert Holders(s.th) == {};
  }

  lemma NextOk(s: State, s': State)
    requires Inv(s) && Next(s, s')
    ensures Inv(s')
  {
    hide Inv;
    if t: nat, write: bool, node: nat :| Create(s, t, write, node, s') {
      CreateOk(s, t, write, node, s');
    } else if t: nat, wait: bool :| WaitPrevStep(s, t, wait, s') {
      WaitPrevOk(s, t, wait, s');
    } else {
      var t: nat :| ThreadStep(s, t, s');
      if ExchangeStep(s, t, s') { ExchangeOk(s, t, s'); }
      else if ReadIncStep(s, t, s') { ReadIncOk(s, t, s'); }
      else if ReadOpenStep(s, t, s') || WriteOpenStep(s, t, s') { OpenOk(s, t, s'); }
      else if FreeStep(s, t, s') { FreeOk(s, t, s'); }
      else if ReadUnlock(s, t, s') { ReadUnlockOk(s, t, s'); }
      else { WriterOk(s, t, s'); }
    }
  }

  lemma {:induction false} RunOk(run: seq<State>, i: nat)
    requires Run(run) && i < |run|
    ensures Inv(run[i])
  {
    hide Inv, Next, Init;
    if i == 0 {
      InitOk(run[0]);
    } else {
      RunOk(run, i - 1);
      assert StepAt(run, i - 1);
      NextOk(run[i - 1], run[i]);
    }
  }

  /* --------------------------------------------------------------- theorems */

  /** A writer never holds the lock together with any other holder. */
  lemma Exclusion(run: seq<State>, i: nat, t: nat, u: nat)
    requires Run(run) && i < |run| && t < |run[i].th| && u < |run[i].th| && t != u
    requires HoldsWrite(run[i].th[t])
    ensures !HoldsWrite(run[i].th[u]) && !HoldsRead(run[i].th[u])
  {
    RunOk(run, i);
    var s := run[i];
    assert ThreadOk(s, t) && ThreadOk(s, u) && PairOk(s, t, u);
    if HoldsRead(s.th[u]) {
      HolderCounts(s.th, u);
    }
  }

  /** The counter is the number of readers that hold the lock. */
  lemma CounterIsExact(run: seq<State>, i: nat)
    requires Run(run) && i < |run|
    ensures run[i].readers == |Holders(run[i].th)|
  {
    RunOk(run, i);
  }

  /** The lock is granted in the order of the tail exchanges: the thread that stops waiting
      is the one whose exchange came right after that of the last one granted before. */
  lemma GrantedInOrder(run: seq<State>, i: nat, t: nat)
    requires Run(run) && i + 1 < |run| && WaitPrevStep(run[i], t, false, run[i + 1])
    ensures run[i].th[t].k == run[i].granted + 1 == run[i + 1].granted
    ensures run[i].cleared == run[i].granted
  {
    RunOk(run, i);
    var s := run[i];
    assert ThreadOk(s, t);
    assert NodeOk(s, s.th[t].k - 1) && Live(s, s.th[t].k - 1);
  }

  /** The exchange hands out the next position. */
  lemma ExchangeOrder(run: seq<State>, i: nat, t: nat)
    requires Run(run) && i + 1 < |run| && ExchangeStep(run[i], t, run[i + 1])
    ensures run[i + 1].th[t].k == |run[i].queue| && |run[i + 1].queue| == |run[i].queue| + 1
    ensures |run[i].queue| > 0 && run[i + 1].th[t].prev == run[i].queue[|run[i].queue| - 1]
    ensures run[i + 1].granted < run[i + 1].th[t].k
  {
    RunOk(run, i);
  }

  /** Every cell that is read, written or freed is allocated at that time, and is the node
      of the position it is meant to be. */
  lemma AccessesAreSafe(run: seq<State>, i: nat, t: nat)
    requires Run(run) && i < |run| && t < |run[i].th|
    ensures var s := run[i]; var pc := s.th[t];
            && (OwesFree(pc) ==> 1 <= pc.k <= |s.queue| && pc.prev == s.queue[pc.k - 1] && pc.prev in s.mem)
            && (pc.ReadOpen? || pc.WriteOpen? ==> pc.k < |s.queue| && pc.node == s.queue[pc.k] && pc.node in s.mem)
  {
    RunOk(run, i);
    var s := run[i];
    var pc := s.th[t];
    assert ThreadOk(s, t);
    if OwesFree(pc) {
      assert Live(s, pc.k - 1) && NodeOk(s, pc.k - 1);
    }
    if pc.ReadOpen? || pc.WriteOpen? {
      assert Live(s, pc.k) && NodeOk(s, pc.k);
    }
  }

  /** A node is freed by the owner of the next position, after its own owner has cleared its
      flag, and it was not freed before. */
  lemma FreedOnceBySuccessor(run: seq<State>, i: nat, t: nat)
    requires Run(run) && i + 1 < |run| && FreeStep(run[i], t, run[i + 1])
    ensures var k := run[i].th[t].k;
            && k >= 1 && k - 1 !in run[i].freed && run[i + 1].freed == run[i].freed + {k - 1}
            && k - 1 <= run[i].cleared
            && forall u: nat | u < |run[i].th| && u != t && Queued(run[i].th[u]) ::
                 run[i].th[u].k != k && (run[i].th[u].k == k - 1 ==> run[i].th[u].ReadFree?)
  {
    RunOk(run, i);
    var s := run[i];
    assert ThreadOk(s, t);
    forall u: nat | u < |s.th| && u != t && Queued(s.th[u])
      ensures s.th[u].k != s.th[t].k && (s.th[u].k == s.th[t].k - 1 ==> s.th[u].ReadFree?)
    {
      assert PairOk(s, t, u) && ThreadOk(s, u);
    }
  }

  lemma StepFreed(s: State, s': State)
    requires Next(s, s')
    ensures s.freed <= s'.freed
  {
  }

  /** What is freed stays recorded, so no position is freed twice in a run. */
  lemma {:induction false} FreedForEver(run: seq<State>, i: nat, j: nat)
    requires Run(run) && i <= j < |run|
    ensures run[i].freed <= run[j].freed
    decreases j - i
  {
    hide Next, Init;
    if i < j {
      FreedForEver(run, i, j - 1);
      assert StepAt(run, j - 1);
      StepFreed(run[j - 1], run[j]);
    }
  }

  lemma NeverFreedTwice(run: seq<State>, i: nat, j: nat, t: nat, u: nat)
    requires Run(run) && i < j && j + 1 < |run| && FreeStep(run[i], t, run[i + 1]) && FreeStep(run[j], u, run[j + 1])
    ensures run[i].th[t].k != run[j].th[u].k
  {
    FreedOnceBySuccessor(run, i, t);
    FreedOnceBySuccessor(run, j, u);
    FreedForEver(run, i + 1, j);
  }
}
