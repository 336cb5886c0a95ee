/** RLU write-set logs: each thread writes copies of objects into a ring of logs, commits
    them, and before it writes them back waits for the sections that might miss them.  A
    transition system with one access to shared memory per step. */
module RluModel {

  /** A version number; a thread that is not synchronizing has the greatest. */
  datatype Version = Max | V(n: nat)

  /** The log with counter c of thread tid. */
  datatype Log = Log(tid: nat, c: nat)

  datatype Lock = Free | LockedBy(log: Log)

  /** Who a synchronizing thread waits for. */
  datatype WaitEntry = WaitEntry(wait: bool, run: nat)

  datatype Pc =
    | Idle
    | ReadWriter                 // in rlu_register_thread, run_counter is odd
    | ReadCommit
    | In                         // the body of the section
    | Deref(log: Log)            // holds a copy pointer of another thread
    | TryLock(o: nat)
    | Commit
    | SyncRead
    | SyncStore(v: nat)
    | SyncAdd
    | Scan(i: nat)
    | Wait(i: nat)
    | Reset(c: nat)
    | Writeback(c: nat)
    | SyncEnd
    | CommitAdd

  /** seen, stolen, sync and wroteBack are ghost: the logs whose copy pointers the thread
      got hold of in its present section, those it stole a copy from, how many times it
      synchronized, and in which of these each of its logs was written back. */
  datatype Thread = Thread(
    ready: bool,
    run: nat,
    localV: nat,
    localC: nat,
    steal: bool,
    written: bool,
    writerV: Version,
    head: nat,
    wb: nat,
    tail: nat,
    q: seq<WaitEntry>,
    pc: Pc,
    seen: set<Log>,
    stolen: set<Log>,
    sync: nat,
    wroteBack: map<nat, nat>
  )

  datatype State = State(
    th: seq<Thread>,
    locks: seq<Lock>,
    writerVersion: nat,
    commitVersion: nat,
    ring: nat,                   // RLU_MAX_WRITE_SETS
    maxSets: nat                 // max_write_sets
  )

  ghost predicate Init(s: State) {
    && s.writerVersion == 0 && s.commitVersion == 0 && s.maxSets >= 1 && 2 * s.maxSets <= s.ring
    && (forall o | 0 <= o < |s.locks| :: s.locks[o] == Free)
    && forall t | 0 <= t < |s.th| ::
         && |s.th[t].q| == |s.th|
         && s.th[t] == Thread(false, 0, 0, 0, false, false, Max, 0, 0, 0, s.th[t].q, Idle, {}, {}, 0, map[])
  }

  function Set(s: State, t: nat, x: Thread): State
    requires t < |s.th|
  {
    s.(th := s.th[t := x])
  }

  ghost predicate At(s: State, t: nat, pc: Pc) {
    t < |s.th| && s.th[t].pc == pc
  }

  /** The end of `rlu_thread_init`. */
  ghost predicate ThreadInit(s: State, t: nat, s': State) {
    t < |s.th| && !s.th[t].ready && s' == Set(s, t, s.th[t].(ready := true))
  }

  /* --------------------------------------------------------------- sections */

  /** `rlu_reader_lock`: run_counter becomes odd, then the two versions are read. */
  ghost predicate Register(s: State, t: nat, s': State) {
    && At(s, t, Idle) && s.th[t].ready
    && s' == Set(s, t, s.th[t].(run := s.th[t].run + 1, written := false, pc := ReadWriter))
  }

  ghost predicate ReadWriterStep(s: State, t: nat, s': State) {
    At(s, t, ReadWriter) && s' == Set(s, t, s.th[t].(localV := s.writerVersion, pc := ReadCommit))
  }

  ghost predicate ReadCommitStep(s: State, t: nat, s': State) {
    && At(s, t, ReadCommit)
    && s' == Set(s, t, s.th[t].(localC := s.commitVersion, steal := s.th[t].localV != s.commitVersion, pc := In))
  }

  /** The header of object o is read and names a log of another thread: by
      `rlu_deref_slow_path`, which goes on to Deref, or by `rlu_try_lock`, which fails. */
  ghost predicate ReadHeader(s: State, t: nat, o: nat, s': State) {
    && At(s, t, In) && o < |s.locks| && s.locks[o].LockedBy? && s.locks[o].log.tid != t
    && var x := s.th[t].(seen := s.th[t].seen + {s.locks[o].log});
    && (s' == Set(s, t, x.(pc := Deref(s.locks[o].log))) || s' == Set(s, t, x))
  }

  /** The rest of `rlu_deref_slow_path`: the copy is stolen or the object itself is used. */
  ghost predicate StealStep(s: State, t: nat, s': State) {
    && t < |s.th| && s.th[t].pc.Deref? && s.th[t].pc.log.tid < |s.th|
    && var x := s.th[t];
    && var v := s.th[x.pc.log.tid].writerV;
    && s' == Set(s, t, x.(pc := In,
                          stolen := if x.steal && v.V? && v.n <= x.localV then x.stolen + {x.pc.log} else x.stolen))
  }

  /** `rlu_try_lock` finds the object free, and adds a header to the current log. */
  ghost predicate TryLockRead(s: State, t: nat, o: nat, s': State) {
    At(s, t, In) && o < |s.locks| && s.locks[o] == Free && s' == Set(s, t, s.th[t].(written := true, pc := TryLock(o)))
  }

  ghost predicate TryLockCas(s: State, t: nat, s': State) {
    && t < |s.th| && s.th[t].pc.TryLock? && s.th[t].pc.o < |s.locks|
    && var o := s.th[t].pc.o;
    && var s1 := Set(s, t, s.th[t].(pc := In));
    && s' == if s.locks[o] == Free then s1.(locks := s.locks[o := LockedBy(Log(t, s.th[t].tail))]) else s1
  }

  /** `rlu_reader_unlock`. */
  ghost predicate Unregister(s: State, t: nat, s': State) {
    && At(s, t, In)
    && s' == Set(s, t, s.th[t].(run := s.th[t].run + 1, seen := {}, stolen := {},
                                pc := if s.th[t].written then Commit else Idle))
  }

  /** `rlu_commit_write_set`. */
  ghost predicate CommitStep(s: State, t: nat, s': State) {
    && At(s, t, Commit) && s.ring > 0
    && var x := s.th[t].(tail := s.th[t].tail + 1, written := false);
    && var full := x.tail % s.ring == x.head % s.ring || x.tail - x.wb >= s.maxSets;
    && s' == Set(s, t, x.(pc := if full then SyncRead else Idle))
  }

  /* -------------------------------------------------- rlu_sync_and_writeback */

  /** A sync at a checkpoint, between sections. */
  ghost predicate SyncBegin(s: State, t: nat, s': State) {
    At(s, t, Idle) && s.th[t].ready && s' == Set(s, t, s.th[t].(pc := SyncRead))
  }

  ghost predicate SyncReadStep(s: State, t: nat, s': State) {
    && At(s, t, SyncRead)
    && var x := s.th[t];
    && s' == Set(s, t, if x.tail == x.head then x.(pc := Idle)
                       else x.(sync := x.sync + 1, pc := SyncStore(s.writerVersion)))
  }

  ghost predicate SyncStoreStep(s: State, t: nat, s': State) {
    && t < |s.th| && s.th[t].pc.SyncStore?
    && s' == Set(s, t, s.th[t].(writerV := V(s.th[t].pc.v + 1), pc := SyncAdd))
  }

  ghost predicate SyncAddStep(s: State, t: nat, s': State) {
    At(s, t, SyncAdd) && s' == Set(s, t, s.th[t].(pc := Scan(0))).(writerVersion := s.writerVersion + 1)
  }

  /** `rlu_init_quiescence` looks at one thread. */
  ghost predicate ScanStep(s: State, t: nat, s': State) {
    && t < |s.th| && s.th[t].pc.Scan?
    && var x := s.th[t];
    && var i := x.pc.i;
    && s' == if i >= |s.th| then Set(s, t, x.(pc := Wait(0)))
             else
               var e := if i == t || !s.th[i].ready then WaitEntry(false, if i < |x.q| then x.q[i].run else 0)
                        else WaitEntry(s.th[i].run % 2 == 1, s.th[i].run);
               Set(s, t, x.(q := if i < |x.q| then x.q[i := e] else x.q, pc := Scan(i + 1)))
  }

  /** `rlu_wait_for_quiescence` goes on to the next thread. */
  ghost predicate WaitNext(s: State, t: nat, s': State) {
    && t < |s.th| && s.th[t].pc.Wait?
    && var x := s.th[t];
    && var i := x.pc.i;
    && (i < |x.q| ==> !x.q[i].wait)
    && s' == Set(s, t, x.(pc := if i >= |x.q| then Reset(x.head) else Wait(i + 1)))
  }

  /** It reads the run counter of the thread it waits for. */
  ghost predicate WaitRun(s: State, t: nat, s': State) {
    && t < |s.th| && s.th[t].pc.Wait? && s.th[t].pc.i < |s.th[t].q| && s.th[t].pc.i < |s.th|
    && var x := s.th[t];
    && var i := x.pc.i;
    && x.q[i].wait && s.th[i].run != x.q[i].run
    && s' == Set(s, t, x.(q := x.q[i := x.q[i].(wait := false)]))
  }

  /** It reads the local version of the thread it waits for. */
  ghost predicate WaitVersion(s: State, t: nat, s': State) {
    && t < |s.th| && s.th[t].pc.Wait? && s.th[t].pc.i < |s.th[t].q| && s.th[t].pc.i < |s.th|
    && var x := s.th[t];
    && var i := x.pc.i;
    && x.q[i].wait && x.writerV.V? && s.th[i].localV >= x.writerV.n
    && s' == Set(s, t, x.(q := x.q[i := x.q[i].(wait := false)]))
  }

  /** One log that was written back by the previous sync is reset. */
  ghost predicate ResetLog(s: State, t: nat, s': State) {
    && t < |s.th| && s.th[t].pc.Reset? && s.th[t].pc.c < s.th[t].wb
    && s' == Set(s, t, s.th[t].(pc := Reset(s.th[t].pc.c + 1)))
  }

  ghost predicate ResetDone(s: State, t: nat, s': State) {
    && t < |s.th| && s.th[t].pc.Reset? && s.th[t].pc.c >= s.th[t].wb
    && s' == Set(s, t, s.th[t].(head := s.th[t].wb, pc := Writeback(s.th[t].wb)))
  }

  /** One object of the log is copied back and unlocked. */
  ghost predicate UnlockObject(s: State, t: nat, o: nat, s': State) {
    && t < |s.th| && s.th[t].pc.Writeback? && s.th[t].pc.c < s.th[t].tail
    && o < |s.locks| && s.locks[o] == LockedBy(Log(t, s.th[t].pc.c))
    && s' == s.(locks := s.locks[o := Free])
  }

  ghost predicate WritebackNext(s: State, t: nat, s': State) {
    && t < |s.th| && s.th[t].pc.Writeback?
    && var x := s.th[t];
    && var c := x.pc.c;
    && if c < x.tail
       then (forall o | 0 <= o < |s.locks| :: s.locks[o] != LockedBy(Log(t, c)))
            && s' == Set(s, t, x.(wroteBack := x.wroteBack[c := x.sync], pc := Writeback(c + 1)))
       else s' == Set(s, t, x.(wb := x.tail, pc := SyncEnd))
  }

  ghost predicate SyncEndStep(s: State, t: nat, s': State) {
    At(s, t, SyncEnd) && s' == Set(s, t, s.th[t].(writerV := Max, pc := CommitAdd))
  }

  ghost predicate CommitAddStep(s: State, t: nat, s': State) {
    At(s, t, CommitAdd) && s' == Set(s, t, s.th[t].(pc := Idle)).(commitVersion := s.commitVersion + 1)
  }

  /* ------------------------------------------------------------------- runs */

  ghost predicate SectionStep(s: State, t: nat, s': State) {
    || ThreadInit(s, t, s') || Register(s, t, s') || ReadWriterStep(s, t, s') || ReadCommitStep(s, t, s')
    || StealStep(s, t, s') || Unregister(s, t, s') || CommitStep(s, t, s')
  }

  ghost predicate SyncStep(s: State, t: nat, s': State) {
    || SyncBegin(s, t, s') || SyncReadStep(s, t, s') || SyncStoreStep(s, t, s') || SyncAddStep(s, t, s')
    || SyncEndStep(s, t, s') || CommitAddStep(s, t, s')
  }

  ghost predicate QuiesceStep(s: State, t: nat, s': State) {
    ScanStep(s, t, s') || WaitNext(s, t, s') || WaitRun(s, t, s') || WaitVersion(s, t, s')
  }

  ghost predicate LogStep(s: State, t: nat, s': State) {
    ResetLog(s, t, s') || ResetDone(s, t, s') || WritebackNext(s, t, s') || TryLockCas(s, t, s')
  }

  ghost predicate ObjectStep(s: State, t: nat, o: nat, s': State) {
    ReadHeader(s, t, o, s') || TryLockRead(s, t, o, s') || UnlockObject(s, t, o, s')
  }

  ghost predicate Next(s: State, s': State) {
    || (exists t: nat :: SectionStep(s, t, s') || SyncStep(s, t, s') || QuiesceStep(s, t, s') || LogStep(s, t, s'))
    || (exists t: nat, o: nat :: ObjectStep(s, t, o, s'))
  }

  ghost predicate StepAt(run: seq<State>, i: nat) {
    i + 1 < |run| && Next(run[i], run[i + 1])
  }

  /** A run: any finite interleaving from an initial state. */
  ghost predicate Run(run: seq<State>) {
    |run| > 0 && Init(run[0]) && forall i: nat | i + 1 < |run| :: StepAt(run, i)
  }
}

/** Logs are reused only when nobody can still look at them. */
module RluSafety {

  import opened RluModel

  /* ------------------------------------------------------------- invariant */

  predicate InSection(pc: Pc) {
    pc.ReadWriter? || pc.ReadCommit? || pc.In? || pc.Deref? || pc.TryLock?
  }

  /** The body of a section, where copy pointers may be held. */
  predicate InBody(pc: Pc) {
    pc.In? || pc.Deref? || pc.TryLock?
  }

  /** From the read of the global version to the end of the write-back. */
  predicate Syncing(pc: Pc) {
    pc.SyncStore? || pc.SyncAdd? || pc.Scan? || pc.Wait? || pc.Reset? || pc.Writeback?
  }

  /** The first log whose objects may still be locked. */
  function Low(x: Thread): nat {
    if x.pc.Writeback? then x.pc.c else x.wb
  }

  ghost predicate CountersOk(s: State, x: Thread) {
    && x.head <= x.wb <= x.tail && x.wb - x.head <= s.maxSets && x.tail - x.wb <= s.maxSets
    && (x.tail - x.wb == s.maxSets ==> x.pc.SyncRead? || Syncing(x.pc))
    && (x.pc.Reset? ==> x.head <= x.pc.c <= x.wb)
    && (x.pc.Writeback? ==> x.head == x.wb <= x.pc.c <= x.tail)
    && (x.pc.SyncAdd? || x.pc.Scan? || x.pc.Wait? || x.pc.Reset? || x.pc.Writeback? ==> x.writerV.V?)
    && |x.q| == |s.th|
  }

  /** Logs below the write-back mark were written back by an earlier sync. */
  ghost predicate WroteOk(x: Thread) {
    forall c: nat | c < Low(x) ::
      c in x.wroteBack && (if Syncing(x.pc) && c < x.wb then x.wroteBack[c] < x.sync else x.wroteBack[c] <= x.sync)
  }

  ghost predicate ThreadOk(s: State, x: Thread) {
    && CountersOk(s, x) && WroteOk(x)
    && (x.run % 2 == 1 <==> InSection(x.pc))
    && x.localV <= s.writerVersion
    && (x.written ==> InBody(x.pc) || x.pc.Commit?)
    && (x.pc.TryLock? ==> x.written)
    && (x.seen != {} ==> InBody(x.pc) && x.ready) && x.stolen <= x.seen
    && (x.pc.Deref? ==> x.pc.log in x.seen)
    && (x.pc.SyncStore? ==> x.pc.v <= s.writerVersion)
    && (!x.ready ==> x.pc == Idle)
  }

  ghost predicate LockOk(s: State, o: nat)
    requires o < |s.locks|
  {
    s.locks[o].LockedBy? ==>
      var log := s.locks[o].log;
      && log.tid < |s.th|
      && var x := s.th[log.tid];
      && Low(x) <= log.c <= x.tail && (log.c == x.tail ==> x.written)
  }

  /** What keeps the owner x from resetting logs it has written back while thread u, whose
      section got hold of one of them before the write-back, is in that section. */
  ghost predicate Guarded(x: Thread, y: Thread, u: nat) {
    match x.pc
    case SyncStore(v) => y.localV <= v
    case SyncAdd => x.writerV.V? && y.localV < x.writerV.n
    case Scan(i) =>
      x.writerV.V? && y.localV < x.writerV.n && (u < i ==> u < |x.q| && x.q[u] == WaitEntry(true, y.run))
    case Wait(i) =>
      x.writerV.V? && y.localV < x.writerV.n && i <= u < |x.q| && x.q[u] == WaitEntry(true, y.run)
    case Reset(_) => false
    case Writeback(_) => false
    case _ => true
  }

  ghost predicate SeenOk(s: State, u: nat, log: Log)
    requires u < |s.th|
  {
    && log.tid < |s.th| && log.tid != u
    && var x := s.th[log.tid];
    && x.head <= log.c <= x.tail && (log.c < x.wb ==> Guarded(x, s.th[u], u))
  }

  ghost predicate Inv(s: State) {
    && s.maxSets >= 1 && 2 * s.maxSets <= s.ring
    && (forall t: nat | t < |s.th| :: ThreadOk(s, s.th[t]))
    && (forall o: nat | o < |s.locks| :: LockOk(s, o))
    && (forall u: nat, log | u < |s.th| && log in s.th[u].seen :: SeenOk(s, u, log))
  }

  /* ------------------------------------------------------------------ steps */

  /** Only thread t changes, the versions do not go back, and the locks are the same. */
  ghost predicate Acts(s: State, t: nat, s': State) {
    && t < |s.th| == |s'.th| && s'.th == s.th[t := s'.th[t]] && s'.locks == s.locks
    && s'.maxSets == s.maxSets && s'.ring == s.ring
    && s.writerVersion <= s'.writerVersion
  }

  /** The owner's side of what the others rely on. */
  ghost predicate OwnerKeeps(s: State, t: nat, s': State)
    requires t < |s.th| && t < |s'.th|
  {
    var x, x' := s.th[t], s'.th[t];
    && Low(x') <= Low(x) && x.tail <= x'.tail && (x.written ==> x'.written || x.tail < x'.tail)
    && forall u: nat, log | u < |s.th| && log in s.th[u].seen && log.tid == t && u != t && SeenOk(s, u, log) ::
         x'.head <= log.c <= x'.tail && (log.c < x'.wb ==> Guarded(x', s.th[u], u))
  }

  /** The acting thread's own pointers. */
  ghost predicate ReaderKeeps(s: State, t: nat, s': State)
    requires t < |s.th| && t < |s'.th|
  {
    && s'.th[t].seen <= s.th[t].seen
    && (s'.th[t].seen != {} ==> s'.th[t].run == s.th[t].run && s'.th[t].localV == s.th[t].localV)
  }

  lemma ActsOk(s: State, t: nat, s': State)
    requires Inv(s) && Acts(s, t, s') && ThreadOk(s', s'.th[t]) && OwnerKeeps(s, t, s') && ReaderKeeps(s, t, s')
    ensures Inv(s')
  {
    hide WroteOk;
    forall u: nat | u < |s'.th| ensures ThreadOk(s', s'.th[u]) {
      assert ThreadOk(s, s.th[u]);
    }
    forall o: nat | o < |s'.locks| ensures LockOk(s', o) {
      assert LockOk(s, o);
    }
    forall u: nat, log | u < |s'.th| && log in s'.th[u].seen ensures SeenOk(s', u, log) {
      assert SeenOk(s, u, log);
    }
  }

  /** A step after which the owner is no closer to a reset. */
  lemma SameOwner(s: State, t: nat, s': State)
    requires Inv(s) && Acts(s, t, s')
    requires var x, x' := s.th[t], s'.th[t];
             && x'.head == x.head && x'.wb == x.wb && x.tail <= x'.tail && Low(x') <= Low(x)
             && (x.written ==> x'.written || x.tail < x'.tail)
             && (!Syncing(x'.pc) || (x'.pc == x.pc && x'.q == x.q && x'.writerV == x.writerV))
    ensures OwnerKeeps(s, t, s')
  {
  }

  lemma CommitThread(s: State, t: nat, s': State)
    requires t < |s.th| && t < |s'.th| && ThreadOk(s, s.th[t]) && CommitStep(s, t, s')
    ensures ThreadOk(s', s'.th[t])
  {
    hide Init, Guarded;
    var x, x' := s.th[t], s'.th[t];
    assert CountersOk(s', x');
    assert WroteOk(x');
  }

  /** The steps of a section but the commit keep the log counters. */
  lemma SectionThread(s: State, t: nat, s': State)
    requires t < |s.th| && t < |s'.th| && ThreadOk(s, s.th[t]) && SectionStep(s, t, s') && !CommitStep(s, t, s')
    ensures ThreadOk(s', s'.th[t])
  {
    hide Init, Guarded, CommitStep;
    var x, x' := s.th[t], s'.th[t];
    assert |s'.th| == |s.th| && s'.writerVersion == s.writerVersion;
    assert x'.head == x.head && x'.wb == x.wb && x'.tail == x.tail && x'.q == x.q;
    assert CountersOk(s', x');
    assert WroteOk(x');
    hide CountersOk, WroteOk;
  }

  lemma SectionActs(s: State, t: nat, s': State)
    requires SectionStep(s, t, s')
    ensures Acts(s, t, s') && s'.th[t].seen <= s.th[t].seen
  {
  }

  lemma SectionReader(s: State, t: nat, s': State)
    requires SectionStep(s, t, s') && Acts(s, t, s') && ThreadOk(s, s.th[t])
    ensures ReaderKeeps(s, t, s')
  {
    hide WroteOk, CountersOk;
    SectionActs(s, t, s');
  }

  lemma SectionKeeps(s: State, t: nat, s': State)
    requires Inv(s) && SectionStep(s, t, s') && Acts(s, t, s')
    ensures OwnerKeeps(s, t, s') && ReaderKeeps(s, t, s')
  {
    assert ThreadOk(s, s.th[t]);
    SectionReader(s, t, s');
    hide WroteOk, CountersOk, LockOk, SeenOk, Inv, OwnerKeeps, ReaderKeeps;
    SameOwner(s, t, s');
  }

  lemma SectionOk(s: State, t: nat, s': State)
    requires Inv(s) && SectionStep(s, t, s')
    ensures Inv(s')
  {
    SectionActs(s, t, s');
    assert ThreadOk(s, s.th[t]);
    SectionKeeps(s, t, s');
    if CommitStep(s, t, s') {
      CommitThread(s, t, s');
    } else {
      SectionThread(s, t, s');
    }
    hide ThreadOk, LockOk, SeenOk, Inv, OwnerKeeps, ReaderKeeps, SectionStep;
    ActsOk(s, t, s');
  }

  lemma SyncReadOk(s: State, t: nat, s': State)
    requires Inv(s) && (SyncBegin(s, t, s') || SyncReadStep(s, t, s'))
    ensures Inv(s')
  {
    assert ThreadOk(s, s.th[t]);
    forall u: nat, log | u < |s.th| && log in s.th[u].seen && log.tid == t && SeenOk(s, u, log)
      ensures log.c < s'.th[t].wb ==> Guarded(s'.th[t], s.th[u], u)
    {
      assert ThreadOk(s, s.th[u]);
    }
    assert OwnerKeeps(s, t, s');
    ActsOk(s, t, s');
  }

  lemma SyncStepOk(s: State, t: nat, s': State)
    requires Inv(s) && SyncStep(s, t, s')
    ensures Inv(s')
  {
    hide Inv;
    if SyncBegin(s, t, s') || SyncReadStep(s, t, s') {
      SyncReadOk(s, t, s');
    } else {
      SyncRestOk(s, t, s');
    }
  }

  lemma SyncVersionOk(s: State, t: nat, s': State)
    requires Inv(s) && (SyncStoreStep(s, t, s') || SyncAddStep(s, t, s'))
    ensures Inv(s')
  {
    hide Init, LockOk;
    assert ThreadOk(s, s.th[t]);
    assert OwnerKeeps(s, t, s');
    ActsOk(s, t, s');
  }

  lemma SyncRestOk(s: State, t: nat, s': State)
    requires Inv(s)
    requires SyncStoreStep(s, t, s') || SyncAddStep(s, t, s') || SyncEndStep(s, t, s') || CommitAddStep(s, t, s')
    ensures Inv(s')
  {
    hide SyncAddStep, Init, LockOk;
    if SyncStoreStep(s, t, s') || SyncAddStep(s, t, s') {
      SyncVersionOk(s, t, s');
    } else {
      assert ThreadOk(s, s.th[t]);
      assert OwnerKeeps(s, t, s');
      ActsOk(s, t, s');
    }
  }

  lemma ScanOk(s: State, t: nat, s': State)
    requires Inv(s) && ScanStep(s, t, s')
    ensures Inv(s')
  {
    assert ThreadOk(s, s.th[t]);
    forall u: nat, log | u < |s.th| && log in s.th[u].seen && log.tid == t && u != t && SeenOk(s, u, log)
      ensures log.c < s'.th[t].wb ==> Guarded(s'.th[t], s.th[u], u)
    {
      assert ThreadOk(s, s.th[u]);
    }
    assert OwnerKeeps(s, t, s');
    ActsOk(s, t, s');
  }

  lemma WaitOk(s: State, t: nat, s': State)
    requires Inv(s) && (WaitNext(s, t, s') || WaitRun(s, t, s') || WaitVersion(s, t, s'))
    ensures Inv(s')
  {
    assert ThreadOk(s, s.th[t]);
    forall u: nat, log | u < |s.th| && log in s.th[u].seen && log.tid == t && u != t && SeenOk(s, u, log)
      ensures log.c < s'.th[t].wb ==> Guarded(s'.th[t], s.th[u], u)
    {
      assert ThreadOk(s, s.th[u]);
    }
    assert OwnerKeeps(s, t, s');
    ActsOk(s, t, s');
  }

  lemma ResetOk(s: State, t: nat, s': State)
    requires Inv(s) && (ResetLog(s, t, s') || ResetDone(s, t, s'))
    ensures Inv(s')
  {
    assert ThreadOk(s, s.th[t]);
    assert OwnerKeeps(s, t, s');
    ActsOk(s, t, s');
  }

  lemma OthersOk(s: State, t: nat, s': State)
    requires Inv(s) && t < |s.th| == |s'.th| && s'.th == s.th[t := s'.th[t]]
    requires s'.writerVersion == s.writerVersion && s'.maxSets == s.maxSets && ThreadOk(s', s'.th[t])
    ensures forall u: nat | u < |s'.th| :: ThreadOk(s', s'.th[u])
  {
    hide WroteOk, LockOk, SeenOk, Init;
    forall u: nat | u < |s'.th| ensures ThreadOk(s', s'.th[u]) {
      assert ThreadOk(s, s.th[u]);
    }
  }

  lemma WritebackThread(s: State, t: nat, s': State)
    requires t < |s.th| && t < |s'.th| && s.maxSets >= 1 && ThreadOk(s, s.th[t]) && WritebackNext(s, t, s')
    ensures ThreadOk(s', s'.th[t])
  {
  }

  /** The write-back moves on: the locks of the finished log are all gone. */
  lemma WritebackOk(s: State, t: nat, s': State)
    requires Inv(s) && WritebackNext(s, t, s')
    ensures Inv(s')
  {
    hide Syncing;
    assert ThreadOk(s, s.th[t]);
    WritebackThread(s, t, s');
    OthersOk(s, t, s');
    hide WroteOk, CountersOk, Init;
    forall o: nat | o < |s'.locks| ensures LockOk(s', o) {
      assert LockOk(s, o);
    }
    forall u: nat, log | u < |s'.th| && log in s'.th[u].seen ensures SeenOk(s', u, log) {
      assert SeenOk(s, u, log);
    }
  }

  /** A lock changes, or a thread gets hold of a copy pointer. */
  lemma LockStepOk(s: State, t: nat, s': State)
    requires Inv(s) && TryLockCas(s, t, s')
    ensures Inv(s')
  {
    assert ThreadOk(s, s.th[t]);
    assert ThreadOk(s', s'.th[t]);
    OthersOk(s, t, s');
    hide WroteOk, Init, CountersOk;
    forall o: nat | o < |s'.locks| ensures LockOk(s', o) {
      assert LockOk(s, o);
    }
    forall u: nat, log | u < |s'.th| && log in s'.th[u].seen ensures SeenOk(s', u, log) {
      assert SeenOk(s, u, log);
    }
  }

  lemma ReadHeaderSeen(s: State, t: nat, o: nat, s': State, u: nat, log: Log)
    requires Inv(s) && ReadHeader(s, t, o, s') && u < |s'.th| && log in s'.th[u].seen
    ensures SeenOk(s', u, log)
  {
    hide WroteOk;
    assert LockOk(s, o) && ThreadOk(s, s.th[s.locks[o].log.tid]);
    assert log in s.th[u].seen ==> SeenOk(s, u, log);
  }

  lemma ReadHeaderOk(s: State, t: nat, o: nat, s': State)
    requires Inv(s) && ReadHeader(s, t, o, s')
    ensures Inv(s')
  {
    hide SeenOk;
    forall u: nat | u < |s'.th| ensures ThreadOk(s', s'.th[u]) {
      assert ThreadOk(s, s.th[u]);
    }
    forall p: nat | p < |s'.locks| ensures LockOk(s', p) {
      assert LockOk(s, p);
    }
    forall u: nat, log | u < |s'.th| && log in s'.th[u].seen ensures SeenOk(s', u, log) {
      ReadHeaderSeen(s, t, o, s', u, log);
    }
  }

  lemma TryLockReadOk(s: State, t: nat, o: nat, s': State)
    requires Inv(s) && TryLockRead(s, t, o, s')
    ensures Inv(s')
  {
    assert ThreadOk(s, s.th[t]);
    SameOwner(s, t, s');
    ActsOk(s, t, s');
  }

  lemma UnlockObjectOk(s: State, t: nat, o: nat, s': State)
    requires Inv(s) && UnlockObject(s, t, o, s')
    ensures Inv(s')
  {
    hide WroteOk;
    forall u: nat | u < |s'.th| ensures ThreadOk(s', s'.th[u]) {
      assert ThreadOk(s, s.th[u]);
    }
    forall p: nat | p < |s'.locks| ensures LockOk(s', p) {
      assert LockOk(s, p);
    }
    forall u: nat, log | u < |s'.th| && log in s'.th[u].seen ensures SeenOk(s', u, log) {
      assert SeenOk(s, u, log);
    }
  }

  /* ------------------------------------------------------------------ runs */

  lemma InitOk(s: State)
    requires Init(s)
    ensures Inv(s)
  {
  }

  lemma NextOk(s: State, s': State)
    requires Inv(s) && Next(s, s')
    ensures Inv(s')
  {
    hide Inv, SectionStep, SyncStep, QuiesceStep, ObjectStep;
    if t: nat :| SectionStep(s, t, s') {
      SectionOk(s, t, s');
    } else if t: nat :| SyncStep(s, t, s') {
      SyncStepOk(s, t, s');
    } else if t: nat :| QuiesceStep(s, t, s') {
      QuiesceOk(s, t, s');
    } else if t: nat :| LogStep(s, t, s') {
      LogStepOk(s, t, s');
    } else {
      var t: nat, o: nat :| ObjectStep(s, t, o, s');
      ObjectOk(s, t, o, s');
    }
  }

  lemma ObjectOk(s: State, t: nat, o: nat, s': State)
    requires Inv(s) && ObjectStep(s, t, o, s')
    ensures Inv(s')
  {
    hide Inv;
    if ReadHeader(s, t, o, s') {
      ReadHeaderOk(s, t, o, s');
    } else if TryLockRead(s, t, o, s') {
      TryLockReadOk(s, t, o, s');
    } else {
      UnlockObjectOk(s, t, o, s');
    }
  }

  lemma QuiesceOk(s: State, t: nat, s': State)
    requires Inv(s) && QuiesceStep(s, t, s')
    ensures Inv(s')
  {
    hide Inv;
    if ScanStep(s, t, s') { ScanOk(s, t, s'); } else { WaitOk(s, t, s'); }
  }

  lemma LogStepOk(s: State, t: nat, s': State)
    requires Inv(s) && LogStep(s, t, s')
    ensures Inv(s')
  {
    hide Inv;
    if ResetLog(s, t, s') || ResetDone(s, t, s') {
      ResetOk(s, t, s');
    } else if WritebackNext(s, t, s') {
      WritebackOk(s, t, s');
    } else {
      LockStepOk(s, t, s');
    }
  }

  lemma {:induction false} RunOk(run: seq<State>, i: nat)
    requires Run(run) && i < |run|
    ensures Inv(run[i])
  {
    hide Inv, Next, Init;
    if i == 0 {
      InitOk(run[0]);
    } else {
      RunOk(run, i - 1);
      assert StepAt(run, i - 1);
      NextOk(run[i - 1], run[i]);
    }
  }

  /* ------------------------------------------------- readers of old versions */

  /** The thread has read the version its section runs at. */
  predicate Versioned(pc: Pc) {
    InBody(pc) || pc.ReadCommit?
  }

  ghost predicate NotOld(x: Thread, y: Thread) {
    Versioned(y.pc) ==> x.writerV.V? && y.localV >= x.writerV.n
  }

  /** What the synchronizing thread x has made sure of about thread u. */
  ghost predicate Fresh(x: Thread, y: Thread, u: nat) {
    match x.pc
    case Scan(i) => u < i ==> NotOld(x, y) || (u < |x.q| && x.q[u] == WaitEntry(true, y.run))
    case Wait(i) => NotOld(x, y) || (i <= u < |x.q| && x.q[u] == WaitEntry(true, y.run))
    case Reset(_) => NotOld(x, y)
    case Writeback(_) => NotOld(x, y)
    case _ => true
  }

  predicate Announced(pc: Pc) {
    pc.Scan? || pc.Wait? || pc.Reset? || pc.Writeback?
  }

  ghost predicate AllFresh(s: State) {
    && (forall t: nat | t < |s.th| && Announced(s.th[t].pc) ::
          s.th[t].writerV.V? && s.th[t].writerV.n <= s.writerVersion)
    && (forall t: nat | t < |s.th| && s.th[t].pc.SyncAdd? ::
          s.th[t].writerV.V? && s.th[t].writerV.n <= s.writerVersion + 1)
    && (forall t: nat, u: nat | t < |s.th| && u < |s.th| && t != u :: Fresh(s.th[t], s.th[u], u))
  }

  /** How thread u may change while others rely on it. */
  ghost predicate ReaderMoves(s: State, y: Thread, y': Thread) {
    if Versioned(y.pc) && Versioned(y'.pc) then y'.run == y.run && y'.localV == y.localV
    else Versioned(y'.pc) ==> y.pc.ReadWriter? && y'.localV == s.writerVersion && y'.run == y.run
  }

  lemma FreshForReader(s: State, x: Thread, y: Thread, y': Thread, u: nat)
    requires Fresh(x, y, u) && ReaderMoves(s, y, y')
    requires Announced(x.pc) ==> x.writerV.V? && x.writerV.n <= s.writerVersion
    ensures Fresh(x, y', u)
  {
  }

  /** What a step of thread t does. */
  ghost predicate Steps(s: State, t: nat, s': State) {
    && |s'.th| == |s.th| && t < |s.th| && s'.th == s.th[t := s'.th[t]] && s'.writerVersion >= s.writerVersion
    && ReaderMoves(s, s.th[t], s'.th[t])
    && (Announced(s'.th[t].pc) ==> s'.th[t].writerV.V? && s'.th[t].writerV.n <= s'.writerVersion)
    && (s'.th[t].pc.SyncAdd? ==> s'.th[t].writerV.V? && s'.th[t].writerV.n <= s'.writerVersion + 1)
    && (forall u: nat | u < |s.th| && u != t :: Fresh(s'.th[t], s.th[u], u))
  }

  lemma SectionChange(s: State, t: nat, s': State)
    requires t < |s.th| && ThreadOk(s, s.th[t]) && SectionStep(s, t, s')
    ensures |s'.th| == |s.th| && s'.th == s.th[t := s'.th[t]] && s'.writerVersion == s.writerVersion
    ensures ReaderMoves(s, s.th[t], s'.th[t]) && !s'.th[t].pc.SyncAdd? && !Announced(s'.th[t].pc)
  {
    hide CountersOk, WroteOk;
  }

  lemma SectionMoves(s: State, t: nat, s': State)
    requires Inv(s) && AllFresh(s) && SectionStep(s, t, s')
    ensures Steps(s, t, s')
  {
    assert ThreadOk(s, s.th[t]);
    SectionChange(s, t, s');
  }

  lemma SyncStart(s: State, t: nat, s': State)
    requires Inv(s) && AllFresh(s) && (SyncBegin(s, t, s') || SyncReadStep(s, t, s') || SyncStoreStep(s, t, s'))
    ensures Steps(s, t, s')
  {
    hide WroteOk, LockOk, SeenOk;
    assert ThreadOk(s, s.th[t]);
  }

  lemma SyncAddMoves(s: State, t: nat, s': State)
    requires Inv(s) && AllFresh(s) && SyncAddStep(s, t, s')
    ensures Steps(s, t, s')
  {
    hide CountersOk, Init, WroteOk, LockOk, SeenOk;
    assert ThreadOk(s, s.th[t]);
  }

  lemma SyncEndMoves(s: State, t: nat, s': State)
    requires SyncEndStep(s, t, s') || CommitAddStep(s, t, s')
    ensures Steps(s, t, s')
  {
  }

  lemma SyncMoves(s: State, t: nat, s': State)
    requires Inv(s) && AllFresh(s) && SyncStep(s, t, s')
    ensures Steps(s, t, s')
  {
    hide Fresh, Inv, AllFresh, Steps;
    if SyncBegin(s, t, s') || SyncReadStep(s, t, s') || SyncStoreStep(s, t, s') {
      SyncStart(s, t, s');
    } else if SyncAddStep(s, t, s') {
      SyncAddMoves(s, t, s');
    } else {
      SyncEndMoves(s, t, s');
    }
  }

  lemma ScanMoves(s: State, t: nat, s': State)
    requires Inv(s) && AllFresh(s) && ScanStep(s, t, s')
    ensures Steps(s, t, s')
  {
    hide WroteOk, LockOk, SeenOk;
    assert ThreadOk(s, s.th[t]);
    forall u: nat | u < |s.th| && u != t ensures Fresh(s'.th[t], s.th[u], u) {
      assert Fresh(s.th[t], s.th[u], u) && ThreadOk(s, s.th[u]);
    }
  }

  lemma WaitMoves(s: State, t: nat, s': State)
    requires Inv(s) && AllFresh(s) && (WaitNext(s, t, s') || WaitRun(s, t, s') || WaitVersion(s, t, s'))
    ensures Steps(s, t, s')
  {
    hide WroteOk, LockOk, SeenOk;
    assert ThreadOk(s, s.th[t]);
    forall u: nat | u < |s.th| && u != t ensures Fresh(s'.th[t], s.th[u], u) {
      assert Fresh(s.th[t], s.th[u], u) && ThreadOk(s, s.th[u]);
    }
  }

  lemma QuiesceMoves(s: State, t: nat, s': State)
    requires Inv(s) && AllFresh(s) && QuiesceStep(s, t, s')
    ensures Steps(s, t, s')
  {
    hide Inv, AllFresh, Steps;
    if ScanStep(s, t, s') {
      ScanMoves(s, t, s');
    } else {
      WaitMoves(s, t, s');
    }
  }

  lemma ResetMoves(s: State, t: nat, s': State)
    requires Inv(s) && AllFresh(s) && (ResetLog(s, t, s') || ResetDone(s, t, s'))
    ensures Steps(s, t, s')
  {
    hide WroteOk, LockOk, SeenOk;
    assert ThreadOk(s, s.th[t]);
    forall u: nat | u < |s.th| && u != t ensures Fresh(s'.th[t], s.th[u], u) {
      assert Fresh(s.th[t], s.th[u], u);
    }
  }

  lemma LogMoves(s: State, t: nat, s': State)
    requires Inv(s) && AllFresh(s) && LogStep(s, t, s')
    ensures Steps(s, t, s')
  {
    hide AllFresh, WroteOk, LockOk, SeenOk;
    if ResetLog(s, t, s') || ResetDone(s, t, s') {
      ResetMoves(s, t, s');
    } else if WritebackNext(s, t, s') {
      WritebackMoves(s, t, s');
    } else {
      hide CountersOk, Init;
      assert ThreadOk(s, s.th[t]);
    }
  }

  lemma WritebackMoves(s: State, t: nat, s': State)
    requires Inv(s) && AllFresh(s) && WritebackNext(s, t, s')
    ensures Steps(s, t, s')
  {
    hide CountersOk, WroteOk, LockOk, SeenOk, Init;
    assert ThreadOk(s, s.th[t]);
    forall u: nat | u < |s.th| && u != t ensures Fresh(s'.th[t], s.th[u], u) {
      assert Fresh(s.th[t], s.th[u], u);
    }
  }

  lemma ObjectMoves(s: State, t: nat, o: nat, s': State)
    requires AllFresh(s) && ObjectStep(s, t, o, s')
    ensures Steps(s, t, s')
  {
    forall u: nat | u < |s.th| && u != t ensures Fresh(s'.th[t], s.th[u], u) {
      assert Fresh(s.th[t], s.th[u], u);
    }
  }

  /** What the acting thread and the others rely on is kept. */
  lemma FreshKept(s: State, t: nat, s': State)
    requires AllFresh(s) && Steps(s, t, s')
    ensures AllFresh(s')
  {
    forall v: nat, u: nat | v < |s'.th| && u < |s'.th| && v != u ensures Fresh(s'.th[v], s'.th[u], u) {
      if v != t {
        assert Fresh(s.th[v], s.th[u], u);
        if u == t {
          FreshForReader(s, s.th[v], s.th[t], s'.th[t], t);
        }
      }
    }
  }

  lemma NextFresh(s: State, s': State)
    requires Inv(s) && AllFresh(s) && Next(s, s')
    ensures AllFresh(s')
  {
    hide Inv, AllFresh, SectionStep, SyncStep, QuiesceStep, LogStep, ObjectStep, Steps;
    var t: nat;
    if t1: nat :| SectionStep(s, t1, s') {
      t := t1;
      SectionMoves(s, t, s');
    } else if t1: nat :| SyncStep(s, t1, s') {
      t := t1;
      SyncMoves(s, t, s');
    } else if t1: nat :| QuiesceStep(s, t1, s') {
      t := t1;
      QuiesceMoves(s, t, s');
    } else if t1: nat :| LogStep(s, t1, s') {
      t := t1;
      LogMoves(s, t, s');
    } else {
      var t1: nat, o: nat :| ObjectStep(s, t1, o, s');
      t := t1;
      ObjectMoves(s, t, o, s');
    }
    FreshKept(s, t, s');
  }

  lemma {:induction false} RunFresh(run: seq<State>, i: nat)
    requires Run(run) && i < |run|
    ensures AllFresh(run[i])
  {
    hide Inv, Next, AllFresh;
    if i == 0 {
      InitFresh(run[0]);
    } else {
      RunFresh(run, i - 1);
      RunOk(run, i - 1);
      assert StepAt(run, i - 1);
      NextFresh(run[i - 1], run[i]);
    }
  }

  lemma InitFresh(s: State)
    requires Init(s)
    ensures AllFresh(s)
  {
  }

  /* --------------------------------------------------------------- theorems */

  /** A log is reset only in a later sync than the one that wrote it back, when no object
      is locked by it and no thread's present section holds a copy pointer into it. */
  lemma ResetIsSafe(run: seq<State>, j: nat, t: nat, u: nat, o: nat)
    requires Run(run) && j + 1 < |run| && ResetLog(run[j], t, run[j + 1]) && u < |run[j].th| && o < |run[j].locks|
    ensures var x := run[j].th[t]; var log := Log(t, x.pc.c);
            && log !in run[j].th[u].seen && run[j].locks[o] != LockedBy(log)
            && x.pc.c in x.wroteBack && x.wroteBack[x.pc.c] < x.sync
  {
    RunOk(run, j);
    var s := run[j];
    var x := s.th[t];
    var log := Log(t, x.pc.c);
    assert ThreadOk(s, x) && LockOk(s, o);
    forall l | l in s.th[u].seen ensures l != log {
      assert SeenOk(s, u, l);
    }
  }

  /** Inside one section a thread forgets no pointer. */
  ghost predicate SeenGrows(s: State, s': State, u: nat) {
    && u < |s.th| == |s'.th| && s.th[u].run <= s'.th[u].run
    && (s.th[u].run == s'.th[u].run ==> s.th[u].seen <= s'.th[u].seen)
  }

  lemma SectionSeen(s: State, t: nat, s': State, u: nat)
    requires u < |s.th| && SectionStep(s, t, s')
    ensures SeenGrows(s, s', u)
  {
    hide Init;
  }

  lemma SyncSeen(s: State, t: nat, s': State, u: nat)
    requires u < |s.th| && SyncStep(s, t, s')
    ensures SeenGrows(s, s', u)
  {
    hide Init;
  }

  lemma LogSeen(s: State, t: nat, s': State, u: nat)
    requires u < |s.th| && (QuiesceStep(s, t, s') || LogStep(s, t, s'))
    ensures SeenGrows(s, s', u)
  {
  }

  lemma ObjectSeen(s: State, t: nat, o: nat, s': State, u: nat)
    requires u < |s.th| && ObjectStep(s, t, o, s')
    ensures SeenGrows(s, s', u)
  {
  }

  lemma StepSeen(s: State, s': State, u: nat)
    requires Next(s, s') && u < |s.th|
    ensures SeenGrows(s, s', u)
  {
    hide SectionStep, SyncStep, QuiesceStep, LogStep, ObjectStep, SeenGrows;
    if t: nat :| SectionStep(s, t, s') {
      SectionSeen(s, t, s', u);
    } else if t: nat :| SyncStep(s, t, s') {
      SyncSeen(s, t, s', u);
    } else if t: nat :| QuiesceStep(s, t, s') || LogStep(s, t, s') {
      LogSeen(s, t, s', u);
    } else {
      var t: nat, o: nat :| ObjectStep(s, t, o, s');
      ObjectSeen(s, t, o, s', u);
    }
  }

  lemma {:induction false} RunSeen(run: seq<State>, i: nat, j: nat, u: nat)
    requires Run(run) && i <= j < |run| && u < |run[i].th|
    ensures |run[j].th| == |run[i].th| && run[i].th[u].run <= run[j].th[u].run
    ensures run[i].th[u].run == run[j].th[u].run ==> run[i].th[u].seen <= run[j].th[u].seen
    decreases j - i
  {
    hide Next, Init;
    if i < j {
      RunSeen(run, i, j - 1, u);
      assert StepAt(run, j - 1);
      StepSeen(run[j - 1], run[j], u);
    }
  }

  /** By the time a log is reset, every section in which a thread stole a copy out of it has
      ended, even when several writers have computed the same version. */
  lemma StealersAreGone(run: seq<State>, i: nat, j: nat, t: nat, u: nat, log: Log)
    requires Run(run) && i < j && j + 1 < |run|
    requires StealStep(run[i], u, run[i + 1]) && log in run[i + 1].th[u].stolen
    requires ResetLog(run[j], t, run[j + 1]) && log == Log(t, run[j].th[t].pc.c)
    ensures u < |run[j].th| && run[j].th[u].run > run[i].th[u].run
  {
    RunOk(run, i + 1);
    assert ThreadOk(run[i + 1], run[i + 1].th[u]);
    RunSeen(run, i, j, u);
    RunSeen(run, i + 1, j, u);
    RunOk(run, j);
    forall l | l in run[j].th[u].seen ensures l != log {
      assert SeenOk(run[j], u, l);
    }
  }

  /** While a thread resets or writes back, every section that runs, other than one that has
      not read its version yet, runs at a version not below the writer's. */
  lemma NoOldReaders(run: seq<State>, i: nat, t: nat, u: nat)
    requires Run(run) && i < |run| && t < |run[i].th| && u < |run[i].th| && t != u
    requires run[i].th[t].pc.Reset? || run[i].th[t].pc.Writeback?
    requires Versioned(run[i].th[u].pc)
    ensures run[i].th[t].writerV.V? && run[i].th[u].localV >= run[i].th[t].writerV.n
  {
    RunFresh(run, i);
    assert Fresh(run[i].th[t], run[i].th[u], u);
  }

  /** The slot of the log being written is never the slot of a log that is not yet reset. */
  lemma RingNeverFull(run: seq<State>, i: nat, t: nat, c: nat)
    requires Run(run) && i < |run| && t < |run[i].th| && InBody(run[i].th[t].pc)
    requires run[i].th[t].head <= c < run[i].th[t].tail
    ensures run[i].ring > 0 && run[i].th[t].tail - run[i].th[t].head < run[i].ring
    ensures c % run[i].ring != run[i].th[t].tail % run[i].ring
  {
    RunOk(run, i);
    assert ThreadOk(run[i], run[i].th[t]);
    SlotsDiffer(c, run[i].th[t].tail, run[i].ring);
  }

  lemma SlotsDiffer(a: nat, b: nat, n: nat)
    requires a < b < a + n
    ensures a % n != b % n
  {
    var k := b / n - a / n;
    AtLeastOnce(n, k);
    assert b - a == n * k + (b % n - a % n);
  }

  lemma AtLeastOnce(n: nat, k: int)
    ensures k >= 1 ==> n * k >= n
    ensures k <= 0 ==> n * k <= 0
  {
  }
}
