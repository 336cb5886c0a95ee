/** What LLX and SCX guarantee over every run. */
module ScxTheorems {

  import opened ScxModel
  import opened ScxSafety
  import opened WordCopies

  lemma StepGrows(run: seq<State>, i: nat)
    requires Run(run) && i + 1 < |run|
    ensures Grows(run[i].g, run[i + 1].g)
  {
    RunOk(run, i);
    assert StepAt(run, i);
    StepKeeps(run, i);
  }

  lemma {:induction false} RunGrows(run: seq<State>, i: nat, j: nat)
    requires Run(run) && i <= j < |run|
    ensures Grows(run[i].g, run[j].g)
    decreases j - i
  {
    if i == j {
      GrowsRefl(run[i].g);
    } else {
      RunGrows(run, i, j - 1);
      StepGrows(run, j - 1);
      GrowsTrans(run[i].g, run[j - 1].g, run[j].g);
    }
  }

  lemma GrowsRefl(a: Shared)
    ensures Grows(a, a)
  {
  }

  lemma GrowsTrans(a: Shared, b: Shared, c: Shared)
    requires Grows(a, b) && Grows(b, c)
    ensures Grows(a, c)
  {
    forall h | h in a.ops ensures h in c.ops && OpGrows(a.ops[h], c.ops[h]) {
      assert OpGrows(a.ops[h], b.ops[h]) && OpGrows(b.ops[h], c.ops[h]);
    }
  }

  /** The step from run[i] is a successful update CAS of thread t for the SCX h. */
  ghost predicate Updates(run: seq<State>, i: nat, t: nat, h: Handle) {
    && i + 1 < |run| && UpdateCas(run[i], t, run[i + 1]) && UpdateWins(run[i], t)
    && run[i].th[t].pc.a.tag == h
  }

  /** When an update CAS succeeds, every node of the SCX carries its tag, installed
      right over the handle its LLX returned, and still has the contents that LLX saw. */
  lemma ScxIsAtomic(run: seq<State>, i: nat, t: nat, h: Handle, j: nat)
    requires Run(run) && Updates(run, i, t, h)
    requires j < Num(run[i].g.ops[h].body)
    ensures var s := run[i].g; var o := s.ops[h]; var r := NodeAt(o.body, j);
            && r < |s.ptr| && s.ptr[r] == h && Precedes(s, r, SeenAt(o.body, j), h)
            && j < |o.snaps| && Matches(s, r, o.snaps[j])
    ensures var o := run[i].g.ops[h];
            && o.verdict == InProgress && !o.updated && run[i + 1].g.ops[h].updated
            && o.fi < Num(o.body) && o.fi < |o.snaps| && FieldNode(o.body) == NodeAt(o.body, o.fi)
            && FieldOff(o.body) in o.snaps[o.fi] && o.snaps[o.fi][FieldOff(o.body)] == OldVal(o.body)
    ensures h.Tag? && h.tid < |run[i].th| && Owning(run[i].th[h.tid].pc)
  {
    hide Shape, Run;
    RunOk(run, i);
    var s := run[i].g;
    assert ThreadOk(run[i], t);
    var o := s.ops[h];
    var r := NodeAt(o.body, j);
    assert OpOk(s, h);
    UpdateTruth(s, h);
    AllCarry(s, h, j);
    assert ThreadOk(run[i], h.tid);
    assert SnapOk(s, h, o.body, o.snaps, j);
    assert Was(s, h, r);
    JoinedOver(s, h, r);
    var k: nat :| k < Num(o.body) && NodeAt(o.body, k) == r && Precedes(s, r, SeenAt(o.body, k), h);
    assert SeenAt(o.body, k) == SeenAt(o.body, j);
  }

  lemma UpdatesFirst(run: seq<State>, i: nat, t: nat, h: Handle)
    requires Run(run) && Updates(run, i, t, h)
    ensures h in run[i].g.ops && !run[i].g.ops[h].updated
    ensures h in run[i + 1].g.ops && run[i + 1].g.ops[h].updated
  {
    RunOk(run, i);
    assert ThreadOk(run[i], t);
    UpdateTruth(run[i].g, h);
  }

  /** Over all helpers, the update CAS of one SCX succeeds at most once. */
  lemma UpdatesOnce(run: seq<State>, i: nat, j: nat, t: nat, u: nat, h: Handle)
    requires Run(run) && i < j < |run| && Updates(run, i, t, h)
    ensures !Updates(run, j, u, h)
  {
    UpdatesFirst(run, i, t, h);
    RunGrows(run, i + 1, j);
    assert OpGrows(run[i + 1].g.ops[h], run[j].g.ops[h]);
    if Updates(run, j, u, h) {
      UpdatesFirst(run, j, u, h);
    }
  }

  /** A verdict is final, and an SCX with its all-frozen bit set is never aborted. */
  lemma OneVerdict(run: seq<State>, i: nat, j: nat, h: Handle)
    requires Run(run) && i <= j < |run| && h in run[i].g.ops
    ensures h in run[j].g.ops
    ensures run[i].g.ops[h].verdict != InProgress ==> run[j].g.ops[h].verdict == run[i].g.ops[h].verdict
    ensures run[i].g.ops[h].allFrozen ==> run[j].g.ops[h].verdict != Aborted
  {
    RunGrows(run, i, j);
    RunOk(run, j);
    assert OpGrows(run[i].g.ops[h], run[j].g.ops[h]);
    if h.Tag? && run[j].g.ops[h].verdict == Aborted {
      assert OpOk(run[j].g, h);
      DeadNotFrozen(run[j].g, h);
    }
  }

  /** A helper writes the abort verdict only for an SCX that, from then on, never has
      all its nodes frozen for it at any time. */
  lemma AbortsOnlyHopeless(run: seq<State>, i: nat, j: nat, t: nat)
    requires Run(run) && i + 1 < |run| && i < j < |run|
    requires AbortWriteCas(run[i], t, run[i + 1])
    requires var pc := run[i].th[t].pc; run[i].g.desc[pc.a.tag.tid].mut == pc.v
    ensures var h := run[i].th[t].pc.a.tag;
            && h in run[i].g.ops && run[i].g.ops[h].verdict != Committed && !run[i].g.ops[h].allFrozen
            && h in run[j].g.ops && run[j].g.ops[h].verdict == Aborted && !run[j].g.ops[h].updated
            && !FrozenUpTo(run[j].g, h, run[j].g.ops[h].body, Num(run[j].g.ops[h].body))
  {
    AbortsDead(run, i, t);
    var h := run[i].th[t].pc.a.tag;
    RunGrows(run, i + 1, j);
    assert OpGrows(run[i + 1].g.ops[h], run[j].g.ops[h]);
    AbortedHopeless(run, j, h);
  }

  lemma AbortsDead(run: seq<State>, i: nat, t: nat)
    requires Run(run) && i + 1 < |run| && AbortWriteCas(run[i], t, run[i + 1])
    requires var pc := run[i].th[t].pc; run[i].g.desc[pc.a.tag.tid].mut == pc.v
    ensures var h := run[i].th[t].pc.a.tag;
            && h in run[i].g.ops && run[i].g.ops[h].verdict != Committed && !run[i].g.ops[h].allFrozen
            && h in run[i + 1].g.ops && h.Tag? && run[i + 1].g.ops[h].verdict == Aborted
  {
    RunOk(run, i);
    assert ThreadOk(run[i], t);
    DeadNotFrozen(run[i].g, run[i].th[t].pc.a.tag);
  }

  lemma AbortedHopeless(run: seq<State>, j: nat, h: Handle)
    requires Run(run) && j < |run| && h in run[j].g.ops && h.Tag? && run[j].g.ops[h].verdict == Aborted
    ensures !run[j].g.ops[h].updated
    ensures !FrozenUpTo(run[j].g, h, run[j].g.ops[h].body, Num(run[j].g.ops[h].body))
  {
    RunOk(run, j);
    assert OpOk(run[j].g, h);
    DeadNotFrozen(run[j].g, h);
  }

  /** scxExecute returns true exactly when the update took effect; it returns false only when
      some node of the SCX had left the handle its LLX returned, and was never frozen for it. */
  lemma ResultIsTruth(run: seq<State>, i: nat, t: nat)
    requires Run(run) && i < |run| && t < |run[i].th| && run[i].th[t].ret.ScxDone?
    ensures run[i].th[t].ret.tag in run[i].g.ops
    ensures run[i].th[t].ret.ok <==> run[i].g.ops[run[i].th[t].ret.tag].updated
    ensures !run[i].th[t].ret.ok ==> Dead(run[i].g, run[i].th[t].ret.tag, run[i].g.ops[run[i].th[t].ret.tag].body)
  {
    RunOk(run, i);
    assert ThreadOk(run[i], t);
    var h := run[i].th[t].ret.tag;
    assert OpOk(run[i].g, h);
    if run[i].g.ops[h].verdict == Aborted {
      DeadNotFrozen(run[i].g, h);
    }
  }

  /** A successful LLX returns the contents its node has at that moment, when no committed SCX
      has finalised the node. */
  lemma LlxIsAtomic(run: seq<State>, i: nat, t: nat)
    requires Run(run) && i + 1 < |run| && LlxVerify(run[i], t, run[i + 1]) && run[i + 1].th[t].ret.LlxOk?
    requires run[i].g.ptr[run[i].th[t].pc.r] == run[i].th[t].pc.h
    ensures var r := run[i].th[t].pc.r;
            && r in run[i + 1].th[t].held
            && Matches(run[i].g, r, run[i + 1].th[t].held[r].vals)
            && Complete(run[i + 1].th[t].held[r].vals, |run[i].g.mem[r]|)
            && run[i + 1].th[t].held[r].h == run[i].g.ptr[r]
            && Decided(run[i].g, run[i].g.ptr[r])
            && forall h :: !Sealed(run[i].g, h, r)
  {
    RunOk(run, i);
    assert ThreadOk(run[i], t);
    var r := run[i].th[t].pc.r;
    forall h ensures !Sealed(run[i].g, h, r) {
      if Sealed(run[i].g, h, r) {
        SealedCarried(run[i].g, h, r);
      }
    }
  }

  /** A node carries the tag of the committed SCX that finalised it. */
  lemma SealedCarried(s: Shared, h: Handle, r: nat)
    requires Glob(s) && Sealed(s, h, r)
    ensures Carries(s, h, r)
  {
    assert OpOk(s, h);
    var i: nat :| i < Num(s.ops[h].body) && NodeAt(s.ops[h].body, i) == r && FinalizeAt(s.ops[h].body, i);
    assert Was(s, h, NodeAt(s.ops[h].body, i));
    if !Carries(s, h, r) {
      LeftDecided(s, h, r);
    }
  }

  /** A node finalised by a committed SCX keeps that tag for ever and no LLX on it
      succeeds any more, even when the descriptor has been reused. */
  lemma FinalisedForEver(run: seq<State>, i: nat, j: nat, h: Handle, r: nat)
    requires Run(run) && i <= j < |run| && Sealed(run[i].g, h, r)
    ensures r < |run[j].g.ptr| && run[j].g.ptr[r] == h
    ensures r < |run[j].g.marked| && run[j].g.marked[r]
    ensures forall t: nat | j + 1 < |run| && LlxVerify(run[j], t, run[j + 1]) && run[j].th[t].pc.r == r ::
              run[j + 1].th[t].ret.LlxFail?
  {
    hide BodyOk, Init, Next;
    RunOk(run, i);
    RunOk(run, j);
    RunGrows(run, i, j);
    var s := run[j].g;
    assert OpGrows(run[i].g.ops[h], s.ops[h]);
    assert Sealed(s, h, r);
    assert OpOk(s, h);
    var k: nat :| k < Num(s.ops[h].body) && NodeAt(s.ops[h].body, k) == r && FinalizeAt(s.ops[h].body, k);
    assert Was(s, h, r);
    if !Carries(s, h, r) {
      LeftDecided(s, h, r);
    }
    forall t: nat | j + 1 < |run| && LlxVerify(run[j], t, run[j + 1]) && run[j].th[t].pc.r == r
      ensures run[j + 1].th[t].ret.LlxFail?
    {
      assert ThreadOk(run[j], t);
    }
  }

  lemma StepWrites(s: State, t: nat, s': State)
    requires ThreadStep(s, t, s')
    ensures s'.g.mem == s.g.mem || (UpdateCas(s, t, s') && UpdateWins(s, t))
  {
    if LocalStep(s, t, s') {
      assert s'.g == s.g;
    }
  }

  /** Node contents change at successful update CASes and nowhere else. */
  lemma OnlyUpdatesWrite(run: seq<State>, i: nat, r: nat, k: nat)
    requires Run(run) && i + 1 < |run| && r < |run[i].g.mem| && k < |run[i].g.mem[r]|
    ensures r < |run[i + 1].g.mem| && k < |run[i + 1].g.mem[r]|
    ensures run[i + 1].g.mem[r][k] == run[i].g.mem[r][k]
         || exists t: nat, h: Handle :: Updates(run, i, t, h) && h in run[i].g.ops
              && FieldNode(run[i].g.ops[h].body) == r && FieldOff(run[i].g.ops[h].body) == k
              && run[i + 1].g.mem[r][k] == NewVal(run[i].g.ops[h].body)
  {
    assert StepAt(run, i);
    if !AllocNode(run[i], run[i + 1]) {
      var t: nat :| ThreadStep(run[i], t, run[i + 1]);
      StepWrites(run[i], t, run[i + 1]);
      if UpdateCas(run[i], t, run[i + 1]) && UpdateWins(run[i], t) {
        UpdateBody(run, i, t);
        assert Updates(run, i, t, run[i].th[t].pc.a.tag);
      }
    }
  }

  lemma UpdateBody(run: seq<State>, i: nat, t: nat)
    requires Run(run) && i < |run| && t < |run[i].th| && run[i].th[t].pc.Update?
    ensures var a := run[i].th[t].pc.a; a.tag in run[i].g.ops && a.snap == run[i].g.ops[a.tag].body
  {
    RunOk(run, i);
    assert ThreadOk(run[i], t);
  }
}
