/** A run in which the field CAS of DCSS reports to a helper the success of an operation that
    has failed: the descriptor has been reused, and the newer operation succeeded. */
module DcssLateReport {
  import opened DcssModel
  import opened WordCopies

  ghost predicate Reachable(s: State) {
    exists run: seq<State> :: Run(run) && run[|run| - 1] == s
  }

  lemma Step(s: State, t: nat, s': State)
    requires Reachable(s) && ThreadStep(s, t, s')
    ensures Reachable(s')
  {
    hide ThreadStep, Init;
    var run: seq<State> :| Run(run) && run[|run| - 1] == s;
    var longer := run + [s'];
    forall i: nat | i + 1 < |longer| ensures StepAt(longer, i) {
      if i + 1 < |run| {
        assert StepAt(run, i);
      } else {
        assert Next(s, s');
      }
    }
    assert Run(longer) && longer[|longer| - 1] == s';
  }

  ghost predicate Ready(s: State, t: nat) {
    t < |s.th| == |s.g.desc| && |s.g.desc[t].body| == 5
  }

  /** The state after `dcssPtr` has published its descriptor. */
  function Started(s: State, t: nat, args: Body): State
    requires t < |s.th| == |s.g.desc|
  {
    var tag := Tag(t, s.g.desc[t].mut.sn + 2);
    SetPc(SetOp(SetDesc(s, t, Desc(Mutables(tag.sn, Undecided), args)), tag,
                Op(args, Undecided, false, false, false, false)),
          t, PutCas(tag))
  }

  function Filling(s: State, t: nat, args: Body, j: nat): State
    requires t < |s.th| == |s.g.desc| && |s.g.desc[t].body| == |args| && j <= |args|
  {
    SetPc(SetDesc(s, t, Desc(Mutables(s.g.desc[t].mut.sn + 1, Undecided), args[..j] + s.g.desc[t].body[j..])), t,
          Fill(args, j))
  }

  /** The owner reads its descriptor and takes an even sequence number. */
  lemma Begins(s: State, t: nat, args: Body)
    requires Reachable(s) && Ready(s, t) && s.th[t].pc == Idle && WellFormed(args, |s.g.ctl|, |s.g.mem|)
    ensures Reachable(Filling(s, t, args, 0))
  {
    hide Reachable;
    var s1 := SetPc(s, t, NewWrite(args, s.g.desc[t].mut));
    assert NewRead(s, t, s1);
    Step(s, t, s1);
    var body := s.g.desc[t].body;
    assert args[..0] + body[0..] == body;
    assert NewStore(s1, t, Filling(s, t, args, 0));
    Step(s1, t, Filling(s, t, args, 0));
  }

  /** It writes the next field. */
  lemma FillsOne(s: State, t: nat, args: Body, j: nat)
    requires Ready(s, t) && WellFormed(args, |s.g.ctl|, |s.g.mem|) && j < 5
    requires Reachable(Filling(s, t, args, j))
    ensures Reachable(Filling(s, t, args, j + 1))
  {
    hide Reachable;
    var body := s.g.desc[t].body;
    assert (args[..j] + body[j..])[j := args[j]] == args[..j + 1] + body[j + 1..];
    assert FillStep(Filling(s, t, args, j), t, Filling(s, t, args, j + 1));
    Step(Filling(s, t, args, j), t, Filling(s, t, args, j + 1));
  }

  /** The owner's part up to the publication, from any state. */
  lemma Starts(s: State, t: nat, args: Body)
    requires Reachable(s) && Ready(s, t) && s.th[t].pc == Idle && WellFormed(args, |s.g.ctl|, |s.g.mem|)
    ensures Reachable(Started(s, t, args))
  {
    hide Reachable;
    Begins(s, t, args);
    for j := 0 to 5
      invariant Reachable(Filling(s, t, args, j))
    {
      FillsOne(s, t, args, j);
    }
    var s2 := Filling(s, t, args, 5);
    assert args[..5] + s.g.desc[t].body[5..] == args;
    var s3 := SetPc(s2, t, InitWrite(Mutables(s.g.desc[t].mut.sn + 1, Undecided)));
    assert FillStep(s2, t, s3);
    Step(s2, t, s3);
    assert Publish(s3, t, Started(s, t, args));
    Step(s3, t, Started(s, t, args));
  }

  /** The helper's copy of a descriptor that does not change meanwhile. */
  lemma Copies(s: State, t: nat, back: Back, rt: Word)
    requires Reachable(s) && t < |s.th| && s.th[t].pc == Copy(back, rt, -1, map[]) && rt.Tag? && rt.tid < |s.g.desc|
    requires s.g.desc[rt.tid].mut.sn == rt.sn
    ensures Reachable(SetPc(s, t, ReadControl(Help(rt, false, rt.sn, s.g.desc[rt.tid].body, back))))
  {
    hide Reachable;
    var b := s.g.desc[rt.tid].body;
    var got: map<nat, int> := map[];
    var cur := SetPc(s, t, Copy(back, rt, rt.sn, got));
    assert CopyWord(s, t, cur);
    Step(s, t, cur);
    var j := 0;
    while j < |b|
      invariant 0 <= j <= |b| && cur == SetPc(s, t, Copy(back, rt, rt.sn, got)) && Reachable(cur)
      invariant forall i: nat :: i in got <==> i < j
      invariant forall i: nat | i < j :: got[i] == b[i]
    {
      var next := SetPc(s, t, Copy(back, rt, rt.sn, got[j := b[j]]));
      assert next == SetPc(cur, t, Copy(back, rt, rt.sn, got[j := b[j]]));
      assert CopyWord(cur, t, next);
      Step(cur, t, next);
      got, cur, j := got[j := b[j]], next, j + 1;
    }
    assert Assemble(got, |b|) == b;
    var done := SetPc(s, t, ReadControl(Help(rt, false, rt.sn, b, back)));
    assert CopyCheck(cur, t, done);
    Step(cur, t, done);
  }

  /** The report after the CAS of thread t differs from the fate of its operation. */
  ghost predicate WrongReport(s: State, t: nat, s': State) {
    && StateCasStep(s, t, s') && t < |s.th| && t < |s'.th| && s'.th[t].pc.Finish?
    && var k := s'.th[t].pc.x.tag;
    && k in s.g.ops && s.g.ops[k].ended && s.g.ops[k].status == Failed && s'.th[t].pc.ok
  }

  /* -------------------------------------------- the states after single steps */

  function AfterPut(s: State, t: nat): State
    requires Ready(s, t) && s.th[t].pc.PutCas? && s.th[t].pc.tag in s.g.ops && Addr2(s.g.desc[t].body) < |s.g.mem|
  {
    var tag, b := s.th[t].pc.tag, s.g.desc[t].body;
    SetPc(SetOp(SetMem(s, Addr2(b), tag), tag, s.g.ops[tag].(put := true)),
          t, ReadControl(Help(tag, true, s.g.desc[t].mut.sn, b, ToPut(tag))))
  }

  function AfterControl(s: State, t: nat): State
    requires t < |s.th| && s.th[t].pc.ReadControl? && s.th[t].pc.x.tag in s.g.ops
             && Addr1(s.th[t].pc.x.body) < |s.g.ctl|
  {
    var x := s.th[t].pc.x;
    var val1 := s.g.ctl[Addr1(x.body)];
    SetPc(SetOp(s, x.tag, Witness(s.g.ops[x.tag], val1)), t,
          StateRead(x, if val1 == Old1(x.body) then Succeeded else Failed))
  }

  /** The deciding read and the two accesses of the field CAS, when nobody interferes. */
  function AfterDecision(s: State, t: nat): State
    requires t < |s.th| && s.th[t].pc.StateRead? && s.th[t].pc.x.tag.Tag? && s.th[t].pc.x.tag in s.g.ops
    requires s.th[t].pc.x.tag.tid < |s.g.desc| && s.th[t].pc.x.ssn >= 0
  {
    var x, st := s.th[t].pc.x, s.th[t].pc.st;
    var u := x.tag.tid;
    SetPc(SetOp(SetDesc(s, u, s.g.desc[u].(mut := Mutables(x.ssn, st))), x.tag, s.g.ops[x.tag].(status := st)),
          t, Finish(x, st == Succeeded))
  }

  lemma Puts(s: State, t: nat)
    requires Reachable(s) && Ready(s, t) && s.th[t].pc.PutCas? && s.th[t].pc.tag in s.g.ops
    requires Addr2(s.g.desc[t].body) < |s.g.mem| && s.g.mem[Addr2(s.g.desc[t].body)] == Old2(s.g.desc[t].body)
    ensures Reachable(AfterPut(s, t))
  {
    assert PutStep(s, t, AfterPut(s, t));
    Step(s, t, AfterPut(s, t));
  }

  lemma Controls(s: State, t: nat)
    requires Reachable(s) && t < |s.th| && s.th[t].pc.ReadControl? && s.th[t].pc.x.tag in s.g.ops
    requires Addr1(s.th[t].pc.x.body) < |s.g.ctl|
    ensures Reachable(AfterControl(s, t))
  {
    assert ControlStep(s, t, AfterControl(s, t));
    Step(s, t, AfterControl(s, t));
  }

  lemma DecidesAlone(s: State, t: nat)
    requires Reachable(s) && t < |s.th| && s.th[t].pc.StateRead? && s.th[t].pc.x.tag.Tag? && s.th[t].pc.x.tag in s.g.ops
    requires s.th[t].pc.x.tag.tid < |s.g.desc| && s.th[t].pc.x.ssn >= 0
    requires s.g.desc[s.th[t].pc.x.tag.tid].mut == Mutables(s.th[t].pc.x.ssn, Undecided)
    ensures Reachable(AfterDecision(s, t))
  {
    hide Reachable;
    var x, st := s.th[t].pc.x, s.th[t].pc.st;
    var s1 := SetPc(s, t, StateCas(x, st, s.g.desc[x.tag.tid].mut));
    assert StateReadStep(s, t, s1);
    Step(s, t, s1);
    assert StateCasStep(s1, t, AfterDecision(s, t));
    Step(s1, t, AfterDecision(s, t));
  }

  /** Reading addr1 and deciding, when nobody interferes. */
  lemma HelpsAlone(s: State, t: nat)
    requires Reachable(s) && t < |s.th| && s.th[t].pc.ReadControl? && s.th[t].pc.x.tag in s.g.ops
    requires var x := s.th[t].pc.x;
      && Addr1(x.body) < |s.g.ctl| && x.tag.Tag? && x.tag.tid < |s.g.desc| && x.ssn >= 0
      && s.g.desc[x.tag.tid].mut == Mutables(x.ssn, Undecided)
    ensures Reachable(AfterDecision(AfterControl(s, t), t))
  {
    hide Reachable;
    Controls(s, t);
    DecidesAlone(AfterControl(s, t), t);
  }

  /* -------------------------------------------------------------------- the run */

  const FAILS: Body := [0, 1, 0, 0, 1]      // addr1 does not hold 1
  const SUCCEEDS: Body := [0, 0, 0, 0, 1]

  function Start(): State {
    var d := Desc(Mutables(1, Undecided), [0, 0, 0, 0, 0]);
    State(Shared([0], [Plain(0)], [d, d], map[]), [Thread(Idle, NoResult), Thread(Idle, NoResult)])
  }

  lemma StartReachable()
    ensures Reachable(Start())
  {
    hide Next;
    assert Run([Start()]) && [Start()][0] == Start();
  }

  /** Thread 0 has put the tag of its failing operation into memory. */
  lemma TagIsPut() returns (s: State)
    ensures Reachable(s) && |s.th| == |s.g.desc| == 2 && s.g.ctl == [0] && s.g.mem == [Tag(0, 3)]
    ensures s.g.desc[0] == Desc(Mutables(3, Undecided), FAILS)
    ensures s.g.ops == map[Tag(0, 3) := Op(FAILS, Undecided, true, false, false, false)]
    ensures s.th[0].pc == ReadControl(Help(Tag(0, 3), true, 3, FAILS, ToPut(Tag(0, 3)))) && s.th[1].pc == Idle
  {
    StartReachable();
    hide Reachable;
    Starts(Start(), 0, FAILS);
    s := Started(Start(), 0, FAILS);
    Puts(s, 0);
    s := AfterPut(s, 0);
  }

  /** Thread 1 copies that operation and is about to do the CAS. */
  lemma HelperIsLate() returns (s: State)
    ensures Reachable(s) && |s.th| == |s.g.desc| == 2 && s.g.ctl == [0] && s.g.mem == [Tag(0, 3)]
    ensures s.g.desc[0] == Desc(Mutables(3, Undecided), FAILS)
    ensures s.g.ops == map[Tag(0, 3) := Op(FAILS, Undecided, true, false, true, false)]
    ensures s.th[0].pc == ReadControl(Help(Tag(0, 3), true, 3, FAILS, ToPut(Tag(0, 3))))
    ensures s.th[1].pc == StateCas(Help(Tag(0, 3), false, 3, FAILS, ToRead(0)), Failed, Mutables(3, Undecided))
  {
    hide Reachable;
    s := TagIsPut();
    assert ReadBegin(s, 1, SetPc(s, 1, ReadWord(0)));
    Step(s, 1, SetPc(s, 1, ReadWord(0)));
    s := SetPc(s, 1, ReadWord(0));
    assert ReadStep(s, 1, SetPc(s, 1, Copy(ToRead(0), Tag(0, 3), -1, map[])));
    Step(s, 1, SetPc(s, 1, Copy(ToRead(0), Tag(0, 3), -1, map[])));
    s := SetPc(s, 1, Copy(ToRead(0), Tag(0, 3), -1, map[]));
    Copies(s, 1, ToRead(0), Tag(0, 3));
    s := SetPc(s, 1, ReadControl(Help(Tag(0, 3), false, 3, FAILS, ToRead(0))));
    Controls(s, 1);
    s := AfterControl(s, 1);
    var s1 := SetPc(s, 1, StateCas(Help(Tag(0, 3), false, 3, FAILS, ToRead(0)), Failed, Mutables(3, Undecided)));
    assert StateReadStep(s, 1, s1);
    Step(s, 1, s1);
    s := s1;
  }

  /** Thread 0 ends the failing operation. */
  lemma OwnerEnds(s: State) returns (s': State)
    requires Reachable(s) && |s.th| == |s.g.desc| == 2 && s.g.ctl == [0] && s.g.mem == [Tag(0, 3)]
    requires s.g.desc[0] == Desc(Mutables(3, Undecided), FAILS)
    requires s.g.ops == map[Tag(0, 3) := Op(FAILS, Undecided, true, false, true, false)]
    requires s.th[0].pc == ReadControl(Help(Tag(0, 3), true, 3, FAILS, ToPut(Tag(0, 3))))
    ensures Reachable(s') && |s'.th| == |s'.g.desc| == 2 && s'.th[1] == s.th[1]
    ensures s'.g.ctl == [0] && s'.g.mem == [Plain(0)] && s'.th[0].pc == Idle
    ensures s'.g.desc[0] == Desc(Mutables(3, Failed), FAILS)
    ensures s'.g.ops == map[Tag(0, 3) := Op(FAILS, Failed, true, false, true, true)]
  {
    hide Reachable;
    HelpsAlone(s, 0);
    s' := AfterDecision(AfterControl(s, 0), 0);
    var s1 := Return(SetMem(s', 0, Plain(0)), 0, Tag(0, 3), FailedAddr1(Tag(0, 3)));
    assert FinishStep(s', 0, s1);
    Step(s', 0, s1);
    s' := s1;
  }

  /** Its next operation succeeds. */
  lemma OwnerGoesOn(s: State) returns (s': State)
    requires Reachable(s) && |s.th| == |s.g.desc| == 2 && s.g.ctl == [0] && s.g.mem == [Plain(0)]
    requires s.g.desc[0] == Desc(Mutables(3, Failed), FAILS) && s.th[0].pc == Idle
    requires s.g.ops == map[Tag(0, 3) := Op(FAILS, Failed, true, false, true, true)]
    ensures Reachable(s') && |s'.th| == |s'.g.desc| == 2 && s'.th[1] == s.th[1]
    ensures s'.g.desc[0].mut == Mutables(5, Succeeded) && Tag(0, 3) in s'.g.ops
    ensures s'.g.ops[Tag(0, 3)] == s.g.ops[Tag(0, 3)]
  {
    hide Reachable;
    Starts(s, 0, SUCCEEDS);
    s' := Started(s, 0, SUCCEEDS);
    Puts(s', 0);
    s' := AfterPut(s', 0);
    HelpsAlone(s', 0);
    s' := AfterDecision(AfterControl(s', 0), 0);
  }

  /** The field-CAS macro can tell a helper that an operation succeeded which has failed and
      whose owner has returned. */
  lemma ReportCanBeWrong() returns (s: State, s': State)
    ensures Reachable(s) && Reachable(s') && WrongReport(s, 1, s')
  {
    hide Reachable;
    s := HelperIsLate();
    s := OwnerEnds(s);
    s := OwnerGoesOn(s);
    s' := SetPc(s, 1, Finish(Help(Tag(0, 3), false, 3, FAILS, ToRead(0)), true));
    assert StateCasStep(s, 1, s');
    Step(s, 1, s');
  }
}
