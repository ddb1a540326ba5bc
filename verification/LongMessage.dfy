/** A run in which a message of 128 characters, the longest there is, is written and read back whole. */
module LongMessage {
  import R = ResourceModel
  import RS = ResourceSteps
  import RE = ResourceEffects
  import PE = ProcessEffects
  import FQ = FullQueue
  import opened WholeSystem
  import opened SystemAnswers

  const Text := seq(128, _ => 'x')
  const Longer := seq(129, _ => 'x')

  const WriteText := ResourceOp(R.WriteOp(0, 0, Text, 128), 1)
  const WriteLonger := ResourceOp(R.WriteOp(0, 0, Longer, 129), 1)
  const ReadText := ResourceOp(R.ReadOp(0, 0, 128), 2)

  /** After the creation of the queue. */
  const Created := FQ.Filled(0)

  lemma CreatedInv()
    ensures CanDo(FQ.Start, FQ.Create) && Do(FQ.Start, FQ.Create) == Created && Inv(Created)
  {
    assert FQ.FULL == 128;
    hide *;
    FQ.Creation();
    BootInv(1, 0, 1, 1, 128);
    Starts();
    StepKeepsInv(FQ.Start, FQ.Create);
    Goes();
  }

  lemma Starts()
    ensures FQ.Start == Boot(1, 0, 1, 1, 128)
  {
  }

  lemma Goes()
    requires FQ.Goes(FQ.Start, FQ.Create, FQ.Filled(0))
    ensures CanDo(FQ.Start, FQ.Create) && Do(FQ.Start, FQ.Create) == Created
  {
  }

  lemma CreatedHas()
    ensures var s := Created.rs;
            && Created.ps.running == 0 && R.IsProc(s, 0) && RE.Holds(s, 0, 0, 0) && s.D(0).res == 0
            && s.R(0).kind == 1 && s.R(0).msgs == [] && s.freeMsgs != [] && !s.M(s.freeMsgs[0]).stale
  {
  }

  lemma CanWriteAny(s: R.State, text: seq<char>)
    requires R.IsProc(s, 0) && s.freeMsgs != []
    ensures R.CanStep(s, R.WriteOp(0, 0, text, |text|))
  {
    hide R.QueueOf;
  }

  lemma CanDoIt(s: System, r: R.Op, address: int)
    requires s.ps.running == 0 && R.CanStep(s.rs, r) && (r.WriteOp? || r.ReadOp?) && r.p == 0
    ensures CanDo(s, ResourceOp(r, address))
  {
  }

  lemma Calls()
    ensures WriteText.r == R.WriteOp(0, 0, Text, |Text|) && WriteLonger.r == R.WriteOp(0, 0, Longer, |Longer|)
    ensures |Text| == 128 && |Longer| == 129 && ReadText.r == R.ReadOp(0, 0, 128) && Text[..128] == Text
  {
  }

  lemma Resolved()
    requires RS.Inv(Created.rs)
    ensures RE.ResolvesFd(Created.rs, 0, 0, 0) && RE.Target(Created.rs, 0, 0)
  {
    hide RS.Inv;
    CreatedHas();
    RE.HeldTarget(Created.rs, 0, 0, 0);
  }

  /** The queue takes a message of 128 characters and gives it back to a buffer of 128; both calls answer 128.  It
      refuses one of 129 with -17 and stays as it is. */
  lemma ReadBackWhole()
    ensures Boot(1, 0, 1, 1, 128) == FQ.Start && CanDo(FQ.Start, FQ.Create) && Do(FQ.Start, FQ.Create) == Created
    ensures CanDo(Created, WriteText) && Answer(Created, WriteText) == 128
    ensures var t := Do(Created, WriteText);
            && CanDo(t, ReadText) && Answer(t, ReadText) == 128
            && R.CanStep(t.rs, ReadText.r) && R.Perform(t.rs, ReadText.r).data == seq(128, _ => 'x')
    ensures CanDo(Created, WriteLonger) && Answer(Created, WriteLonger) == -17
    ensures Do(Created, WriteLonger).rs == Created.rs
  {
    assert Text == seq(128, _ => 'x');
    hide *;
    Starts();
    CreatedInv();
    InvParts(Created);
    CreatedHas();
    Calls();
    Resolved();
    CanWriteAny(Created.rs, Text);
    CanWriteAny(Created.rs, Longer);
    CanDoIt(Created, WriteText.r, 1);
    CanDoIt(Created, WriteLonger.r, 1);
    Addresses();
    AnswerIs(Created, WriteText);
    AnswerIs(Created, WriteLonger);
    RE.WriteThenRead(Created.rs, WriteText.r, 0, ReadText.r, 0, 0);
    RE.WriteAnswers(Created.rs, WriteLonger.r, 0, 0);
    var t := Do(Created, WriteText);
    StepKeepsInv(Created, WriteText);
    CallReports(Created, WriteText);
    StillRunning(Created, t);
    CanDoIt(t, ReadText.r, 2);
    AnswerIs(t, ReadText);
  }

  lemma Addresses()
    ensures WriteText == ResourceOp(WriteText.r, 1) && WriteLonger == ResourceOp(WriteLonger.r, 1)
    ensures ReadText == ResourceOp(ReadText.r, 2)
  {
  }

  lemma StillRunning(s: System, t: System)
    requires PE.Goes(s.ps, t.ps)
    ensures t.ps.running == s.ps.running
  {
  }
}
