/** Runs of the whole system as runs of its two parts, so that what holds over every run of a part holds
    over every run of the system. */
module Projection {
  import P = ProcessModel
  import PI = ProcessInvariant
  import R = ResourceModel
  import RS = ResourceSteps
  import opened WholeSystem

  /** The step of the process layer. */
  function Call(s: System, o: Op): P.Op
    requires CanDo(s, o)
  {
    if o.ProcessOp? then o.p else AsCall(s, o.r, o.address)
  }

  /** The step of the resource layer, if there is one. */
  function Moves(s: System, o: Op): seq<R.Op>
    requires CanDo(s, o)
  {
    match o
    case ProcessOp(p) =>
      if Awaited(s.ps, p) then [R.ReleaseOp(s.ps.running)]
      else if p.SpawnCall? then [R.ResetOp(s.ps.free[0])]
      else []
    case ResourceOp(r, _) => [r]
  }

  function Calls(s: System, ops: seq<Op>): seq<P.Op>
    requires ValidRun(s, ops)
    decreases ops
  {
    if ops == [] then [] else [Call(s, ops[0])] + Calls(Do(s, ops[0]), ops[1..])
  }

  function AllMoves(s: System, ops: seq<Op>): seq<R.Op>
    requires ValidRun(s, ops)
    decreases ops
  {
    if ops == [] then [] else Moves(s, ops[0]) + AllMoves(Do(s, ops[0]), ops[1..])
  }

  ghost predicate Splits(s: System, o: Op)
    requires CanDo(s, o)
  {
    && P.CanStep(s.ps, Call(s, o)) && Do(s, o).ps == P.Step(s.ps, Call(s, o))
    && (Moves(s, o) == [] ==> Do(s, o).rs == s.rs)
    && (Moves(s, o) != [] ==> Moves(s, o) == [Moves(s, o)[0]] && R.CanStep(s.rs, Moves(s, o)[0])
                              && Do(s, o).rs == R.Step(s.rs, Moves(s, o)[0]))
  }

  lemma ProcessSplits(s: System, p: P.Op)
    requires Inv(s) && CanDo(s, ProcessOp(p))
    ensures Splits(s, ProcessOp(p))
  {
    hide Inv, P.CanStep, P.Step, R.Release, R.Reset, Awaited, Splits, Do, Moves;
    Blocks(s, p);
    BlocksSplit(s, p);
  }

  lemma BlocksSplit(s: System, p: P.Op)
    requires CanDo(s, ProcessOp(p)) && 0 <= s.ps.running < |s.rs.holders|
    requires p.SpawnCall? ==> s.ps.free != [] && 0 <= s.ps.free[0] < |s.rs.holders|
    ensures Splits(s, ProcessOp(p))
  {
    hide P.CanStep, P.Step, R.Release, R.Reset, Awaited;
  }

  lemma ResourceSplits(s: System, r: R.Op, address: int)
    requires Inv(s) && CanDo(s, ResourceOp(r, address))
    ensures Splits(s, ResourceOp(r, address))
  {
    ResourceKeeps(s, r, address);
    hide Inv, P.CanStep, P.Step, R.Step, R.CanStep, AsCall;
  }

  lemma StepSplits(s: System, o: Op)
    requires Inv(s) && CanDo(s, o)
    ensures Splits(s, o)
  {
    hide *;
    if o.ProcessOp? { ProcessSplits(s, o.p); } else { ResourceSplits(s, o.r, o.address); }
  }

  /** The step of the resource layer, which for a process call releases or forgets descriptors at most. */
  lemma MoveIs(s: System, o: Op)
    requires Inv(s) && CanDo(s, o)
    ensures RS.Inv(s.rs)
    ensures o.ResourceOp? ==> Moves(s, o) == [o.r]
    ensures Moves(s, o) == [] ==> Do(s, o).rs == s.rs
    ensures Moves(s, o) != [] ==> R.CanStep(s.rs, Moves(s, o)[0]) && Do(s, o).rs == R.Step(s.rs, Moves(s, o)[0])
    ensures Moves(s, o) != [] && o.ProcessOp? ==> Moves(s, o)[0].ReleaseOp? || Moves(s, o)[0].ResetOp?
  {
    StepSplits(s, o);
    hide CanDo, PI.Inv, RS.Inv, Do, R.CanStep, R.Step, P.CanStep, P.Step, Call, Awaited;
  }

  lemma FirstCall(s: P.State, p: P.Op, rest: seq<P.Op>)
    requires P.CanStep(s, p) && P.ValidRun(P.Step(s, p), rest)
    ensures P.ValidRun(s, [p] + rest) && P.After(s, [p] + rest) == P.After(P.Step(s, p), rest)
  {
    assert ([p] + rest)[1..] == rest;
    hide P.CanStep, P.Step;
  }

  lemma FirstMove(s: R.State, r: R.Op, rest: seq<R.Op>)
    requires R.CanStep(s, r) && R.ValidRun(R.Step(s, r), rest)
    ensures R.ValidRun(s, [r] + rest) && R.After(s, [r] + rest) == R.After(R.Step(s, r), rest)
  {
    assert ([r] + rest)[1..] == rest;
    hide R.CanStep, R.Step;
  }

  ghost predicate RunsSplit(s: System, ops: seq<Op>)
    requires ValidRun(s, ops)
  {
    && P.ValidRun(s.ps, Calls(s, ops)) && P.After(s.ps, Calls(s, ops)) == After(s, ops).ps
    && R.ValidRun(s.rs, AllMoves(s, ops)) && R.After(s.rs, AllMoves(s, ops)) == After(s, ops).rs
  }

  lemma MoreCalls(s: System, ops: seq<Op>)
    requires ops != [] && ValidRun(s, ops) && Splits(s, ops[0]) && RunsSplit(Do(s, ops[0]), ops[1..])
    ensures P.ValidRun(s.ps, Calls(s, ops)) && P.After(s.ps, Calls(s, ops)) == After(s, ops).ps
  {
    hide CanDo, Do, Call, Moves, P.CanStep, P.Step, R.CanStep, R.Step, R.ValidRun, R.After, P.ValidRun, P.After;
    FirstCall(s.ps, Call(s, ops[0]), Calls(Do(s, ops[0]), ops[1..]));
  }

  lemma MoreMoves(s: System, ops: seq<Op>)
    requires ops != [] && ValidRun(s, ops) && Splits(s, ops[0]) && RunsSplit(Do(s, ops[0]), ops[1..])
    ensures R.ValidRun(s.rs, AllMoves(s, ops)) && R.After(s.rs, AllMoves(s, ops)) == After(s, ops).rs
  {
    hide CanDo, Do, Call, Moves, P.CanStep, P.Step, R.CanStep, R.Step, R.ValidRun, R.After, P.ValidRun, P.After;
    var m, rest := Moves(s, ops[0]), AllMoves(Do(s, ops[0]), ops[1..]);
    if m != [] {
      FirstMove(s.rs, m[0], rest);
    } else {
      assert m + rest == rest;
    }
  }

  /** A run of the system is a run of the processes and a run of the resources. */
  lemma {:induction false} RunSplits(s: System, ops: seq<Op>)
    requires Inv(s) && ValidRun(s, ops)
    ensures Inv(After(s, ops)) && RunsSplit(s, ops)
    decreases ops
  {
    if ops == [] {
      hide Inv;
    } else {
      hide Inv, CanDo, Do, Call, Moves, P.ValidRun, P.After, R.ValidRun, R.After, RunsSplit, Splits;
      StepSplits(s, ops[0]);
      StepKeepsInv(s, ops[0]);
      RunSplits(Do(s, ops[0]), ops[1..]);
      MoreCalls(s, ops);
      MoreMoves(s, ops);
      Together(s, ops);
    }
  }

  lemma Together(s: System, ops: seq<Op>)
    requires ValidRun(s, ops)
    requires P.ValidRun(s.ps, Calls(s, ops)) && P.After(s.ps, Calls(s, ops)) == After(s, ops).ps
    requires R.ValidRun(s.rs, AllMoves(s, ops)) && R.After(s.rs, AllMoves(s, ops)) == After(s, ops).rs
    ensures RunsSplit(s, ops)
  {
  }
}
