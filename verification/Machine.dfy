/** The whole kernel in place: the process part and the resource part on their pools and linked lists, with
    the two places where a process call touches descriptors. */
module Machine {
  import opened WholeSystem
  import P = ProcessModel
  import PI = ProcessInvariant
  import PS = ProcessSteps
  import WU = Wakeups
  import R = ResourceModel
  import RS = ResourceSteps
  import RF = ResourceForms
  import K = Kernel
  import RK = ResourceKernel

  class Machine {
    const k: K.Kernel
    const r: RK.ResourceKernel
    ghost const Repr: set<object>

    ghost predicate Shape() {
      && {this, k, r} <= Repr && k.Repr <= Repr && r.Repr <= Repr && k in k.Repr && r in r.Repr
      && k.Repr !! r.Repr && this !in k.Repr + r.Repr
      && (forall i :: 0 <= i < |r.regs| ==> r.regs[i] in Repr && r.regs[i] !in k.Repr + r.Repr)
    }

    ghost predicate Valid()
      reads this, Repr
    {
      Shape() && k.Valid() && r.Ready() && Inv(Abs())
    }

    ghost function Abs(): System
      reads k, k.lists.ready, k.lists.waiting, k.lists.zombie, k.timers, k.pool, k.kids.pool
      reads r, r.srPool, r.mqPool, r.descPool, r.ptrPool, r.lists.listed, r.store, r.store.pool
    {
      System(k.Abs(), r.Abs())
    }

    /** The parts of the kernel that Abs reads. */
    lemma Parts()
      requires Shape() && k.Valid() && r.Ready()
      ensures {k, k.lists.ready, k.lists.waiting, k.lists.zombie, k.timers, k.pool, k.kids.pool} <= k.Repr
      ensures {r, r.srPool, r.mqPool, r.descPool, r.ptrPool, r.lists.listed, r.store, r.store.pool} <= r.Repr
      ensures |k.pcbs| == |k.Abs().procs| && |r.regs| == |r.holders| == |r.Abs().holders|
      ensures k.Abs().running == k.running
    {
      k.Components();
      k.Outside();
      k.Globals();
      r.RegistersApart();
      r.ReadyParts();
      r.Separate();
      r.StateSizes();
      hide K.Kernel.Valid, RK.ResourceKernel.Valid, RK.ResourceKernel.Ready;
    }

    constructor (kernel: K.Kernel, resources: RK.ResourceKernel)
      requires kernel.Valid() && resources.Ready() && Inv(System(kernel.Abs(), resources.Abs()))
      requires kernel in kernel.Repr && resources in resources.Repr && kernel.Repr !! resources.Repr
      requires forall i :: 0 <= i < |resources.regs| ==> resources.regs[i] !in kernel.Repr + resources.Repr
      ensures Valid() && Abs() == System(kernel.Abs(), resources.Abs())
    {
      hide K.Kernel.Valid, RK.ResourceKernel.Ready, Inv;
      ghost var registers: set<object> := set x | x in resources.regs;
      k, r, Repr := kernel, resources, {this} + kernel.Repr + resources.Repr + registers;
      new;
      Parts();
    }

    // ---------- resource and message calls ----------

    /** The process that runs. */
    lemma Runner(o: Op)
      requires Valid() && CanDo(Abs(), o)
      ensures k.running == Abs().ps.running && 0 <= k.running < |r.regs| && |r.regs| == |k.pcbs|
      ensures k.Valid() && r.Ready() && Shape() && Inv(Abs()) && PI.Inv(k.Abs())
      ensures Abs().ps == k.Abs() && Abs().rs == r.Abs() && Abs().ps.Me() == Abs().ps.P(k.running)
    {
      Parts();
      PI.Placed(Abs().ps);
      assert PI.InOnePlace(Abs().ps, Abs().ps.running);
      hide K.Kernel.Valid, RK.ResourceKernel.Ready, RS.Inv;
    }

    /** The resource part finds the two result registers of the PCB. */
    method LoadRegisters(p: int)
      requires Shape() && k.Valid() && r.Ready() && 0 <= p < |r.regs| == |k.pcbs|
      modifies r.regs[p]
      ensures k.Valid() && r.Ready() && k.Abs() == old(k.Abs()) && r.Abs() == old(r.Abs())
      ensures r.regs[p].syscallRetvalue == k.Abs().P(p).callResult && r.regs[p].returnValue == k.Abs().P(p).returnValue
    {
      hide *;
      Parts();
      Separated(p);
      k.Registers(p);
      r.regs[p].syscallRetvalue := k.pcbs[p].callResult;
      r.regs[p].returnValue := k.pcbs[p].returnValue;
    }

    lemma Separated(p: int)
      requires Shape() && 0 <= p < |r.regs|
      ensures r.regs[p] in Repr && r.regs[p] !in k.Repr && r.regs[p] !in r.Repr
      ensures k.Repr !! r.Repr && k.Repr <= Repr && r.Repr <= Repr && this in Repr && k in k.Repr && r in r.Repr
    {
    }

    lemma AbsIs()
      ensures Abs() == System(k.Abs(), r.Abs())
    {
    }

    /** The result of a call reaches the PCB, and with it the PCBPtr blocks that the call has taken. */
    method Answer(p: int, num: int, args: seq<int>, blocks: nat, ghost s: System, ghost op: R.Op, ghost address: int)
      requires Shape() && k.Valid() && r.Ready() && 0 <= p < |r.regs|
      requires Inv(s) && CanDo(s, ResourceOp(op, address)) && k.Abs() == s.ps
      requires R.CanStep(s.rs, op) && r.Abs() == R.Step(s.rs, op)
      requires AsCall(s, op, address)
               == P.OtherCall(num, args, r.regs[p].syscallRetvalue, r.regs[p].returnValue, blocks)
      modifies Repr
      ensures Valid() && Abs() == Do(s, ResourceOp(op, address))
    {
      hide *;
      Separated(p);
      Parts();
      CallKeeps(s, op, address);
      k.Trap(P.OtherCall(num, args, r.regs[p].syscallRetvalue, r.regs[p].returnValue, blocks));
      AbsIs();
      Rejoin();
    }

    lemma Rejoin()
      requires Shape() && k.Valid() && r.Ready() && Inv(Abs())
      ensures Valid()
    {
    }

    // ---------- process calls ----------

    /** A tick or a process call. */
    method ProcessCall(p: P.Op)
      requires Valid() && CanDo(Abs(), ProcessOp(p))
      modifies Repr
      ensures Valid() && Abs() == Do(old(Abs()), ProcessOp(p))
    {
      hide *;
      ghost var s := Abs();
      Runner(ProcessOp(p));
      Within();
      Parts();
      ProcessKeepsInv(s, p);
      ProcessAllowed(s, p);
      var caller := k.running;
      var awaited := false;
      if p.ExitCall? {
        awaited := k.ParentWaiting();
      }
      if p.Tick? {
        k.TimerInterrupt();
      } else {
        k.Trap(p);
      }
      Within();
      Parts();
      if awaited {
        r.ReleaseDescriptors(caller);
      } else if p.SpawnCall? {
        var b := k.LastReady();
        r.ResetDescriptors(b);
      }
      AbsIs();
      Rejoin();
    }

    lemma Within()
      requires Shape()
      ensures k.Repr !! r.Repr && k.Repr <= Repr && r.Repr <= Repr && this in Repr && k in k.Repr && r in r.Repr
    {
    }

    // ---------- resource and message calls ----------

    /** internal_openResource, whose slot of a message queue costs a PCBPtr block. */
    method OpenResource(id: int, kind: int, mode: int, ghost address: int)
      requires Valid() && CanDo(Abs(), ResourceOp(R.OpenOp(k.running, id, kind, mode), address))
      modifies Repr
      ensures Valid() && Abs() == Do(old(Abs()), ResourceOp(R.OpenOp(old(k.running), id, kind, mode), address))
    {
      hide *;
      ghost var s, op := Abs(), R.OpenOp(k.running, id, kind, mode);
      var p := k.running;
      Runner(ResourceOp(op, address));
      Separated(p);
      Parts();
      Allowed(s, op, address);
      var takes := r.WillTake(p, id, kind, mode);
      LoadRegisters(p);
      r.InternalOpenResource(p, id, kind, mode);
      OpenCall(s, p, id, kind, mode, address);
      Answer(p, DSOS_CALL_OPEN_RESOURCE, [id, kind, mode], if takes then 1 else 0, s, op, address);
    }

    /** internal_destroyResource. */
    method DestroyResource(id: int, ghost address: int)
      requires Valid() && CanDo(Abs(), ResourceOp(R.DestroyOp(id), address))
      modifies Repr
      ensures Valid() && Abs() == Do(old(Abs()), ResourceOp(R.DestroyOp(id), address))
    {
      hide *;
      ghost var s, op := Abs(), R.DestroyOp(id);
      var p := k.running;
      Runner(ResourceOp(op, address));
      Separated(p);
      Parts();
      Allowed(s, op, address);
      LoadRegisters(p);
      r.InternalDestroyResource(p, id);
      DestroyCall(s, id, address);
      Answer(p, DSOS_CALL_DESTROY_RESOURCE, [id], 0, s, op, address);
    }

    /** internal_message_queue_write; the buffer is at `address`. */
    method MessageQueueWrite(fd: int, buffer: seq<char>, length: int, address: int)
      requires Valid() && CanDo(Abs(), ResourceOp(R.WriteOp(k.running, fd, buffer, length), address))
      modifies Repr
      ensures Valid() && Abs() == Do(old(Abs()), ResourceOp(R.WriteOp(old(k.running), fd, buffer, length), address))
    {
      hide *;
      ghost var s, op := Abs(), R.WriteOp(k.running, fd, buffer, length);
      var p := k.running;
      Runner(ResourceOp(op, address));
      Separated(p);
      Parts();
      Allowed(s, op, address);
      WriteCall(s, p, fd, buffer, length, address);
      LoadRegisters(p);
      r.InternalMessageQueueWrite(p, fd, buffer, length);
      Answer(p, DSOS_CALL_MESSAGE_QUEUE_WRITE, [fd, address, length], 0, s, op, address);
    }

    /** internal_message_queue_read into the buffer at `address`. */
    method MessageQueueRead(fd: int, buffer: array<char>, length: int, address: int)
      requires Valid() && CanDo(Abs(), ResourceOp(R.ReadOp(k.running, fd, length), address))
      requires buffer !in Repr && length <= buffer.Length
      modifies Repr, buffer
      ensures Valid() && Abs() == Do(old(Abs()), ResourceOp(R.ReadOp(old(k.running), fd, length), address))
      ensures var data := R.Read(old(Abs()).rs, old(k.running), fd, length).data;
              |data| <= buffer.Length && buffer[..|data|] == data && buffer[|data|..] == old(buffer[..])[|data|..]
    {
      hide *;
      ghost var s, op := Abs(), R.ReadOp(k.running, fd, length);
      var p := k.running;
      Runner(ResourceOp(op, address));
      Separated(p);
      Parts();
      Allowed(s, op, address);
      LoadRegisters(p);
      r.InternalMessageQueueRead(p, fd, buffer, length);
      ReadCall(s, p, fd, length, address);
      ghost var read := buffer[..];
      Answer(p, DSOS_CALL_MESSAGE_QUEUE_READ, [fd, address, length], 0, s, op, address);
      assert buffer[..] == read;
    }

    /** internal_closeResource. */
    method CloseResource(fd: int, mode: int, ghost address: int)
      requires Valid() && CanDo(Abs(), ResourceOp(R.CloseOp(k.running, fd, mode), address))
      modifies Repr
      ensures Valid() && Abs() == Do(old(Abs()), ResourceOp(R.CloseOp(old(k.running), fd, mode), address))
    {
      hide *;
      ghost var s, op := Abs(), R.CloseOp(k.running, fd, mode);
      var p := k.running;
      Runner(ResourceOp(op, address));
      Separated(p);
      Parts();
      Allowed(s, op, address);
      LoadRegisters(p);
      r.InternalCloseResource(p, fd, mode);
      CloseCall(s, p, fd, mode, address);
      Answer(p, DSOS_CALL_CLOSE_RESOURCE, [fd, mode], 0, s, op, address);
    }
  }

  lemma CallKeeps(s: System, op: R.Op, address: int)
    requires Inv(s) && CanDo(s, ResourceOp(op, address))
    ensures PI.Inv(s.ps) && P.CanStep(s.ps, AsCall(s, op, address)) && !AsCall(s, op, address).Tick?
    ensures Do(s, ResourceOp(op, address)) == System(P.Step(s.ps, AsCall(s, op, address)), R.Step(s.rs, op))
    ensures Inv(Do(s, ResourceOp(op, address)))
  {
    ResourceKeeps(s, op, address);
    hide PI.Inv, RS.Inv, P.CanStep, P.Step, R.Step, R.CanStep, R.Perform, HasBlock, CallOf;
  }

  lemma Allowed(s: System, op: R.Op, address: int)
    requires CanDo(s, ResourceOp(op, address))
    ensures R.CanStep(s.rs, op) && s.ps.running != P.NULL
    ensures R.Step(s.rs, op) == R.Perform(s.rs, op).s
  {
    hide R.CanStep, R.Perform, HasBlock, CallOf;
  }

  lemma CloseCall(s: System, p: int, fd: int, mode: int, address: int)
    requires R.CanStep(s.rs, R.CloseOp(p, fd, mode))
    ensures R.Perform(s.rs, R.CloseOp(p, fd, mode)) == R.Close(s.rs, p, fd, mode)
    ensures R.Close(s.rs, p, fd, mode).ret.Value?
    ensures AsCall(s, R.CloseOp(p, fd, mode), address)
            == P.OtherCall(DSOS_CALL_CLOSE_RESOURCE, [fd, mode], R.Close(s.rs, p, fd, mode).ret.v,
                           s.ps.Me().returnValue, 0)
  {
    hide R.Unlink, R.ByFd;
  }

  lemma OpenCall(s: System, p: int, id: int, kind: int, mode: int, address: int)
    requires R.CanStep(s.rs, R.OpenOp(p, id, kind, mode))
    ensures R.CanOpen(s.rs, id, kind, mode)
    ensures R.Perform(s.rs, R.OpenOp(p, id, kind, mode)) == R.Open(s.rs, p, id, kind, mode)
    ensures R.Open(s.rs, p, id, kind, mode).ret.Value?
    ensures AsCall(s, R.OpenOp(p, id, kind, mode), address)
            == P.OtherCall(DSOS_CALL_OPEN_RESOURCE, [id, kind, mode], R.Open(s.rs, p, id, kind, mode).ret.v,
                           s.ps.Me().returnValue, if R.TakesSlot(s.rs, R.OpenOp(p, id, kind, mode)) then 1 else 0)
  {
    hide R.ById, R.Link, R.NewResource, R.TakeSlot, R.TakesSlot;
  }

  lemma DestroyCall(s: System, id: int, address: int)
    ensures R.CanStep(s.rs, R.DestroyOp(id)) && R.Perform(s.rs, R.DestroyOp(id)) == R.Destroy(s.rs, id)
    ensures R.Destroy(s.rs, id).ret.Value?
    ensures AsCall(s, R.DestroyOp(id), address)
            == P.OtherCall(DSOS_CALL_DESTROY_RESOURCE, [id], R.Destroy(s.rs, id).ret.v, s.ps.Me().returnValue, 0)
  {
    hide R.ById, R.DropAll;
  }

  lemma WriteCall(s: System, p: int, fd: int, buffer: seq<char>, length: int, address: int)
    requires R.CanStep(s.rs, R.WriteOp(p, fd, buffer, length))
    ensures R.CanWrite(s.rs, p, fd, buffer, length)
    ensures R.Perform(s.rs, R.WriteOp(p, fd, buffer, length)) == R.Write(s.rs, p, fd, buffer, length)
    ensures var ret := R.Write(s.rs, p, fd, buffer, length).ret;
            AsCall(s, R.WriteOp(p, fd, buffer, length), address)
            == P.OtherCall(DSOS_CALL_MESSAGE_QUEUE_WRITE, [fd, address, length],
                           RF.Register(s.ps.Me().callResult, ret),
                           if ret.Value? then s.ps.Me().returnValue else R.DSOS_MESSAGEQUEUEFULL, 0)
  {
    hide R.QueueOf, R.Put;
  }

  lemma ReadCall(s: System, p: int, fd: int, length: int, address: int)
    requires R.CanStep(s.rs, R.ReadOp(p, fd, length))
    ensures R.Perform(s.rs, R.ReadOp(p, fd, length)) == R.Read(s.rs, p, fd, length)
    ensures R.Read(s.rs, p, fd, length).ret.Value?
    ensures AsCall(s, R.ReadOp(p, fd, length), address)
            == P.OtherCall(DSOS_CALL_MESSAGE_QUEUE_READ, [fd, address, length], R.Read(s.rs, p, fd, length).ret.v,
                           s.ps.Me().returnValue, 0)
  {
    hide R.QueueOf, R.Drop;
  }

  /** What a process call finds, and what it does to the descriptors. */
  lemma ProcessAllowed(s: System, p: P.Op)
    requires Inv(s) && CanDo(s, ProcessOp(p))
    ensures PI.Inv(s.ps) && P.CanStep(s.ps, p) && !p.OtherCall? && s.ps.running != P.NULL
    ensures Do(s, ProcessOp(p)).ps == P.Step(s.ps, p)
    ensures p.Tick? ==> p == P.Op.Tick
    ensures p.ExitCall? ==> 0 <= s.ps.Me().parent < |s.ps.procs| && (Awaited(s.ps, p) <==> P.ParentWaits(s.ps))
    ensures Awaited(s.ps, p) ==> Do(s, ProcessOp(p)).rs == R.Release(s.rs, s.ps.running)
    ensures !Awaited(s.ps, p) && !p.SpawnCall? ==> Do(s, ProcessOp(p)).rs == s.rs
    ensures !p.ExitCall? ==> !Awaited(s.ps, p)
    ensures p.SpawnCall? ==>
              && s.ps.free != [] && 0 <= s.ps.free[0] < |s.ps.procs|
              && P.Step(s.ps, p).ready == s.ps.ready + [s.ps.free[0]]
              && Do(s, ProcessOp(p)).rs == R.Reset(s.rs, s.ps.free[0])
  {
    Blocks(s, p);
    PS.CallIs(s.ps, p);
    EnteredGone(s.ps, p);
    if p.ExitCall? { AwaitedIs(s.ps, p); }
    hide PI.Inv, RS.Inv, P.CanStep, R.Release, R.Reset, Awaited, P.ParentWaits;
  }

  lemma AwaitedIs(s: P.State, p: P.Op)
    requires PI.Inv(s) && P.CanStep(s, p) && p.ExitCall?
    ensures 0 <= s.Me().parent < |s.procs| && (Awaited(s, p) <==> P.ParentWaits(s))
  {
    var e := P.Entered(s, p);
    PS.EnteredKeepsInv(s, p);
    PI.Placed(s);
    assert PI.InOnePlace(s, s.running);
    WU.ParentWaitsSame(e);
  }

  /** The kernel when the first process starts. */
  method Initialise(processes: nat, standard: nat, queues: nat, descriptors: nat, messages: nat) returns (m: Machine)
    requires processes > 0 && standard > 0 && queues > 0 && descriptors > 0 && messages > 0
    ensures m.Valid() && m.Abs() == Boot(processes, standard, queues, descriptors, messages)
  {
    hide *;
    var k := K.Initialise(processes);
    var r := RK.Initialise(standard, queues, descriptors, processes, messages);
    BootInv(processes, standard, queues, descriptors, messages);
    BootIs(processes, standard, queues, descriptors, messages);
    r.RegistersApart();
    m := new Machine(k, r);
  }

  lemma BootIs(processes: nat, standard: nat, queues: nat, descriptors: nat, messages: nat)
    requires processes > 0
    ensures Boot(processes, standard, queues, descriptors, messages)
            == System(P.Boot(processes), RS.Boot(standard, queues, descriptors, processes, messages))
  {
  }
}
