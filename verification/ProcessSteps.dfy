/** Each kernel call keeps the invariant. */
module ProcessSteps {
  import opened Sequences
  import opened ProcessModel
  import opened ProcessInvariant

  // ---------- calls that create or free no process ----------

  ghost predicate Quiet(s: State, t: State) {
    && |t.procs| == |s.procs| && t.free == s.free && t.zombie == s.zombie
    && t.init == s.init && t.lastPid == s.lastPid
    && forall b :: SameIdentity(s.P(b), t.P(b))
  }

  ghost predicate SameIdentity(p: Proc, q: Proc) {
    p.pid == q.pid && p.parent == q.parent && p.children == q.children
  }

  lemma QuietKeepsFamily(s: State, t: State)
    requires Quiet(s, t) && Family(s) && Pids(s)
    ensures Family(t) && Pids(t)
  {
    assert forall b :: SameIdentity(s.P(b), t.P(b));
    assert forall b :: Live(s, b) <==> Live(t, b);
    forall h, c | c in t.P(h).children ensures ChildOk(t, h, c) {
      assert ChildOk(s, h, c);
    }
    forall b | Live(t, b) && b != t.init ensures HasHolder(t, b) {
      var h :| b in s.P(h).children;
      assert b in t.P(h).children;
    }
  }

  /** Registers, call result and exit value of the running process may change. */
  ghost predicate OnlyRegisters(s: State, t: State) {
    && Quiet(s, t) && t.running == s.running && t.ready == s.ready && t.waiting == s.waiting
    && t.timers == s.timers
    && forall b :: t.P(b).status == s.P(b).status && t.P(b).timer == s.P(b).timer
                   && (b != s.running ==> t.P(b).callNum == s.P(b).callNum)
  }

  lemma RegistersKeepInv(s: State, t: State)
    requires Inv(s) && OnlyRegisters(s, t)
    ensures Inv(t)
  {
    Placed(s);
    QuietKeepsFamily(s, t);
    assert forall b :: Live(s, b) <==> Live(t, b);
    forall b | b in t.waiting
      ensures t.P(b).callNum == if HasTimer(t.timers, b) then DSOS_CALL_SLEEP else DSOS_CALL_WAIT
    {
      assert InOnePlace(s, b);
    }
  }

  lemma EnterKeepsInv(s: State, num: int, args: seq<int>)
    requires Inv(s)
    ensures Inv(Enter(s, num, args)) && OnlyRegisters(s, Enter(s, num, args))
  {
    RegistersKeepInv(s, Enter(s, num, args));
  }

  lemma ReturnKeepsInv(s: State, result: int)
    requires Inv(s)
    ensures Inv(Return(s, result)) && OnlyRegisters(s, Return(s, result))
  {
    RegistersKeepInv(s, Return(s, result));
  }

  // ---------- schedule ----------

  lemma WakeOneStatuses(s: State, k: nat)
    requires Partition(s) && Statuses(s) && Elapsed(s) && k <= |s.ready| && s.timers[0].pcb in s.waiting
    ensures Statuses(WakeOne(s, k))
  {
    var b := s.timers[0].pcb;
    Placed(s);
    assert InOnePlace(s, b);
    InsertMembers(s.ready, k, b);
    RemoveMembers(s.waiting, b);
    forall x | x in s.zombie ensures x != b { assert InOnePlace(s, x); }
  }

  lemma TimersTail(timers: seq<Timer>)
    requires timers != [] && Sorted(timers) && OnePerProcess(timers)
    ensures Sorted(timers[1..]) && OnePerProcess(timers[1..])
    ensures forall b :: HasTimer(timers[1..], b) <==> HasTimer(timers, b) && b != timers[0].pcb
  {
    forall b | HasTimer(timers, b) && b != timers[0].pcb ensures HasTimer(timers[1..], b) {
      var i :| 0 <= i < |timers| && timers[i].pcb == b;
      assert timers[1..][i - 1].pcb == b;
    }
  }

  lemma WakeOneSleepers(s: State, k: nat)
    requires Partition(s) && Sleepers(s) && Elapsed(s) && k <= |s.ready|
    ensures Sleepers(WakeOne(s, k))
  {
    var b, t := s.timers[0].pcb, WakeOne(s, k);
    Placed(s);
    RemoveMembers(s.waiting, b);
    TimersTail(s.timers);
    forall i | 0 <= i < |t.timers| ensures t.timers[i].pcb in t.waiting {
      assert t.timers[i] == s.timers[i + 1];
    }
    forall x | Live(t, x) ensures t.P(x).timer == NULL {
      assert Live(s, x);
    }
  }

  lemma WakeOneQuiet(s: State, k: nat)
    requires Elapsed(s) && k <= |s.ready|
    ensures Quiet(s, WakeOne(s, k))
  {
  }

  lemma WakeOneKeepsInv(s: State, k: nat)
    requires Inv(s) && Elapsed(s) && k <= |s.ready|
    ensures Inv(WakeOne(s, k))
  {
    WakeOnePlaces(s, k);
    WakeOneStatuses(s, k);
    WakeOneSleepers(s, k);
    WakeOneQuiet(s, k);
    QuietKeepsFamily(s, WakeOne(s, k));
  }

  lemma {:induction false} WakeElapsedKeepsInv(s: State, k: nat)
    requires Inv(s) && k <= |s.ready|
    ensures Inv(WakeElapsed(s, k))
    decreases |s.timers|
  {
    if Elapsed(s) {
      WakeOneKeepsInv(s, k);
      WakeElapsedKeepsInv(WakeOne(s, k), k + 1);
    }
  }

  lemma RotateStatuses(s: State)
    requires Partition(s) && Statuses(s) && s.running != NULL && s.ready != []
    ensures Statuses(Rotate(s))
  {
    Placed(s);
    var t := Rotate(s);
    assert InOnePlace(s, s.ready[0]) && InOnePlace(s, s.running);
    forall x | x in t.ready ensures t.P(x).status == Ready {
      if x != s.running {
        assert x in s.ready[1..];
        TailApart(s.ready, x);
      }
    }
    forall x | x in s.zombie || x in s.waiting ensures t.P(x).status == s.P(x).status {
      assert InOnePlace(s, x);
    }
  }

  lemma TailApart(s: seq<int>, x: int)
    requires Distinct(s) && s != []
    ensures x in s[1..] ==> x != s[0] && x in s
  {
  }

  lemma RotateSleepers(s: State)
    requires Partition(s) && Sleepers(s) && s.running != NULL && s.ready != []
    ensures Sleepers(Rotate(s))
  {
    Placed(s);
    var t := Rotate(s);
    forall x | x in t.waiting ensures t.P(x).callNum == s.P(x).callNum {
      assert InOnePlace(s, x);
    }
    forall x | Live(t, x) ensures t.P(x).timer == NULL {
      assert Live(s, x);
    }
  }

  lemma RotateQuiet(s: State)
    ensures Quiet(s, Rotate(s))
  {
  }

  lemma RotateKeepsInv(s: State)
    requires Inv(s) && s.running != NULL
    ensures Inv(Rotate(s))
  {
    if s.ready != [] {
      RotatePlaces(s);
      RotateStatuses(s);
      RotateSleepers(s);
      RotateQuiet(s);
      QuietKeepsFamily(s, Rotate(s));
    }
  }

  lemma ScheduleKeepsInv(s: State)
    requires Inv(s) && s.running != NULL
    ensures Inv(Schedule(s))
  {
    WakeElapsedKeepsInv(s, 0);
    WakeElapsedRunning(s, 0);
    RotateKeepsInv(WakeElapsed(s, 0));
  }

  lemma {:induction false} WakeElapsedRunning(s: State, k: nat)
    requires k <= |s.ready|
    ensures WakeElapsed(s, k).running == s.running
    decreases |s.timers|
  {
    if Elapsed(s) {
      WakeElapsedRunning(WakeOne(s, k), k + 1);
    }
  }

  // ---------- blocking: sleep and wait ----------

  /** A new timer goes behind every timer that is due no later and before every later one. */
  lemma {:induction false} SlotSplits(timers: seq<Timer>, wake: int)
    requires Sorted(timers)
    ensures forall i :: 0 <= i < Slot(timers, wake) ==> timers[i].wake <= wake
    ensures forall i :: Slot(timers, wake) <= i < |timers| ==> wake < timers[i].wake
  {
    if timers != [] && timers[0].wake <= wake {
      SlotSplits(timers[1..], wake);
    }
  }

  lemma AddTimerMembers(timers: seq<Timer>, t: Timer)
    ensures forall b :: HasTimer(AddTimer(timers, t), b) <==> HasTimer(timers, b) || b == t.pcb
  {
    var k, r := Slot(timers, t.wake), AddTimer(timers, t);
    forall b | HasTimer(timers, b) || b == t.pcb ensures HasTimer(r, b) {
      if b == t.pcb {
        assert r[k].pcb == b;
      } else {
        var i :| 0 <= i < |timers| && timers[i].pcb == b;
        assert r[if i < k then i else i + 1].pcb == b;
      }
    }
    hide InsertAt, Slot;
    forall b | HasTimer(r, b) ensures HasTimer(timers, b) || b == t.pcb {
      var i :| 0 <= i < |r| && r[i].pcb == b;
      if i != k {
        assert timers[if i < k then i else i - 1].pcb == b;
      }
    }
  }

  /** A timer list stays sorted when a timer is added, and no process gets a second timer. */
  lemma AddTimerSorted(timers: seq<Timer>, t: Timer)
    requires Sorted(timers) && OnePerProcess(timers) && !HasTimer(timers, t.pcb)
    ensures Sorted(AddTimer(timers, t)) && OnePerProcess(AddTimer(timers, t))
    ensures forall b :: HasTimer(AddTimer(timers, t), b) <==> HasTimer(timers, b) || b == t.pcb
  {
    AddTimerMembers(timers, t);
    SlotSplits(timers, t.wake);
    hide HasTimer, Slot;
    assert forall i :: 0 <= i < |timers| ==> timers[i].pcb != t.pcb by { NoTimer(timers, t.pcb); }
  }

  lemma NoTimer(timers: seq<Timer>, b: int)
    requires !HasTimer(timers, b)
    ensures forall i :: 0 <= i < |timers| ==> timers[i].pcb != b
  {
  }

  lemma BlockNextStatuses(s: State)
    requires Partition(s) && Statuses(s) && s.running != NULL
    ensures Statuses(Next(Block(s)))
  {
    Placed(s);
    var t := Next(Block(s));
    assert InOnePlace(s, s.running);
    forall x | x in s.ready || x in s.zombie ensures x != s.running { assert InOnePlace(s, x); }
    if s.ready != [] {
      assert t.running in s.ready;
      forall x | x in t.ready ensures x in s.ready { assert x in s.ready[1..]; }
    }
  }

  /** The timers after blocking: as before, with one for the running process if it sleeps. */
  ghost predicate TimersFor(s: State, timers: seq<Timer>) {
    && Sorted(timers) && OnePerProcess(timers)
    && forall b :: HasTimer(timers, b) <==>
                   HasTimer(s.timers, b) || (b == s.running && s.Me().callNum == DSOS_CALL_SLEEP)
  }

  lemma BlockNextSleepers(s: State, timers: seq<Timer>)
    requires Partition(s) && Sleepers(s) && s.running != NULL && TimersFor(s, timers)
    requires s.Me().callNum == DSOS_CALL_SLEEP || s.Me().callNum == DSOS_CALL_WAIT
    ensures Sleepers(Next(Block(s.(timers := timers))))
  {
    Placed(s);
    var t := Next(Block(s.(timers := timers)));
    assert t.waiting == s.waiting + [s.running] && t.timers == timers;
    assert InOnePlace(s, s.running);
    assert !HasTimer(s.timers, s.running);
    forall i | 0 <= i < |timers| ensures timers[i].pcb in t.waiting {
      assert HasTimer(timers, timers[i].pcb);
    }
    forall b | b in t.waiting
      ensures t.P(b).callNum == if HasTimer(timers, b) then DSOS_CALL_SLEEP else DSOS_CALL_WAIT
    {
      assert t.P(b).callNum == s.P(b).callNum;
    }
    forall x | Live(t, x) ensures t.P(x).timer == NULL { assert Live(s, x); }
  }

  lemma BlockNextQuiet(s: State, timers: seq<Timer>)
    ensures Quiet(s, Next(Block(s.(timers := timers))))
  {
  }

  lemma BlockNextKeepsInv(s: State, timers: seq<Timer>)
    requires Inv(s) && s.running != NULL && TimersFor(s, timers)
    requires s.Me().callNum == DSOS_CALL_SLEEP || s.Me().callNum == DSOS_CALL_WAIT
    ensures Inv(Next(Block(s.(timers := timers))))
  {
    var u := s.(timers := timers);
    assert Places(u) == Places(s) && Statuses(u);
    hide Places, Statuses, Sleepers, Family, Pids, Next, Block, TimersFor, Quiet, Once;
    BlockNextPlaces(u);
    BlockNextStatuses(u);
    BlockNextSleepers(s, timers);
    BlockNextQuiet(s, timers);
    QuietKeepsFamily(s, Next(Block(u)));
  }

  lemma SleepKeepsInv(s: State)
    requires Inv(s) && s.running != NULL && s.Me().callNum == DSOS_CALL_SLEEP
    ensures Inv(Sleep(s))
  {
    if s.Me().timer != NULL || |s.timers| >= |s.procs| {
      ReturnKeepsInv(s, DSOS_ESLEEP);
    } else {
      NoTimerRunning(s);
      var t := Timer(s.time + s.Me().arg0, s.running);
      AddTimerSorted(s.timers, t);
      BlockNextKeepsInv(s, AddTimer(s.timers, t));
    }
  }

  lemma NoTimerRunning(s: State)
    requires Partition(s) && Sleepers(s)
    ensures !HasTimer(s.timers, s.running)
  {
    Placed(s);
    assert InOnePlace(s, s.running);
  }

  // ---------- spawn ----------

  lemma SpawnLive(s: State)
    requires Partition(s) && CanSpawn(s)
    ensures forall x :: Live(Spawn(s), x) <==> Live(s, x) || x == s.free[0]
    ensures !Live(s, s.free[0]) && 0 <= s.free[0] < |s.procs|
  {
    Placed(s);
    var t, b := Spawn(s), s.free[0];
    assert InOnePlace(s, b);
    forall x ensures Live(t, x) <==> Live(s, x) || x == b {
      assert s.free == [b] + s.free[1..];
    }
  }

  /** Block b, free before, is now a live child of r; nothing else about families changes. */
  ghost predicate Birth(s: State, t: State, r: int, b: int) {
    && |t.procs| == |s.procs|
    && (forall x :: Live(t, x) <==> Live(s, x) || x == b)
    && !Live(s, b) && b !in s.zombie && r != b && Live(s, r) && r !in s.zombie
    && t.init == s.init && t.zombie == s.zombie
    && (forall x :: x in t.free ==> x in s.free && x != b)
    && t.P(b).parent == r && r != NULL && t.P(b).children == []
    && t.P(r).children == s.P(r).children + [b]
    && (forall x :: x != b ==> t.P(x).parent == s.P(x).parent)
    && (forall x :: x != b && x != r ==> t.P(x).children == s.P(x).children)
  }

  lemma SpawnIsBirth(s: State)
    requires Partition(s) && s.running != NULL && CanSpawn(s)
    ensures Birth(s, Spawn(s), s.running, s.free[0])
  {
    Placed(s);
    SpawnLive(s);
    assert InOnePlace(s, s.free[0]) && InOnePlace(s, s.running);
    assert forall x :: x in s.free[1..] ==> x in s.free && x != s.free[0];
  }

  lemma BirthChildren(s: State, t: State, r: int, b: int)
    requires ChildrenOk(s) && Birth(s, t, r, b)
    ensures forall h, c :: c in t.P(h).children <==>
              (h != b && c in s.P(h).children) || (h == r && c == b)
    ensures forall h :: b !in s.P(h).children
  {
    forall h ensures b !in s.P(h).children {
      assert b in s.P(h).children ==> ChildOk(s, h, b);
    }
  }

  lemma BirthChildrenOk(s: State, t: State, r: int, b: int)
    requires ChildrenOk(s) && Rooted(s) && Birth(s, t, r, b)
    ensures ChildrenOk(t)
  {
    BirthChildren(s, t, r, b);
    forall h, c | c in t.P(h).children ensures ChildOk(t, h, c) {
      assert c in s.P(h).children ==> ChildOk(s, h, c);
    }
  }

  lemma BirthNoSharing(s: State, t: State, r: int, b: int)
    requires ChildrenOk(s) && NoSharing(s) && Birth(s, t, r, b)
    ensures NoSharing(t)
  {
    BirthChildren(s, t, r, b);
    forall h ensures Distinct(t.P(h).children) {
      assert Distinct(s.P(h).children);
    }
  }

  lemma BirthCovered(s: State, t: State, r: int, b: int)
    requires Covered(s) && Birth(s, t, r, b) && s.P(b).children == []
    ensures Covered(t)
  {
    forall x | Live(t, x) && x != t.init ensures HasHolder(t, x) {
      if x == b {
        assert b in t.P(r).children;
      } else {
        assert HasHolder(s, x);
        var h :| x in s.P(h).children;
        assert x in t.P(h).children;
      }
    }
  }

  lemma BirthKeepsFamily(s: State, t: State, r: int, b: int)
    requires Family(s) && Birth(s, t, r, b) && b in s.free
    ensures Family(t)
  {
    BirthChildrenOk(s, t, r, b);
    BirthNoSharing(s, t, r, b);
    BirthCovered(s, t, r, b);
  }

  lemma SpawnFamily(s: State)
    requires Partition(s) && Family(s) && s.running != NULL && CanSpawn(s)
    ensures Family(Spawn(s))
  {
    SpawnIsBirth(s);
    BirthKeepsFamily(s, Spawn(s), s.running, s.free[0]);
  }

  lemma SpawnPids(s: State)
    requires Partition(s) && Pids(s) && s.running != NULL && CanSpawn(s)
    ensures Pids(Spawn(s))
  {
    SpawnLive(s);
    var t := Spawn(s);
    assert forall x :: Live(s, x) ==> t.P(x).pid == s.P(x).pid;
  }

  lemma SpawnStatuses(s: State)
    requires Partition(s) && Statuses(s) && s.running != NULL && CanSpawn(s)
    ensures Statuses(Spawn(s))
  {
    Placed(s);
    assert InOnePlace(s, s.free[0]) && InOnePlace(s, s.running);
    forall x | x in s.ready || x in s.waiting || x in s.zombie || x in s.free[1..]
      ensures x != s.free[0] && x != s.running
    {
      TailApart(s.free, x);
      assert InOnePlace(s, x);
    }
    var t := Spawn(s);
    assert t.free == s.free[1..];
    forall x | x in t.free ensures t.P(x).status == s.P(x).status && x in s.free {
      TailApart(s.free, x);
    }
  }

  lemma SpawnSleepers(s: State)
    requires Partition(s) && Sleepers(s) && s.running != NULL && CanSpawn(s)
    ensures Sleepers(Spawn(s))
  {
    Placed(s);
    SpawnLive(s);
    var t := Spawn(s);
    assert InOnePlace(s, s.running);
    forall x | x in s.waiting ensures t.P(x).callNum == s.P(x).callNum {
      assert InOnePlace(s, x);
    }
    forall x | Live(t, x) ensures t.P(x).timer == NULL {
      assert x != s.free[0] ==> Live(s, x);
    }
  }

  lemma SpawnKeepsInv(s: State)
    requires Inv(s) && s.running != NULL && CanSpawn(s)
    ensures Inv(Spawn(s))
  {
    SpawnPlaces(s);
    SpawnStatuses(s);
    SpawnSleepers(s);
    SpawnFamily(s);
    SpawnPids(s);
  }

  // ---------- wait ----------

  /** The dead process c leaves the children of h and the system. */
  ghost predicate Burial(s: State, t: State, h: int, k: nat, c: int) {
    && |t.procs| == |s.procs|
    && k < |s.P(h).children| && s.P(h).children[k] == c && c in s.zombie
    && t.P(h).children == RemoveAt(s.P(h).children, k)
    && (forall x :: x != h ==> t.P(x).children == s.P(x).children)
    && (forall x :: t.P(x).parent == s.P(x).parent && t.P(x).pid == s.P(x).pid)
    && t.init == s.init && t.lastPid == s.lastPid
    && (forall x :: Live(t, x) <==> Live(s, x) && x != c)
    && (forall x :: x in t.free <==> x in s.free || x == c)
    && (forall x :: x in t.zombie ==> x in s.zombie)
  }

  lemma RemovedChild(s: seq<int>, k: nat)
    requires k < |s| && Distinct(s)
    ensures forall x :: x in RemoveAt(s, k) <==> x in s && x != s[k]
    ensures Distinct(RemoveAt(s, k))
  {
    var r := RemoveAt(s, k);
    forall x | x in s && x != s[k] ensures x in r {
      var i :| 0 <= i < |s| && s[i] == x;
      assert r[if i < k then i else i - 1] == x;
    }
  }

  lemma BurialChildren(s: State, t: State, h: int, k: nat, c: int)
    requires NoSharing(s) && Burial(s, t, h, k, c)
    ensures forall x, y :: y in t.P(x).children <==> y in s.P(x).children && y != c
    ensures NoSharing(t)
  {
    assert Distinct(s.P(h).children);
    RemovedChild(s.P(h).children, k);
    forall x, y ensures y in t.P(x).children <==> y in s.P(x).children && y != c {
      assert c in s.P(h).children;
    }
    forall x ensures Distinct(t.P(x).children) {
      assert Distinct(s.P(x).children);
    }
  }

  lemma BurialCovered(s: State, t: State, h: int, k: nat, c: int)
    requires NoSharing(s) && Covered(s) && Burial(s, t, h, k, c)
    ensures Covered(t)
  {
    BurialChildren(s, t, h, k, c);
    forall x | Live(t, x) && x != t.init ensures HasHolder(t, x) {
      assert HasHolder(s, x);
      var y :| x in s.P(y).children;
      assert x in t.P(y).children;
    }
  }

  lemma BurialChildless(s: State, t: State, h: int, k: nat, c: int)
    requires Childless(s) && Burial(s, t, h, k, c)
    ensures Childless(t)
  {
    forall b | b in t.free || b in t.zombie ensures t.P(b).children == [] {
      assert s.P(b).children == [];
    }
  }

  lemma BurialKeepsFamily(s: State, t: State, h: int, k: nat, c: int)
    requires Family(s) && Burial(s, t, h, k, c)
    ensures Family(t)
  {
    BurialChildless(s, t, h, k, c);
    BurialChildren(s, t, h, k, c);
    BurialCovered(s, t, h, k, c);
    forall x, y | y in t.P(x).children ensures ChildOk(t, x, y) {
      assert ChildOk(s, x, y);
    }
    assert t.init != c;
  }

  lemma BurialKeepsPids(s: State, t: State, h: int, k: nat, c: int)
    requires Pids(s) && Burial(s, t, h, k, c)
    ensures Pids(t)
  {
  }

  lemma ReapIsBurial(s: State, k: nat)
    requires Partition(s) && s.running != NULL && k < |s.Me().children| && s.Me().children[k] in s.zombie
    ensures Burial(s, Reap(s, k), s.running, k, s.Me().children[k])
  {
    Placed(s);
    var c := s.Me().children[k];
    assert InOnePlace(s, c) && InOnePlace(s, s.running);
    RemoveMembers(s.zombie, c);
  }

  lemma ReapStatuses(s: State, k: nat)
    requires Partition(s) && Statuses(s) && s.running != NULL
    requires k < |s.Me().children| && s.Me().children[k] in s.zombie
    ensures Statuses(Reap(s, k))
  {
    Placed(s);
    RemoveMembers(s.zombie, s.Me().children[k]);
    var t := Reap(s, k);
    forall x ensures t.P(x).status == s.P(x).status {
    }
  }

  lemma ReapSleepers(s: State, k: nat)
    requires Partition(s) && Sleepers(s) && s.running != NULL
    requires k < |s.Me().children| && s.Me().children[k] in s.zombie
    ensures Sleepers(Reap(s, k))
  {
    ReapIsBurial(s, k);
    var t := Reap(s, k);
    forall x ensures t.P(x).timer == s.P(x).timer && t.P(x).callNum == s.P(x).callNum {
    }
  }

  lemma ReapKeepsInv(s: State, k: nat)
    requires Inv(s) && s.running != NULL && k < |s.Me().children| && s.Me().children[k] in s.zombie
    ensures Inv(Reap(s, k))
  {
    ReapPlaces(s, k);
    ReapStatuses(s, k);
    ReapSleepers(s, k);
    ReapIsBurial(s, k);
    BurialKeepsFamily(s, Reap(s, k), s.running, k, s.Me().children[k]);
    BurialKeepsPids(s, Reap(s, k), s.running, k, s.Me().children[k]);
  }

  lemma WaitKeepsInv(s: State)
    requires Inv(s) && s.running != NULL && s.Me().callNum == DSOS_CALL_WAIT
    ensures Inv(Wait(s))
  {
    if s.Me().children == [] {
      ReturnKeepsInv(s, DSOS_EWAIT);
    } else if WaitBlocks(s) {
      assert s.(timers := s.timers) == s;
      NoTimerRunning(s);
      BlockNextKeepsInv(s, s.timers);
    } else {
      var k := Awaited(s);
      var c := s.Me().children[k];
      assert ChildOk(s, s.running, c);
      ZombieIsListed(s, c);
      ReapKeepsInv(s, k);
    }
  }

  // ---------- exit ----------

  /** The children of r go to init, and r may join the zombies. */
  ghost predicate Adoption(s: State, t: State, r: int) {
    && r != s.init && Live(s, r)
    && t.init == s.init && t.lastPid == s.lastPid && t.free == s.free && |t.procs| == |s.procs|
    && (forall x :: x in t.zombie ==> x in s.zombie || x == r)
    && t.P(r).children == []
    && t.P(s.init).children == s.P(s.init).children + s.P(r).children
    && (forall x :: x != r && x != s.init ==> t.P(x).children == s.P(x).children)
    && (forall x :: t.P(x).parent == s.P(x).parent && t.P(x).pid == s.P(x).pid)
  }

  lemma AdoptionChildren(s: State, t: State, r: int)
    requires NoSharing(s) && Adoption(s, t, r)
    ensures forall h, c :: c in t.P(h).children <==>
              if h == s.init then c in s.P(h).children || c in s.P(r).children
              else h != r && c in s.P(h).children
    ensures NoSharing(t)
  {
    var i := s.init;
    forall h ensures Distinct(t.P(h).children) {
      assert Distinct(s.P(h).children) && Distinct(s.P(r).children);
      if h == i {
        DistinctConcat(s.P(i).children, s.P(r).children);
      }
    }
  }

  lemma AdoptionCovered(s: State, t: State, r: int)
    requires NoSharing(s) && Covered(s) && Adoption(s, t, r)
    ensures Covered(t)
  {
    AdoptionChildren(s, t, r);
    forall x | Live(t, x) && x != t.init ensures HasHolder(t, x) {
      assert Live(s, x) && HasHolder(s, x);
      var y :| x in s.P(y).children;
      assert x in t.P(if y == r then s.init else y).children;
    }
  }

  lemma AdoptionKeepsFamily(s: State, t: State, r: int)
    requires Family(s) && Adoption(s, t, r)
    ensures Family(t)
  {
    AdoptionChildren(s, t, r);
    AdoptionCovered(s, t, r);
    assert forall x :: Live(t, x) <==> Live(s, x);
    forall h, c | c in t.P(h).children ensures ChildOk(t, h, c) {
      if c in s.P(h).children {
        assert ChildOk(s, h, c);
      } else {
        assert ChildOk(s, r, c);
      }
    }
    forall b | b in t.free || b in t.zombie ensures t.P(b).children == [] {
      assert b != s.init;
    }
  }

  lemma DieIsAdoption(s: State)
    requires Partition(s) && s.running != NULL && s.running != s.init && Live(s, s.init)
    ensures Adoption(s, Die(Adopt(s)), s.running)
  {
    Placed(s);
    assert InOnePlace(s, s.running);
  }

  /** What dying changes besides the families. */
  ghost predicate Dying(s: State, d: State) {
    && d.running == s.running && d.ready == s.ready && d.waiting == s.waiting
    && d.timers == s.timers && d.free == s.free && d.zombie == s.zombie + [s.running]
    && |d.procs| == |s.procs| && d.init == s.init && d.lastPid == s.lastPid
    && d.Me().status == Zombie && d.Me().returnValue == s.Me().arg0
    && (forall x :: SameButChildren(s.P(x), d.P(x)))
    && (forall x :: x != s.running ==> d.P(x).status == s.P(x).status
                                       && d.P(x).returnValue == s.P(x).returnValue)
  }

  ghost predicate SameButChildren(p: Proc, q: Proc) {
    && q.pid == p.pid && q.parent == p.parent && q.timer == p.timer
    && q.callNum == p.callNum && q.arg0 == p.arg0 && q.arg1 == p.arg1
  }

  lemma DieFields(s: State)
    requires Partition(s) && s.running != NULL && s.running != s.init
    ensures Dying(s, Die(Adopt(s)))
  {
    Placed(s);
    assert InOnePlace(s, s.running);
  }

  lemma {:induction false} FindPidFinds(s: State, children: seq<int>, pid: int)
    ensures var k := FindPid(s, children, pid);
            && (k < |children| ==> s.P(children[k]).pid == pid)
            && (forall i :: 0 <= i < k ==> s.P(children[i]).pid != pid)
  {
    if children != [] && s.P(children[0]).pid != pid {
      FindPidFinds(s, children[1..], pid);
    }
  }

  /** The entry that the parent drops is the entry of the process that exits. */
  lemma FindsItself(d: State, h: int)
    requires ChildrenOk(d) && Pids(d) && Live(d, d.running) && HasChild(d, h, d.Me().pid)
    ensures d.P(h).children[FindPid(d, d.P(h).children, d.Me().pid)] == d.running
  {
    var k := FindPid(d, d.P(h).children, d.Me().pid);
    FindPidFinds(d, d.P(h).children, d.Me().pid);
    assert ChildOk(d, h, d.P(h).children[k]);
  }

  lemma {:induction false} DropTimersNone(timers: seq<Timer>, b: int)
    requires !HasTimer(timers, b)
    ensures DropTimers(timers, b) == timers
  {
    if timers != [] {
      assert timers[0].pcb != b;
      assert forall i :: 0 <= i < |timers[1..]| ==> timers[1..][i] == timers[i + 1];
      DropTimersNone(timers[1..], b);
    }
  }

  /** The process lists after the parent of the dying process has taken over. */
  ghost predicate TakenOver(s: State, t: State) {
    var r, p := s.running, s.Me().parent;
    && t.running == p && t.ready == s.ready && t.zombie == s.zombie
    && t.waiting == Remove(s.waiting, p) && t.timers == DropTimers(s.timers, r)
    && t.free == [r] + s.free && |t.procs| == |s.procs|
    && t.init == s.init && t.lastPid == s.lastPid
    && t.P(p).status == Running && t.P(r).status == Zombie
    && (forall x :: x != r && x != p ==> t.P(x).status == s.P(x).status)
    && (forall x :: t.P(x).pid == s.P(x).pid && t.P(x).parent == s.P(x).parent
                    && t.P(x).timer == s.P(x).timer && t.P(x).callNum == s.P(x).callNum)
  }

  lemma HandOverFields(s: State, d: State)
    requires Partition(s) && s.running != NULL && s.Me().parent in s.waiting && Dying(s, d)
    requires HasChild(d, s.Me().parent, s.Me().pid)
    ensures d.Me().parent == s.Me().parent && d.Me().pid == s.Me().pid
    ensures TakenOver(s, HandOver(d))
  {
    Placed(s);
    assert SameButChildren(s.Me(), d.Me());
    assert InOnePlace(s, s.running) && InOnePlace(s, s.Me().parent);
    RemoveAppended(s.zombie, s.running);
    HandOverProcs(d);
    var t := HandOver(d);
    forall x ensures t.P(x).pid == s.P(x).pid && t.P(x).parent == s.P(x).parent
                     && t.P(x).timer == s.P(x).timer && t.P(x).callNum == s.P(x).callNum
    {
      assert SameButChildren(s.P(x), d.P(x));
    }
  }

  lemma HandOverProcs(d: State)
    requires HasChild(d, d.Me().parent, d.Me().pid)
    ensures forall x :: SameButChildren(d.P(x), HandOver(d).P(x))
    ensures forall x :: x != d.Me().parent ==> HandOver(d).P(x).status == d.P(x).status
    ensures 0 <= d.Me().parent < |d.procs| ==> HandOver(d).P(d.Me().parent).status == Running
  {
  }

  lemma HandOverStatuses(s: State, t: State)
    requires Partition(s) && Statuses(s) && TakenOver(s, t)
    requires s.running != NULL && s.Me().parent in s.waiting
    ensures Statuses(t)
  {
    Placed(s);
    var r, p := s.running, s.Me().parent;
    RemoveMembers(s.waiting, p);
    assert InOnePlace(s, p);
    forall x | x in t.ready || x in t.waiting || x in t.zombie || x in s.free ensures x != p && x != r {
      assert InOnePlace(s, x);
    }
  }

  lemma HandOverSleepers(s: State, t: State)
    requires Partition(s) && Sleepers(s) && TakenOver(s, t)
    requires s.running != NULL && s.Me().parent in s.waiting
    requires s.P(s.Me().parent).callNum == DSOS_CALL_WAIT
    ensures Sleepers(t) && t.timers == s.timers
  {
    Placed(s);
    RemoveMembers(s.waiting, s.Me().parent);
    NoTimerRunning(s);
    DropTimersNone(s.timers, s.running);
    forall i | 0 <= i < |t.timers| ensures t.timers[i].pcb in t.waiting {
      assert HasTimer(s.timers, s.timers[i].pcb);
    }
    forall x | Live(t, x) ensures t.P(x).timer == NULL { assert Live(s, x); }
  }

  lemma HandOverChildren(d: State)
    requires HasChild(d, d.Me().parent, d.Me().pid) && d.Me().parent != d.running
    ensures var t, p := HandOver(d), d.Me().parent;
            && t.P(p).children == RemoveAt(d.P(p).children, FindPid(d, d.P(p).children, d.Me().pid))
            && forall x :: x != p ==> t.P(x).children == d.P(x).children
  {
  }

  lemma HandOverIsBurial(s: State, d: State)
    requires Partition(s) && Dying(s, d) && ChildrenOk(d) && Pids(d)
    requires s.running != NULL && s.Me().parent in s.waiting
    requires HasChild(d, s.Me().parent, s.Me().pid)
    ensures d.Me().parent == s.Me().parent && d.Me().pid == s.Me().pid
    ensures Burial(d, HandOver(d), s.Me().parent, FindPid(d, d.P(s.Me().parent).children, s.Me().pid), s.running)
  {
    Placed(s);
    HandOverFields(s, d);
    assert InOnePlace(s, s.running) && InOnePlace(s, s.Me().parent);
    FindsItself(d, s.Me().parent);
    HandOverChildren(d);
    TakenOverIsBurial(s, d, HandOver(d));
  }

  lemma TakenOverIsBurial(s: State, d: State, t: State)
    requires Partition(s) && Dying(s, d) && TakenOver(s, t) && s.running != NULL
    ensures s.running in d.zombie
    ensures forall x :: t.P(x).parent == d.P(x).parent && t.P(x).pid == d.P(x).pid
    ensures t.init == d.init && t.lastPid == d.lastPid && |t.procs| == |d.procs|
    ensures forall x :: Live(t, x) <==> Live(d, x) && x != s.running
    ensures forall x :: x in t.free <==> x in d.free || x == s.running
    ensures forall x :: x in t.zombie ==> x in d.zombie
  {
    forall x ensures t.P(x).parent == d.P(x).parent && t.P(x).pid == d.P(x).pid {
      assert SameButChildren(s.P(x), d.P(x));
    }
  }

  lemma DiePids(s: State, d: State)
    requires Pids(s) && Dying(s, d)
    ensures Pids(d)
  {
    assert forall x :: Live(d, x) <==> Live(s, x);
    forall x ensures d.P(x).pid == s.P(x).pid { assert SameButChildren(s.P(x), d.P(x)); }
  }

  lemma DieFamily(s: State)
    requires Inv(s) && s.running != NULL && s.running != s.init
    ensures Family(Die(Adopt(s))) && Pids(Die(Adopt(s))) && Dying(s, Die(Adopt(s)))
  {
    DieFields(s);
    DieIsAdoption(s);
    AdoptionKeepsFamily(s, Die(Adopt(s)), s.running);
    DiePids(s, Die(Adopt(s)));
  }

  lemma ParentIsListed(s: State, d: State)
    requires Partition(s) && Statuses(s) && Sleepers(s) && Dying(s, d) && ParentWaits(d)
    ensures s.Me().parent in s.waiting && s.P(s.Me().parent).callNum == DSOS_CALL_WAIT
    ensures d.Me().parent == s.Me().parent && d.Me().pid == s.Me().pid
  {
    assert SameButChildren(s.Me(), d.Me());
    assert SameButChildren(s.P(s.Me().parent), d.P(s.Me().parent));
    WaitingIsListed(s, s.Me().parent);
  }

  lemma HandOverKeepsInv(s: State)
    requires Inv(s) && s.running != NULL && CanExit(s) && ParentWaits(Die(Adopt(s)))
    ensures Inv(Exit(s))
  {
    var d, p := Die(Adopt(s)), s.Me().parent;
    DieFamily(s);
    ParentIsListed(s, d);
    ExitPlaces(s);
    HandOverFields(s, d);
    HandOverStatuses(s, Exit(s));
    HandOverSleepers(s, Exit(s));
    HandOverIsBurial(s, d);
    BurialKeepsFamily(d, Exit(s), p, FindPid(d, d.P(p).children, s.Me().pid), s.running);
    BurialKeepsPids(d, Exit(s), p, FindPid(d, d.P(p).children, s.Me().pid), s.running);
  }

  lemma DispatchStatuses(s: State, d: State)
    requires Partition(s) && Statuses(s) && Dying(s, d) && s.running != NULL && s.ready != []
    ensures Statuses(Dispatch(d))
  {
    Placed(s);
    var t := Dispatch(d);
    assert InOnePlace(s, s.ready[0]) && InOnePlace(s, s.running);
    forall x | x in t.ready ensures t.P(x).status == Ready {
      TailApart(s.ready, x);
      assert InOnePlace(s, x);
    }
    forall x | x in t.waiting || x in s.zombie || x in s.free ensures t.P(x).status == s.P(x).status {
      assert InOnePlace(s, x);
    }
  }

  lemma DispatchSleepers(s: State, d: State)
    requires Partition(s) && Sleepers(s) && Dying(s, d) && s.ready != []
    ensures Sleepers(Dispatch(d))
  {
    var t := Dispatch(d);
    forall x ensures t.P(x).timer == s.P(x).timer && t.P(x).callNum == s.P(x).callNum {
      assert SameButChildren(s.P(x), d.P(x));
    }
    forall x | Live(t, x) ensures t.P(x).timer == NULL { assert Live(s, x); }
  }

  lemma DispatchQuiet(d: State)
    requires d.ready != []
    ensures Quiet(d, Dispatch(d))
  {
  }

  lemma DispatchKeepsInv(s: State)
    requires Inv(s) && s.running != NULL && CanExit(s) && !ParentWaits(Die(Adopt(s)))
    ensures Inv(Exit(s))
  {
    var d := Die(Adopt(s));
    DieFamily(s);
    ExitPlaces(s);
    DispatchStatuses(s, d);
    DispatchSleepers(s, d);
    DispatchQuiet(d);
    QuietKeepsFamily(d, Dispatch(d));
  }

  // ---------- every step ----------

  /** What a call does once the registers are set. */
  lemma CallIs(s: State, op: Op)
    requires CanStep(s, op)
    ensures s.running != NULL
    ensures op.SpawnCall? ==> CanSpawn(Entered(s, op)) && Step(s, op) == Spawn(Entered(s, op))
    ensures op.SleepCall? ==> Step(s, op) == Sleep(Entered(s, op))
    ensures op.WaitCall? ==> Step(s, op) == Wait(Entered(s, op))
    ensures op.ExitCall? ==> CanExit(Entered(s, op)) && Step(s, op) == Exit(Entered(s, op))
    ensures op.OtherCall? ==>
              && op.blocks <= Entered(s, op).ptrFree
              && Step(s, op) == Answer(Entered(s, op), op.result, op.returnValue, op.blocks)
  {
  }

  lemma EnteredKeepsInv(s: State, op: Op)
    requires Inv(s)
    ensures Inv(Entered(s, op)) && OnlyRegisters(s, Entered(s, op)) && Entered(s, op).running == s.running
  {
    match op
    case Tick => RegistersKeepInv(s, s);
    case Preempt => EnterKeepsInv(s, DSOS_CALL_PREEMPT, []);
    case SpawnCall(f, args) => EnterKeepsInv(s, DSOS_CALL_SPAWN, [f, args]);
    case SleepCall(cycles) => EnterKeepsInv(s, DSOS_CALL_SLEEP, [cycles]);
    case WaitCall(pid, result) => EnterKeepsInv(s, DSOS_CALL_WAIT, [pid, result]);
    case ExitCall(value) => EnterKeepsInv(s, DSOS_CALL_EXIT, [value]);
    case OtherCall(num, args, _, _, _) => EnterKeepsInv(s, num, args);
  }

  lemma TickKeepsInv(s: State)
    requires Inv(s) && s.running != NULL
    ensures Inv(Schedule(Advance(s)))
  {
    RegistersKeepInv(s, Advance(s));
    ScheduleKeepsInv(Advance(s));
  }

  lemma OtherKeepsInv(s: State, result: int, exitValue: int, blocks: nat)
    requires Inv(s) && blocks <= s.ptrFree
    ensures Inv(Answer(s, result, exitValue, blocks))
  {
    RegistersKeepInv(s, Answer(s, result, exitValue, blocks));
  }

  lemma StepScheduleKeepsInv(s: State, op: Op)
    requires Inv(s) && CanStep(s, op) && (op.Tick? || op.Preempt?)
    ensures Inv(Step(s, op))
  {
    if op.Tick? {
      TickKeepsInv(s);
    } else {
      EnteredKeepsInv(s, op);
      ScheduleKeepsInv(Entered(s, op));
    }
  }

  lemma StepBlockKeepsInv(s: State, op: Op)
    requires Inv(s) && CanStep(s, op) && (op.SleepCall? || op.WaitCall?)
    ensures Inv(Step(s, op))
  {
    EnteredKeepsInv(s, op);
    if op.SleepCall? {
      EnteredCall(s, DSOS_CALL_SLEEP, [op.cycles]);
      SleepKeepsInv(Entered(s, op));
    } else {
      EnteredCall(s, DSOS_CALL_WAIT, [op.pid, op.result]);
      WaitKeepsInv(Entered(s, op));
    }
  }

  lemma StepSpawnExitKeepsInv(s: State, op: Op)
    requires Inv(s) && CanStep(s, op) && (op.SpawnCall? || op.ExitCall?)
    ensures Inv(Step(s, op))
  {
    EnteredKeepsInv(s, op);
    if op.SpawnCall? {
      SpawnKeepsInv(Entered(s, op));
    } else {
      ExitKeepsInv(Entered(s, op));
    }
  }

  lemma StepOtherKeepsInv(s: State, op: Op)
    requires Inv(s) && CanStep(s, op) && op.OtherCall?
    ensures Inv(Step(s, op))
  {
    EnteredKeepsInv(s, op);
    OtherKeepsInv(Entered(s, op), op.result, op.returnValue, op.blocks);
  }

  lemma StepKeepsInv(s: State, op: Op)
    requires Inv(s) && CanStep(s, op)
    ensures Inv(Step(s, op))
  {
    if op.Tick? || op.Preempt? {
      StepScheduleKeepsInv(s, op);
    } else if op.SleepCall? || op.WaitCall? {
      StepBlockKeepsInv(s, op);
    } else if op.SpawnCall? || op.ExitCall? {
      StepSpawnExitKeepsInv(s, op);
    } else {
      StepOtherKeepsInv(s, op);
    }
  }

  lemma {:induction false} RunKeepsInv(s: State, ops: seq<Op>)
    requires Inv(s) && ValidRun(s, ops)
    ensures Inv(After(s, ops))
    decreases |ops|
  {
    if ops != [] {
      StepKeepsInv(s, ops[0]);
      RunKeepsInv(Step(s, ops[0]), ops[1..]);
    }
  }

  lemma ExitKeepsInv(s: State)
    requires Inv(s) && s.running != NULL && CanExit(s)
    ensures Inv(Exit(s))
  {
    if ParentWaits(Die(Adopt(s))) {
      HandOverKeepsInv(s);
    } else {
      DispatchKeepsInv(s);
    }
  }

  lemma EnteredCall(s: State, num: int, args: seq<int>)
    requires Inv(s) && s.running != NULL
    ensures Enter(s, num, args).Me().callNum == num
    ensures |args| > 0 ==> Enter(s, num, args).Me().arg0 == args[0]
    ensures |args| > 1 ==> Enter(s, num, args).Me().arg1 == args[1]
  {
    Placed(s);
    assert InOnePlace(s, s.running);
  }
}
