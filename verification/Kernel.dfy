/** The kernel's global state and the process system calls as they update it in place.  Each
    operation is proved to do to the abstract state what the process model says. */
module Kernel {
  import opened Sequences
  import opened LinkedList
  import opened Pools
  import opened Timers
  import opened SharedLists
  import opened ListTables
  import opened ChildLists
  import opened ProcessModel
  import opened ProcessInvariant
  import opened ProcessSteps
  import opened Initial

  const SIZEOF_PCB := 18000

  class PCB {
    const list: ListItem
    var pid: int
    var returnValue: int
    var status: Status
    var parent: int
    var timer: int
    var callNum: int
    var arg0: int
    var arg1: int
    var callResult: int

    constructor (idx: nat)
      ensures list.idx == idx && list.prev == null && list.next == null && fresh(list)
      ensures HasFields(this, UnusedProc)
    {
      list := new ListItem(idx);
      pid, returnValue, status, parent := 0, 0, Created, NULL;
      timer, callNum, arg0, arg1, callResult := NULL, 0, 0, 0, 0;
    }
  }

  /** The fields of the block are those of the record; the children are in a list of their own. */
  ghost predicate HasFields(p: PCB, r: Proc)
    reads p
  {
    && p.pid == r.pid && p.returnValue == r.returnValue && p.status == r.status
    && p.parent == r.parent && p.timer == r.timer
    && p.callNum == r.callNum && p.arg0 == r.arg0 && p.arg1 == r.arg1 && p.callResult == r.callResult
  }

  method NewBlocks(n: nat) returns (pcbs: seq<PCB>, headers: seq<ListItem>)
    ensures |pcbs| == |headers| == n
    ensures forall i :: 0 <= i < n ==> fresh(pcbs[i]) && fresh(headers[i]) && headers[i] == pcbs[i].list
    ensures forall i :: 0 <= i < n ==> headers[i].idx == i && headers[i].prev == null && headers[i].next == null
    ensures forall i :: 0 <= i < n ==> HasFields(pcbs[i], UnusedProc)
  {
    pcbs, headers := [], [];
    for i := 0 to n
      invariant |pcbs| == |headers| == i
      invariant forall j :: 0 <= j < i ==> fresh(pcbs[j]) && fresh(headers[j]) && headers[j] == pcbs[j].list
      invariant forall j :: 0 <= j < i ==> headers[j].idx == j && headers[j].prev == null && headers[j].next == null
      invariant forall j :: 0 <= j < i ==> HasFields(pcbs[j], UnusedProc)
    {
      var pcb := new PCB(i);
      pcbs, headers := pcbs + [pcb], headers + [pcb.list];
    }
  }

  lemma SetTwice(s: State, b: int, p: Proc, q: Proc)
    ensures s.Set(b, p).Set(b, q) == s.Set(b, q)
  {
  }

  ghost function DueOwner(s: State): int {
    if Elapsed(s) then s.timers[0].pcb else NULL
  }

  /** One turn of the wake-up loop, and its end. */
  lemma DueStep(s: State, k: nat)
    requires Inv(s) && k <= |s.ready|
    ensures DueOwner(s) != NULL <==> Elapsed(s)
    ensures Elapsed(s) ==> DueOwner(s) == s.timers[0].pcb
    ensures if Elapsed(s) then
              var t := WakeOne(s, k);
              && WakeElapsed(s, k) == WakeElapsed(t, k + 1) && k < |t.ready| && t.ready[k] == s.timers[0].pcb
              && |t.timers| < |s.timers| && t.running == s.running
            else WakeElapsed(s, k) == s
  {
    if Elapsed(s) {
      Placed(s);
      assert InOnePlace(s, s.timers[0].pcb);
    }
  }

  /** The running process is in no list, and the head of the ready list only there. */
  lemma Rotation(s: State)
    requires Inv(s) && s.running != NULL
    ensures 0 <= s.running < |s.procs|
    ensures s.running !in s.ready && s.running !in s.waiting && s.running !in s.zombie
    ensures s.ready != [] ==> 0 <= s.ready[0] < |s.procs| && s.ready[0] != s.running
  {
    Placed(s);
    assert InOnePlace(s, s.running);
    assert s.ready != [] ==> InOnePlace(s, s.ready[0]);
  }

  /** The state when the new process exists but is in no list yet. */
  ghost function Born(s: State): State
    requires CanSpawn(s)
  {
    var b := s.free[0];
    var s1 := s.Set(b, Fresh(s.P(b), s.lastPid)).(free := s.free[1..], lastPid := s.lastPid + 1);
    var s2 := s1.Set(b, s1.P(b).(status := Ready));
    s2.Set(b, s2.P(b).(parent := s.running))
  }

  /** The records after the children of b have become q. */
  ghost function WithKids(ps: seq<Proc>, b: int, q: seq<int>): seq<Proc>
    requires 0 <= b < |ps|
  {
    ps[b := ps[b].(children := q)]
  }

  lemma KidsInState(s: State, b: int, q: seq<int>)
    requires 0 <= b < |s.procs|
    ensures s.Set(b, s.P(b).(children := q)) == s.(procs := WithKids(s.procs, b, q)) && s.P(b) == s.procs[b]
  {
  }

  lemma FreshForm(s: State, b: int)
    ensures var t := s.Set(b, Fresh(s.P(b), s.lastPid).(children := s.P(b).children)).(lastPid := s.lastPid + 1);
            t.Set(b, t.P(b).(children := [])) == s.Set(b, Fresh(s.P(b), s.lastPid)).(lastPid := s.lastPid + 1)
  {
  }

  lemma StartsWhole(all: seq<int>)
    ensures all[0..] == all
  {
  }

  lemma SpawnForm(s: State)
    requires CanSpawn(s) && s.running != s.free[0] && 0 <= s.free[0] < |s.procs|
    ensures var b, r, s3 := s.free[0], s.running, Born(s);
            s3.ptrFree > 0 &&
            var s4 := s3.Set(r, s3.P(r).(children := s3.P(r).children + [b])).(ptrFree := s3.ptrFree - 1);
            s4.ready == s.ready &&
            var s5 := s4.(ready := s4.ready + [b]);
            s5.Set(r, s5.P(r).(callResult := s5.P(b).pid)) == Spawn(s)
  {
  }

  /** The cases of internal_sleep. */
  lemma SleepForm(s: State)
    ensures var t := s.(timers := ProcessModel.AddTimer(s.timers, Timer(s.time + s.P(s.running).arg0, s.running)));
            && Sleep(s) == (if s.P(s.running).timer != NULL || |s.timers| >= |s.procs|
                            then s.Set(s.running, s.P(s.running).(callResult := DSOS_ESLEEP)) else Next(Block(t)))
            && t.ready == s.ready && t.waiting == s.waiting && t.zombie == s.zombie
            && Block(t).ready == s.ready
            && Next(Block(t)) == (if s.ready == [] then Block(t).(running := NULL)
                                  else Block(t).(ready := s.ready[1..]).(running := s.ready[0]))
  {
    hide ProcessModel.AddTimer;
  }

  /** The k-th child has left the children and the zombie list. */
  ghost function WithoutChild(s: State, k: nat): State
    requires k < |s.Me().children|
  {
    s.Set(s.running, s.Me().(children := RemoveAt(s.Me().children, k)))
     .(ptrFree := s.ptrFree + 1, zombie := Remove(s.zombie, s.Me().children[k]))
  }

  lemma WithoutForm(s: State, k: nat)
    requires k < |s.Me().children|
    ensures var t := s.Set(s.running, s.P(s.running).(children := RemoveAt(s.Me().children, k)));
            && t.zombie == s.zombie && t.(ptrFree := t.ptrFree + 1).zombie == s.zombie
            && t.(ptrFree := t.ptrFree + 1).(zombie := Remove(s.zombie, s.Me().children[k])) == WithoutChild(s, k)
            && t.ptrFree == s.ptrFree && t.running == s.running
  {
    hide Remove, RemoveAt;
  }

  lemma ReapForm(s: State, k: nat)
    requires k < |s.Me().children| && s.Me().children[k] != s.running
    ensures var r, c, t := s.running, s.Me().children[k], WithoutChild(s, k);
            var u := t.Set(r, t.P(r).(callResult := s.P(c).pid));
            && t.P(c) == s.P(c) && t.running == r && t.free == s.free && |t.procs| == |s.procs|
            && u.P(c) == s.P(c) && u.running == r && u.free == s.free && u.memory == s.memory
            && u.(memory := Store(u.memory, u.P(r).arg1, s.P(c).returnValue)).(free := [c] + s.free) == Reap(s, k)
  {
    hide Remove, RemoveAt, Store;
  }

  lemma {:induction false} FindPidIs(s: State, children: seq<int>, pid: int, k: nat)
    requires k <= |children| && forall i :: 0 <= i < k ==> s.P(children[i]).pid != pid
    requires k < |children| ==> s.P(children[k]).pid == pid
    ensures FindPid(s, children, pid) == k
  {
    if k > 0 {
      assert s.P(children[0]).pid != pid;
      FindPidIs(s, children[1..], pid, k - 1);
    }
  }

  /** The first i children have moved to init. */
  ghost function Moved(s: State, i: nat): State
    requires i <= |s.Me().children|
  {
    s.Set(s.init, s.P(s.init).(children := s.P(s.init).children + s.Me().children[..i]))
     .Set(s.running, s.Me().(children := s.Me().children[i..]))
  }

  lemma SetSame(s: State, b: int)
    ensures s.Set(b, s.P(b)) == s
  {
  }

  lemma Unmoved(s: State)
    requires s.running != s.init
    ensures Moved(s, 0) == s
  {
    var p := s.P(s.init);
    assert p.children + s.Me().children[..0] == p.children;
    assert s.Me().children[0..] == s.Me().children;
    SetSame(s, s.init);
    SetSame(s, s.running);
  }

  lemma MovedAll(s: State)
    requires s.running != s.init
    ensures Moved(s, |s.Me().children|) == Adopt(s)
  {
    var all := s.Me().children;
    assert all[..|all|] == all && all[|all|..] == [];
  }

  lemma MoveOne(s: State, i: nat)
    requires i < |s.Me().children| && s.running != s.init && 0 <= s.init < |s.procs| && 0 <= s.running < |s.procs|
    ensures var m, all := Moved(s, i), s.Me().children;
            && m.P(s.running).children == all[i..] && RemoveAt(all[i..], 0) == all[i + 1..] && all[i..][0] == all[i]
            && Moved(s, i + 1).P(s.running).children == all[i + 1..]
            && Moved(s, i + 1).init == s.init && Moved(s, i + 1).running == s.running
            && var m1 := m.Set(s.running, m.P(s.running).(children := all[i + 1..]));
               && m1.init == s.init && m1.running == s.running
               && m1.Set(s.init, m1.P(s.init).(children := m1.P(s.init).children + [all[i]])) == Moved(s, i + 1)
  {
    var all := s.Me().children;
    assert all[..i + 1] == all[..i] + [all[i]];
    var c := s.P(s.init).children;
    assert c + all[..i] + [all[i]] == c + all[..i + 1];
  }

  lemma DieForm(s: State, s1: State, s2: State)
    requires s.running != s.init && 0 <= s.init < |s.procs| && 0 <= s.running < |s.procs|
    requires s1 == s.Set(s.running, s.Me().(returnValue := s.Me().arg0)) && s2 == Adopt(s1)
    ensures s2.Set(s2.running, s2.Me().(status := Zombie)).(zombie := s.zombie + [s.running]) == Die(Adopt(s))
  {
    assert s2.Me().returnValue == s.Me().arg0;
  }

  lemma AdoptFields(s: State)
    ensures var t := Adopt(s);
            && t.ready == s.ready && t.waiting == s.waiting && t.zombie == s.zombie && t.running == s.running
            && |t.procs| == |s.procs|
  {
  }

  /** Three updates of one block are one. */
  lemma SetThrice(s: State, p: int, s1: State, s2: State, s3: State, children: seq<int>, result: int)
    requires 0 <= p < |s.procs|
    requires s1 == s.Set(p, s.P(p).(status := Running))
    requires s2 == s1.Set(p, s1.P(p).(children := children))
    requires s3 == s2.Set(p, s2.P(p).(callResult := result))
    ensures s3 == s.Set(p, s.P(p).(status := Running, children := children, callResult := result))
  {
    SetTwice(s, p, s1.P(p), s2.P(p));
    SetTwice(s, p, s2.P(p), s3.P(p));
  }

  lemma HandOverForm(s: State, s1: State, s2: State, s3: State, k: nat)
    requires HasChild(s, s.Me().parent, s.Me().pid) && 0 <= s.Me().parent < |s.procs| && s.Me().parent != s.running
    requires var p := s.Me().parent;
             && s1 == s.(waiting := Remove(s.waiting, p)).Set(p, s.P(p).(status := Running))
             && k == FindPid(s1, s.P(p).children, s.Me().pid) < |s.P(p).children|
             && s2 == s1.Set(p, s1.P(p).(children := RemoveAt(s.P(p).children, k)))
             && s3 == s2.Set(p, s2.P(p).(callResult := s.Me().pid))
    ensures s3.(memory := Store(s.memory, s.P(s.Me().parent).arg1, s.Me().returnValue),
                timers := DropTimers(s.timers, s.running), zombie := Remove(s.zombie, s.running),
                free := [s.running] + s.free, running := s.Me().parent)
            == HandOver(s)
  {
    hide Remove, DropTimers, Store, FindPid, RemoveAt;
    var p := s.Me().parent;
    SamePidsSamePlace(s, s1, s.P(p).children, s.Me().pid);
    SetThrice(s.(waiting := Remove(s.waiting, p)), p, s1, s2, s3, RemoveAt(s.P(p).children, k), s.Me().pid);
  }

  lemma StillHasChild(s: State, t: State)
    requires HasChild(s, s.Me().parent, s.Me().pid) && forall b :: s.P(b).pid == t.P(b).pid
    ensures FindPid(t, s.P(s.Me().parent).children, s.Me().pid) < |s.P(s.Me().parent).children|
  {
    SamePidsSamePlace(s, t, s.P(s.Me().parent).children, s.Me().pid);
  }

  lemma {:induction false} SamePidsSamePlace(s: State, t: State, children: seq<int>, pid: int)
    requires forall b :: s.P(b).pid == t.P(b).pid
    ensures FindPid(s, children, pid) == FindPid(t, children, pid)
  {
    if children != [] {
      SamePidsSamePlace(s, t, children[1..], pid);
    }
  }

  /** What internal_exit relies on: every list it detaches from holds the process it names. */
  lemma ExitFacts(s: State)
    requires Inv(s) && s.running != NULL && CanExit(s)
    ensures var d, p := Die(Adopt(s)), s.Me().parent;
            && 0 <= s.init < |s.procs| && d.running == s.running && d.ready == s.ready && |d.procs| == |s.procs|
            && d.Me().parent == p && 0 <= p < |s.procs|
            && (forall i :: 0 <= i < |d.P(p).children| ==> 0 <= d.P(p).children[i] < |s.procs|)
            && s.running in d.zombie && s.running !in d.free
            && (ParentWaits(d) ==> p in d.waiting && p != s.running && HasChild(d, p, d.Me().pid))
            && (!ParentWaits(d) ==> d.ready != [] && 0 <= d.ready[0] < |s.procs|)
  {
    var d, p := Die(Adopt(s)), s.Me().parent;
    DieFamily(s);
    assert SameButChildren(s.Me(), d.Me());
    Placed(s);
    assert InOnePlace(s, s.running);
    forall i | 0 <= i < |d.P(p).children| ensures 0 <= d.P(p).children[i] < |s.procs| {
      assert d.P(p).children[i] in d.P(p).children;
      assert ChildOk(d, p, d.P(p).children[i]);
    }
    if ParentWaits(d) {
      ParentIsListed(s, d);
      assert InOnePlace(s, p);
    } else {
      assert InOnePlace(s, s.ready[0]);
    }
  }

  lemma Fresher(s: State)
    requires Inv(s) && s.free != []
    ensures var b := s.free[0];
            0 <= b < |s.procs| && b != s.running && b !in s.ready && b !in s.waiting && b !in s.zombie
  {
    Placed(s);
    assert InOnePlace(s, s.free[0]);
  }

  lemma ChildrenInRange(s: State)
    requires Inv(s)
    ensures forall i :: 0 <= i < |s.Me().children| ==> 0 <= s.Me().children[i] < |s.procs|
  {
    forall i | 0 <= i < |s.Me().children| ensures 0 <= s.Me().children[i] < |s.procs| {
      assert s.Me().children[i] in s.Me().children;
      assert ChildOk(s, s.running, s.Me().children[i]);
    }
  }

  lemma {:induction false} ScanIs(s: State, children: seq<int>, pid: int, k: nat)
    requires k < |children| && forall i :: 0 <= i < k ==> !Matches(s.P(children[i]), pid)
    requires k + 1 < |children| ==> Matches(s.P(children[k]), pid)
    ensures Scan(s, children, pid) == k
  {
    if k > 0 {
      assert !Matches(s.P(children[0]), pid);
      ScanIs(s, children[1..], pid, k - 1);
    }
  }

  lemma Reapable(s: State, k: nat)
    requires Inv(s) && s.running != NULL && k < |s.Me().children|
    requires s.P(s.Me().children[k]).status == Zombie
    ensures var c := s.Me().children[k];
            c in s.zombie && c != s.running && c !in s.free
  {
    var c := s.Me().children[k];
    assert ChildOk(s, s.running, c);
    ZombieIsListed(s, c);
    Placed(s);
    assert InOnePlace(s, c);
  }

  /** The owner of a timer waits and, once detached, is in no list. */
  lemma Wakeable(s: State)
    requires Inv(s) && Elapsed(s)
    ensures var b := s.timers[0].pcb;
            && 0 <= b < |s.procs| && b in s.waiting && b !in s.ready && b !in s.zombie
            && b !in Remove(s.waiting, b)
  {
    Placed(s);
    assert InOnePlace(s, s.timers[0].pcb);
    RemoveMembers(s.waiting, s.timers[0].pcb);
  }

  ghost function Objects(l: ProcessLists, t: TimerList, p: PoolAllocator, links: array<int>,
                         bs: seq<PCB>): (r: set<object>)
    ensures {l, t, p, links} <= r && forall x :: x in bs ==> x in r
  {
    var own: set<object>, blocks: set<object> := {l, t, p, links}, set x | x in bs;
    own + blocks
  }

  class Kernel {
    var time: int
    var lastPid: int
    var initPcb: int
    var running: int
    var memory: map<int, int>
    const lists: ProcessLists
    const timers: TimerList
    const pool: PoolAllocator
    const kids: Children
    const pcbs: seq<PCB>
    ghost var procs: seq<Proc>
    ghost const poolLinks: array<int>
    ghost const Repr: set<object>

    ghost predicate Shape() {
      && {this, lists, timers, pool, poolLinks} <= Repr && lists.Repr <= Repr && timers.Repr <= Repr
      && lists.Repr !! timers.Repr && this !in lists.Repr + timers.Repr
      && pool !in lists.Repr + timers.Repr && poolLinks !in lists.Repr + timers.Repr
      && lists !in lists.Repr + timers.Repr && timers !in lists.Repr
      && (forall p :: p in pcbs ==> p in Repr && p !in lists.Repr && p !in timers.Repr)
      && (forall i :: 0 <= i < |pcbs| ==> pcbs[i].list.idx == i)
      && |lists.items| == |pcbs| == |timers.blocks|
      && kids.Repr <= Repr && {kids, kids.pool} <= kids.Repr && |kids.table.heads| == |pcbs|
      && kids.Repr !! lists.Repr && kids.Repr !! timers.Repr && {this, lists, timers, pool, poolLinks} !! kids.Repr
      && (forall p :: p in pcbs ==> p !in kids.Repr)
    }

    /** The block table holds the abstract records. */
    ghost predicate TableOk()
      reads this, pcbs
    {
      |procs| == |pcbs| && forall i :: 0 <= i < |pcbs| ==> HasFields(pcbs[i], procs[i])
    }

    /** The children of each process are with the child lists. */
    ghost predicate KidsAre(ps: seq<Proc>)
      reads kids
    {
      |ps| == |kids.children| && forall b :: 0 <= b < |ps| ==> ps[b].children == kids.children[b]
    }

    ghost predicate PoolOk()
      reads pool, poolLinks
    {
      pool.freeList == poolLinks && pool.Valid() && pool.sizeMax == |pcbs|
    }

    ghost predicate Valid()
      reads this, Repr
    {
      Shape() && lists.Valid() && timers.Valid() && PoolOk() && TableOk() && kids.Valid() && KidsAre(procs)
    }

    /** The state of the process model that the kernel is in. */
    ghost function Abs(): State
      reads this, lists.ready, lists.waiting, lists.zombie, timers, pool, kids.pool
    {
      State(time, lastPid, initPcb, running, lists.ready.Contents(), lists.waiting.Contents(),
            lists.zombie.Contents(), timers.timers, pool.free, |kids.pool.free|, procs, memory)
    }

    /** The parts are separate objects. */
    static ghost predicate Separate(l: ProcessLists, t: TimerList, p: PoolAllocator, links: array<int>, c: Children,
                                    bs: seq<PCB>)
    {
      && l.Repr !! t.Repr && l !in l.Repr + t.Repr && t !in l.Repr
      && p !in l.Repr + t.Repr && links !in l.Repr + t.Repr
      && (forall x :: x in bs ==> x !in l.Repr && x !in t.Repr)
      && (forall i :: 0 <= i < |bs| ==> bs[i].list.idx == i)
      && |l.items| == |bs| == |t.blocks|
      && {c, c.pool} <= c.Repr && |c.table.heads| == |bs|
      && c.Repr !! l.Repr && c.Repr !! t.Repr && {l, t, p, links} !! c.Repr && (forall x :: x in bs ==> x !in c.Repr)
    }

    constructor (l: ProcessLists, t: TimerList, p: PoolAllocator, c: Children, bs: seq<PCB>)
      requires Separate(l, t, p, p.freeList, c, bs)
      requires l.Valid() && t.Valid() && p.Valid() && p.sizeMax == |bs|
      requires c.Valid() && c.children == seq(|bs|, _ => []) && |c.pool.free| == |bs|
      requires forall i :: 0 <= i < |bs| ==> HasFields(bs[i], UnusedProc)
      ensures Valid() && lists == l && timers == t && pool == p && kids == c && pcbs == bs
      ensures time == lastPid == 0 && initPcb == running == NULL && |kids.pool.free| == |bs| && memory == map[]
      ensures procs == seq(|bs|, _ => UnusedProc)
      ensures Repr == {this} + Objects(l, t, p, p.freeList, bs) + l.Repr + t.Repr + c.Repr
    {
      hide ProcessLists.Valid, TimerList.Valid, PoolAllocator.Valid, Children.Valid, HasFields, Objects;
      time, lastPid, initPcb, running, memory := 0, 0, NULL, NULL, map[];
      lists, timers, pool, kids, pcbs, procs, poolLinks := l, t, p, c, bs, seq(|bs|, _ => UnusedProc), p.freeList;
      Repr := {this} + Objects(l, t, p, p.freeList, bs) + l.Repr + t.Repr + c.Repr;
      new;
      assert Shape();
    }

    // ---------- one component at a time ----------

    method SetStatus(b: int, status: Status)
      requires Valid() && 0 <= b < |pcbs|
      modifies Repr
      ensures Valid() && Abs() == old(Abs()).Set(b, old(Abs()).P(b).(status := status))
    {
      hide ProcessLists.Valid, TimerList.Valid, PoolAllocator.Valid, Children.Valid, ListHead.Contents;
      assert pcbs[b] in pcbs;
      pcbs[b].status := status;
      procs := procs[b := procs[b].(status := status)];
    }

    method SetTimer(b: int, timer: int)
      requires Valid() && 0 <= b < |pcbs|
      modifies Repr
      ensures Valid() && Abs() == old(Abs()).Set(b, old(Abs()).P(b).(timer := timer))
    {
      hide ProcessLists.Valid, TimerList.Valid, PoolAllocator.Valid, Children.Valid, ListHead.Contents;
      assert pcbs[b] in pcbs;
      pcbs[b].timer := timer;
      procs := procs[b := procs[b].(timer := timer)];
    }

    method SetParent(b: int, parent: int)
      requires Valid() && 0 <= b < |pcbs|
      modifies Repr
      ensures Valid() && Abs() == old(Abs()).Set(b, old(Abs()).P(b).(parent := parent))
    {
      hide ProcessLists.Valid, TimerList.Valid, PoolAllocator.Valid, Children.Valid, ListHead.Contents;
      assert pcbs[b] in pcbs;
      pcbs[b].parent := parent;
      procs := procs[b := procs[b].(parent := parent)];
    }

    /** The child lists have changed and the records not yet. */
    ghost predicate Unrecorded(ps: seq<Proc>)
      reads this, Repr
    {
      Shape() && lists.Valid() && timers.Valid() && PoolOk() && TableOk() && kids.Valid() && KidsAre(ps)
    }

    lemma Components()
      requires Valid()
      ensures Shape() && lists.Valid() && timers.Valid() && PoolOk() && TableOk() && kids.Valid() && KidsAre(procs)
      ensures |procs| == |pcbs| == |kids.children| && |kids.table.heads| == |pcbs|
      ensures forall b :: 0 <= b < |pcbs| ==> procs[b].children == kids.children[b] == Abs().P(b).children
      ensures kids.Repr <= Repr && this in Repr && this !in kids.Repr && Abs().procs == procs
    {
      hide lists.Valid, TimerList.Valid, PoolOk, Children.Valid, HasFields, ListHead.Contents;
    }

    lemma Compose(ps: seq<Proc>)
      requires Shape() && lists.Valid() && timers.Valid() && PoolOk() && TableOk() && kids.Valid() && KidsAre(ps)
      ensures Unrecorded(ps)
    {
    }

    /** The children are outside the rest of the kernel. */
    lemma Outside()
      requires Shape() && lists.Valid()
      ensures {this, lists, timers, pool, poolLinks, lists.ready, lists.waiting, lists.zombie} !! kids.Repr
      ensures lists.Repr !! kids.Repr && timers.Repr !! kids.Repr && {kids, kids.pool} <= kids.Repr
      ensures forall i :: 0 <= i < |pcbs| ==> pcbs[i] !in kids.Repr
    {
      assert {lists.ready, lists.waiting, lists.zombie} <= lists.Repr;
      assert forall i :: 0 <= i < |pcbs| ==> pcbs[i] in pcbs;
    }

    lemma AbsIs()
      ensures Abs() == State(time, lastPid, initPcb, running, lists.ready.Contents(), lists.waiting.Contents(),
                             lists.zombie.Contents(), timers.timers, pool.free, |kids.pool.free|, procs, memory)
    {
    }

    lemma OneChildList(before: seq<seq<int>>, b: int, q: seq<int>)
      requires |procs| == |before| && 0 <= b < |procs|
      requires forall k :: 0 <= k < |procs| ==> procs[k].children == before[k]
      requires kids.children == before[b := q]
      ensures KidsAre(WithKids(procs, b, q))
    {
    }

    ghost method Record(b: int, q: seq<int>)
      requires 0 <= b < |procs| && Unrecorded(WithKids(procs, b, q))
      modifies this`procs
      ensures Valid() && Abs() == old(Abs()).(procs := WithKids(old(Abs()).procs, b, q))
    {
      hide ProcessLists.Valid, TimerList.Valid, PoolOk, Children.Valid, ListHead.Contents;
      procs := WithKids(procs, b, q);
    }

    method KidIn(b: int, c: int)
      requires Valid() && 0 <= b < |pcbs| && kids.pool.free != []
      modifies kids.Repr
      ensures |procs| == |pcbs| && Unrecorded(WithKids(procs, b, procs[b].children + [c])) && old(Abs()).ptrFree > 0
      ensures Abs() == old(Abs()).(ptrFree := old(Abs()).ptrFree - 1)
    {
      hide *;
      Components();
      Outside();
      AbsIs();
      ghost var before := kids.children;
      kids.Add(b, c);
      OneChildList(before, b, procs[b].children + [c]);
      Compose(WithKids(procs, b, procs[b].children + [c]));
      AbsIs();
    }

    method KidOut(b: int, x: int, ghost k: nat)
      requires Valid() && 0 <= b < |pcbs| && EntryAt(b, x, k)
      modifies kids.Repr
      ensures |procs| == |pcbs| && k < |procs[b].children| && Detached(x)
      ensures kids.ptrs[x].pcb == procs[b].children[k]
      ensures Unrecorded(WithKids(procs, b, RemoveAt(procs[b].children, k))) && Abs() == old(Abs())
    {
      hide *;
      Components();
      EntryIs(b, x, k);
      Outside();
      AbsIs();
      ghost var before := kids.children;
      kids.Detach(b, x, k);
      DetachedIs(x);
      OneChildList(before, b, RemoveAt(procs[b].children, k));
      Compose(WithKids(procs, b, RemoveAt(procs[b].children, k)));
      AbsIs();
    }

    method KidBack(b: int, x: int)
      requires Valid() && 0 <= b < |pcbs| && Detached(x)
      modifies kids.Repr
      ensures |procs| == |pcbs| && Unrecorded(WithKids(procs, b, procs[b].children + [old(kids.ptrs[x].pcb)]))
      ensures Abs() == old(Abs())
    {
      hide *;
      Components();
      DetachedIs(x);
      Outside();
      AbsIs();
      ghost var before, c := kids.children, kids.ptrs[x].pcb;
      kids.Insert(b, x);
      OneChildList(before, b, procs[b].children + [c]);
      Compose(WithKids(procs, b, procs[b].children + [c]));
      AbsIs();
    }

    method NoKids(b: int)
      requires Valid() && 0 <= b < |pcbs|
      modifies kids.Repr
      ensures |procs| == |pcbs| && Unrecorded(WithKids(procs, b, [])) && Abs() == old(Abs())
    {
      hide *;
      Components();
      Outside();
      AbsIs();
      ghost var before := kids.children;
      kids.Clear(b);
      OneChildList(before, b, []);
      Compose(WithKids(procs, b, []));
      AbsIs();
    }

    /** Entry x is the k-th in the list of children of b. */
    ghost predicate EntryAt(b: int, x: int, k: nat)
      reads kids.table
    {
      0 <= b < |kids.table.lists| && k < |kids.table.lists[b]| && kids.table.lists[b][k] == x
    }

    /** Entry x is in use and in no list. */
    ghost predicate Detached(x: int)
      reads kids.table, kids.pool
    {
      0 <= x < |kids.ptrs| && !InSome(kids.table.lists, x) && x !in kids.pool.free
    }

    lemma EntryIs(b: int, x: int, k: nat)
      requires Valid() && EntryAt(b, x, k)
      ensures 0 <= b < |kids.table.lists| == |kids.table.heads| && k < |kids.table.lists[b]|
      ensures kids.table.lists[b][k] == x
    {
      hide *;
      Components();
      kids.Parts();
      EntryMeans(b, x, k);
    }

    lemma EntryMeans(b: int, x: int, k: nat)
      ensures EntryAt(b, x, k) <==>
                0 <= b < |kids.table.lists| && k < |kids.table.lists[b]| && kids.table.lists[b][k] == x
    {
    }

    lemma DetachedIs(x: int)
      ensures Detached(x) <==> 0 <= x < |kids.ptrs| && !InSome(kids.table.lists, x) && x !in kids.pool.free
    {
    }

    /** PCBPtr_alloc for process c, and List_insert of the entry into the children of b. */
    method AddChild(b: int, c: int)
      requires Valid() && 0 <= b < |pcbs| && Abs().ptrFree > 0
      modifies Repr
      ensures Valid() && old(Abs()).ptrFree > 0
      ensures Abs() == old(Abs()).Set(b, old(Abs()).P(b).(children := old(Abs()).P(b).children + [c]))
                         .(ptrFree := old(Abs()).ptrFree - 1)
    {
      hide *;
      Components();
      AbsIs();
      ghost var s, q := Abs(), procs[b].children + [c];
      KidsInState(s, b, q);
      KidIn(b, c);
      Record(b, q);
    }

    /** List_detach of the k-th entry of the children of b; its block stays in use. */
    method DetachChild(b: int, x: int, ghost k: nat)
      requires Valid() && 0 <= b < |pcbs| && EntryAt(b, x, k)
      modifies Repr
      ensures Valid() && Detached(x) && k < |old(Abs()).P(b).children|
      ensures kids.ptrs[x].pcb == old(Abs()).P(b).children[k]
      ensures Abs() == old(Abs()).Set(b, old(Abs()).P(b).(children := RemoveAt(old(Abs()).P(b).children, k)))
    {
      hide *;
      Components();
      ghost var s := Abs();
      KidOut(b, x, k);
      ghost var q := RemoveAt(procs[b].children, k);
      KidsInState(s, b, q);
      Record(b, q);
    }

    /** List_insert of a detached entry into the children of b. */
    method InsertChild(b: int, x: int)
      requires Valid() && 0 <= b < |pcbs| && Detached(x)
      modifies Repr
      ensures Valid()
      ensures Abs() == old(Abs()).Set(b, old(Abs()).P(b).(children := old(Abs()).P(b).children
                                                                      + [old(kids.ptrs[x].pcb)]))
    {
      hide *;
      Components();
      DetachedIs(x);
      ghost var s, q := Abs(), procs[b].children + [kids.ptrs[x].pcb];
      KidsInState(s, b, q);
      KidBack(b, x);
      Record(b, q);
    }

    /** List_init of the children of b. */
    method ClearChildren(b: int)
      requires Valid() && 0 <= b < |pcbs|
      modifies Repr
      ensures Valid() && Abs() == old(Abs()).Set(b, old(Abs()).P(b).(children := []))
    {
      hide *;
      Components();
      ghost var s := Abs();
      KidsInState(s, b, []);
      NoKids(b);
      Record(b, []);
    }

    /** PCBPtr_free. */
    method FreePtr(x: int)
      requires Valid() && Detached(x)
      modifies Repr
      ensures Valid() && Abs() == old(Abs()).(ptrFree := old(Abs()).ptrFree + 1)
    {
      hide *;
      Components();
      DetachedIs(x);
      Outside();
      AbsIs();
      kids.FreeEntry(x);
      Rejoin();
      AbsIs();
    }

    /** The PCBPtr blocks that go to slots of message queues. */
    method TakePtrs(n: nat)
      requires Valid() && n <= Abs().ptrFree
      modifies Repr
      ensures Valid() && n <= old(Abs()).ptrFree && Abs() == old(Abs()).(ptrFree := old(Abs()).ptrFree - n)
    {
      hide *;
      Components();
      Outside();
      AbsIs();
      kids.Take(n);
      Rejoin();
      AbsIs();
    }

    lemma Rejoin()
      requires Shape() && lists.Valid() && timers.Valid() && PoolOk() && TableOk() && kids.Valid()
      requires |procs| == |kids.children| && forall b :: 0 <= b < |procs| ==> procs[b].children == kids.children[b]
      ensures Valid()
    {
    }

    method SetReturnValue(b: int, returnValue: int)
      requires Valid() && 0 <= b < |pcbs|
      modifies Repr
      ensures Valid() && Abs() == old(Abs()).Set(b, old(Abs()).P(b).(returnValue := returnValue))
    {
      hide ProcessLists.Valid, TimerList.Valid, PoolAllocator.Valid, Children.Valid, ListHead.Contents;
      assert pcbs[b] in pcbs;
      pcbs[b].returnValue := returnValue;
      procs := procs[b := procs[b].(returnValue := returnValue)];
    }

    method SetResult(b: int, callResult: int)
      requires Valid() && 0 <= b < |pcbs|
      modifies Repr
      ensures Valid() && Abs() == old(Abs()).Set(b, old(Abs()).P(b).(callResult := callResult))
    {
      hide ProcessLists.Valid, TimerList.Valid, PoolAllocator.Valid, Children.Valid, ListHead.Contents;
      assert pcbs[b] in pcbs;
      pcbs[b].callResult := callResult;
      procs := procs[b := procs[b].(callResult := callResult)];
    }

    method SetRegisters(b: int, callNum: int, arg0: int, arg1: int)
      requires Valid() && 0 <= b < |pcbs|
      modifies Repr
      ensures Valid() && Abs() == old(Abs()).Set(b, old(Abs()).P(b).(callNum := callNum, arg0 := arg0, arg1 := arg1))
    {
      hide ProcessLists.Valid, TimerList.Valid, PoolAllocator.Valid, Children.Valid, ListHead.Contents;
      assert pcbs[b] in pcbs;
      pcbs[b].callNum, pcbs[b].arg0, pcbs[b].arg1 := callNum, arg0, arg1;
      procs := procs[b := procs[b].(callNum := callNum, arg0 := arg0, arg1 := arg1)];
    }

    method SetRunning(b: int)
      requires Valid()
      modifies this`running
      ensures Valid() && Abs() == old(Abs()).(running := b)
    {
      running := b;
    }

    method SetInit(b: int)
      requires Valid()
      modifies this`initPcb
      ensures Valid() && Abs() == old(Abs()).(init := b)
    {
      initPcb := b;
    }

    /** List_insert into the ready list, behind the process `previous` or in front. */
    method InsertReady(previous: int, b: int, ghost k: nat)
      requires Valid() && 0 <= b < |pcbs| && lists.Loose(b) && k <= |Abs().ready|
      requires previous == if k == 0 then NULL else Abs().ready[k - 1]
      modifies Repr
      ensures Valid() && Abs() == old(Abs()).(ready := InsertAt(old(Abs()).ready, k, b))
    {
      hide ListHead.Valid, PoolOk, TimerList.Valid, Children.Valid, TableOk, KidsAre;
      var prev := null;
      if previous != NULL {
        lists.Header(lists.ready, k - 1);
        prev := lists.items[previous];
      }
      lists.Insert(lists.ready, prev, b, k);
    }

    method AppendReady(b: int)
      requires Valid() && 0 <= b < |pcbs| && lists.Loose(b)
      modifies Repr
      ensures Valid() && Abs() == old(Abs()).(ready := old(Abs()).ready + [b])
    {
      lists.Append(lists.ready, b);
    }

    method AppendWaiting(b: int)
      requires Valid() && 0 <= b < |pcbs| && lists.Loose(b)
      modifies Repr
      ensures Valid() && Abs() == old(Abs()).(waiting := old(Abs()).waiting + [b])
    {
      lists.Append(lists.waiting, b);
    }

    method AppendZombie(b: int)
      requires Valid() && 0 <= b < |pcbs| && lists.Loose(b)
      modifies Repr
      ensures Valid() && Abs() == old(Abs()).(zombie := old(Abs()).zombie + [b])
    {
      lists.Append(lists.zombie, b);
    }

    method PopReady() returns (b: int)
      requires Valid() && Abs().ready != []
      modifies Repr
      ensures Valid() && b == old(Abs()).ready[0]
      ensures Abs() == old(Abs()).(ready := old(Abs()).ready[1..])
    {
      lists.Ends(lists.ready);
      b := lists.Pop(lists.ready);
    }

    method TakeWaiting(b: int)
      requires Valid() && b in Abs().waiting
      modifies Repr
      ensures Valid() && Abs() == old(Abs()).(waiting := Remove(old(Abs()).waiting, b))
    {
      lists.Take(lists.waiting, b);
    }

    method TakeZombie(b: int)
      requires Valid() && b in Abs().zombie
      modifies Repr
      ensures Valid() && Abs() == old(Abs()).(zombie := Remove(old(Abs()).zombie, b))
    {
      lists.Take(lists.zombie, b);
    }

    method AddTimer(wake: int, b: int) returns (added: bool)
      requires Valid()
      modifies Repr
      ensures Valid() && added == (|old(Abs()).timers| < |pcbs|)
      ensures Abs() == if added then old(Abs()).(timers := ProcessModel.AddTimer(old(Abs()).timers, Timer(wake, b)))
                       else old(Abs())
    {
      hide Inserted, ProcessModel.AddTimer;
      ghost var before := timers.timers;
      added := timers.Add(wake, b);
      assert added ==> timers.timers == ProcessModel.AddTimer(before, Timer(wake, b)) by {
        if added { InsertedIsAdded(before, timers.timers, Timer(wake, b)); }
      }
    }

    /** The owner of the first timer if it is due. */
    method CurrentTimer() returns (b: int)
      requires Valid()
      ensures b == DueOwner(Abs())
    {
      var timer := timers.Current(time);
      b := if timer != null then timer.pcb else NULL;
    }

    method RemoveCurrentTimer()
      requires Valid() && Abs().timers != []
      modifies Repr
      ensures Valid() && Abs() == old(Abs()).(timers := old(Abs()).timers[1..])
    {
      timers.RemoveCurrent();
    }

    method PurgeTimers(b: int)
      requires Valid()
      modifies Repr
      ensures Valid() && Abs() == old(Abs()).(timers := DropTimers(old(Abs()).timers, b))
    {
      timers.Purge(b);
    }

    /** PCB_free. */
    method FreePcb(b: int)
      requires Valid() && 0 <= b < |pcbs| && b !in Abs().free
      modifies Repr
      ensures Valid() && Abs() == old(Abs()).(free := [b] + old(Abs()).free)
    {
      var r := pool.Free(b);
    }

    /** PCB_alloc; the source writes through a null pointer when the pool is empty. */
    method AllocPcb() returns (b: int)
      requires Valid() && Abs().free != []
      modifies Repr
      ensures Valid() && 0 <= b < |pcbs| && b == old(Abs()).free[0]
      ensures Abs() == old(Abs()).Set(b, Fresh(old(Abs()).P(b), old(Abs()).lastPid))
                         .(free := old(Abs()).free[1..], lastPid := old(Abs()).lastPid + 1)
    {
      hide ProcessLists.Valid, TimerList.Valid, ListHead.Contents;
      b := TakePcb();
      ghost var s := Abs();
      ResetPcb(b);
      ClearChildren(b);
      FreshForm(s, b);
    }

    method TakePcb() returns (b: int)
      requires Valid() && Abs().free != []
      modifies Repr
      ensures Valid() && 0 <= b < |pcbs| && b == old(Abs()).free[0]
      ensures Abs() == old(Abs()).(free := old(Abs()).free[1..])
    {
      hide ProcessLists.Valid, TimerList.Valid, Children.Valid, ListHead.Contents;
      b := pool.Alloc();
    }

    /** The fields that PCB_alloc initialises, except the list of children. */
    method ResetPcb(b: int)
      requires Valid() && 0 <= b < |pcbs|
      modifies Repr
      ensures Valid()
      ensures Abs() == old(Abs()).Set(b, Fresh(old(Abs()).P(b), old(Abs()).lastPid)
                                           .(children := old(Abs()).P(b).children))
                         .(lastPid := old(Abs()).lastPid + 1)
    {
      hide ProcessLists.Valid, TimerList.Valid, PoolOk, Children.Valid, ListHead.Contents;
      assert pcbs[b] in pcbs;
      var pcb := pcbs[b];
      pcb.pid := lastPid;
      lastPid := lastPid + 1;
      pcb.returnValue, pcb.status, pcb.parent, pcb.timer := 0, Invalid, NULL, NULL;
      procs := procs[b := Fresh(procs[b], pcb.pid).(children := procs[b].children)];
    }

    /** `*result = value`, unless the pointer is null. */
    method StoreResult(address: int, value: int)
      requires Valid()
      modifies this`memory
      ensures Valid() && Abs() == old(Abs()).(memory := Store(old(Abs()).memory, address, value))
    {
      if address != 0 {
        memory := memory[address := value];
      }
    }

    // ---------- system calls ----------

    lemma Sizes()
      requires Valid()
      ensures |Abs().procs| == |pcbs| && this in Repr
      ensures lists.ready.first == null <==> Abs().ready == []
    {
      lists.Ends(lists.ready);
    }

    /** The first process. */
    method Start()
      requires Valid() && Abs().free != [] && initPcb == NULL
      modifies Repr
      ensures Valid()
      ensures var s, b := old(Abs()), old(Abs()).free[0];
              Abs() == s.Set(b, Fresh(s.P(b), s.lastPid).(status := Running))
                        .(free := s.free[1..], lastPid := s.lastPid + 1, running := b, init := b)
    {
      hide Valid, HasFields, ListHead.Contents;
      ghost var s := Abs();
      Sizes();
      var b := AllocPcb();
      SetStatus(b, Running);
      SetRunning(b);
      SetInit(b);
      SetTwice(s, b, Fresh(s.P(b), s.lastPid), Fresh(s.P(b), s.lastPid).(status := Running));
    }

    /** The body of the loop of internal_schedule. */
    method WakeCurrent(b: int, previous: int, ghost k: nat)
      requires Valid() && Inv(Abs()) && Elapsed(Abs()) && b == Abs().timers[0].pcb && k <= |Abs().ready|
      requires previous == if k == 0 then NULL else Abs().ready[k - 1]
      modifies Repr
      ensures Valid() && Abs() == WakeOne(old(Abs()), k)
    {
      hide Valid, Inv, InsertAt, Remove, ListHead.Contents, HasFields;
      ghost var s := Abs();
      Wakeable(s);
      Sizes();
      TakeWaiting(b);
      SetStatus(b, Ready);
      SetTimer(b, NULL);
      assert lists.Loose(b);
      InsertReady(previous, b, k);
      RemoveCurrentTimer();
      SetTwice(s, b, s.P(b).(status := Ready), s.P(b).(status := Ready, timer := NULL));
    }

    /** The end of internal_schedule. */
    method RotateReady()
      requires Valid() && Inv(Abs()) && running != NULL
      modifies Repr
      ensures Valid() && Abs() == Rotate(old(Abs()))
    {
      hide Valid, Inv;
      ghost var s := Abs();
      Rotation(s);
      Sizes();
      if lists.ready.first != null {
        var next := PopReady();
        SetStatus(running, Ready);
        AppendReady(running);
        SetStatus(next, Running);
        SetRunning(next);
      }
    }

    /** internal_schedule. */
    method InternalSchedule()
      requires Valid() && Inv(Abs()) && running != NULL
      modifies Repr
      ensures Valid() && Abs() == Schedule(old(Abs()))
    {
      hide Valid, Inv, WakeElapsed, WakeOne, Elapsed, Rotate;
      ghost var s, k := Abs(), 0;
      var previous := NULL;
      var elapsed := CurrentTimer();
      while elapsed != NULL
        invariant Valid() && Inv(Abs()) && k <= |Abs().ready|
        invariant running == s.running != NULL
        invariant WakeElapsed(Abs(), k) == WakeElapsed(s, 0)
        invariant elapsed == DueOwner(Abs())
        invariant previous == if k == 0 then NULL else Abs().ready[k - 1]
        decreases |Abs().timers|
      {
        DueStep(Abs(), k);
        WakeOneKeepsInv(Abs(), k);
        WakeCurrent(elapsed, previous, k);
        previous := elapsed;
        k := k + 1;
        elapsed := CurrentTimer();
      }
      DueStep(Abs(), k);
      RotateReady();
    }

    lemma FieldsAt(b: int)
      requires Valid() && 0 <= b < |pcbs|
      ensures HasFields(pcbs[b], Abs().P(b))
    {
    }

    /** internal_spawn. */
    method InternalSpawn()
      requires Valid() && Inv(Abs()) && running != NULL && CanSpawn(Abs())
      modifies Repr
      ensures Valid() && Abs() == Spawn(old(Abs()))
    {
      hide Valid, Inv, Spawn, HasFields, ListHead.Contents, Fresh;
      ghost var s := Abs();
      Fresher(s);
      SpawnForm(s);
      Rotation(s);
      Sizes();
      var b := NewChild();
      AddChild(running, b);
      AppendReady(b);
      FieldsAt(b);
      SetResult(running, pcbs[b].pid);
    }

    /** A new ready process whose parent is the running one. */
    method NewChild() returns (b: int)
      requires Valid() && CanSpawn(Abs())
      modifies Repr
      ensures Valid() && 0 <= b < |pcbs| && b == old(Abs()).free[0]
      ensures Abs() == Born(old(Abs()))
    {
      hide Valid, Fresh;
      ghost var s := Abs();
      b := AllocPcb();
      SetStatus(b, Ready);
      SetParent(b, running);
    }

    /** internal_sleep. */
    method InternalSleep()
      requires Valid() && Inv(Abs()) && running != NULL
      modifies Repr
      ensures Valid() && Abs() == Sleep(old(Abs()))
    {
      hide *;
      ghost var s := Abs();
      Globals();
      Rotation(s);
      Sizes();
      Values(running);
      LooseProc(running);
      SleepForm(s);
      if pcbs[running].timer != NULL {
        SetResult(running, DSOS_ESLEEP);
        return;
      }
      var wakeTime := time + pcbs[running].arg0;
      var added := AddTimer(wakeTime, running);
      Globals();
      if !added {
        SetResult(running, DSOS_ESLEEP);
        return;
      }
      LooseProc(running);
      BlockRunning();
      Sizes();
      if lists.ready.first != null {
        var next := PopReady();
        SetRunning(next);
      } else {
        SetRunning(NULL);
      }
    }

    lemma LooseProc(b: int)
      ensures lists.Loose(b) <==> b !in Abs().ready && b !in Abs().waiting && b !in Abs().zombie
    {
    }

    /** The first entry of the children of b, or -1. */
    method FirstEntry(b: int) returns (x: int)
      requires Valid() && 0 <= b < |pcbs|
      ensures Abs().P(b).children == [] <==> x == -1
      ensures x != -1 ==> EntryAt(b, x, 0) && 0 <= x < |kids.ptrs| && kids.ptrs[x].pcb == Abs().P(b).children[0]
    {
      hide *;
      Components();
      x := kids.First(b);
      EntryMeans(b, x, 0);
    }

    /** The entry behind the k-th one of the children of b, or -1. */
    method NextEntry(x: int, ghost b: int, ghost k: nat) returns (y: int)
      requires Valid() && 0 <= b < |pcbs| && EntryAt(b, x, k) && k < |Abs().P(b).children|
      ensures k + 1 == |Abs().P(b).children| <==> y == -1
      ensures y != -1 ==>
                && k + 1 < |Abs().P(b).children| && EntryAt(b, y, k + 1)
                && 0 <= y < |kids.ptrs| && kids.ptrs[y].pcb == Abs().P(b).children[k + 1]
    {
      hide *;
      Components();
      EntryIs(b, x, k);
      y := kids.Next(x, b, k);
      EntryMeans(b, y, k + 1);
    }

    /** The scan of the children in internal_wait: the entry of the first match, or else of the last child. */
    method ScanChildren(b: int, pid: int) returns (x: int, ghost k: nat)
      requires Valid() && 0 <= b < |pcbs| && Abs().P(b).children != []
      requires forall i :: 0 <= i < |Abs().P(b).children| ==> 0 <= Abs().P(b).children[i] < |pcbs|
      ensures k == Scan(Abs(), Abs().P(b).children, pid) && EntryAt(b, x, k)
      ensures 0 <= x < |kids.ptrs| && kids.ptrs[x].pcb == Abs().P(b).children[k]
    {
      hide Valid, HasFields, Abs, EntryAt;
      ghost var children := Abs().P(b).children;
      var aux := FirstEntry(b);
      ghost var i := 0;
      x, k := aux, 0;
      while aux != -1
        invariant i <= |children| && (aux == -1 <==> i == |children|)
        invariant aux != -1 ==> EntryAt(b, aux, i) && 0 <= aux < |kids.ptrs| && kids.ptrs[aux].pcb == children[i]
        invariant k == if i == 0 then 0 else i - 1
        invariant EntryAt(b, x, k) && 0 <= x < |kids.ptrs| && kids.ptrs[x].pcb == children[k]
        invariant forall j :: 0 <= j < i ==> !Matches(Abs().P(children[j]), pid)
        decreases |children| - i
      {
        x, k := aux, i;
        var awaited := pcbs[kids.ptrs[x].pcb];
        FieldsAt(children[i]);
        PidAndStatus(awaited, Abs().P(children[i]));
        if pid == 0 && awaited.status == Zombie {
          break;
        }
        if pid != 0 && awaited.pid == pid {
          break;
        }
        aux := NextEntry(aux, b, i);
        i := i + 1;
      }
      ScanIs(Abs(), children, pid, k);
    }

    lemma PidAndStatus(p: PCB, r: Proc)
      requires HasFields(p, r)
      ensures p.pid == r.pid && p.status == r.status
    {
    }

    /** internal_wait. */
    method InternalWait()
      requires Valid() && Inv(Abs()) && running != NULL && (WaitBlocks(Abs()) ==> Abs().ready != [])
      modifies Repr
      ensures Valid() && Abs() == Wait(old(Abs()))
    {
      hide Valid, Inv, HasFields, ListHead.Contents, EntryAt;
      ghost var s := Abs();
      Rotation(s);
      Sizes();
      FieldsAt(running);
      var first := FirstEntry(running);
      if first == -1 {
        SetResult(running, DSOS_EWAIT);
        return;
      }
      ChildrenInRange(s);
      Globals();
      var x;
      ghost var k;
      x, k := ScanChildren(running, pcbs[running].arg0);
      var c := kids.ptrs[x].pcb;
      FieldsAt(c);
      if pcbs[c].status == Zombie {
        Reapable(s, k);
        ReapChild(x, k);
      } else {
        BlockRunning();
        var next := PopReady();
        SetRunning(next);
      }
    }

    /** The dead child leaves the children of the caller and the zombie list, and its entry is freed. */
    method DropChild(x: int, ghost k: nat) returns (c: int)
      requires Valid() && 0 <= running < |pcbs| && EntryAt(running, x, k) && k < |Abs().Me().children|
      requires Abs().Me().children[k] in Abs().zombie
      modifies Repr
      ensures Valid() && k < |old(Abs()).Me().children| && c == old(Abs()).Me().children[k]
      ensures Abs() == WithoutChild(old(Abs()), k) && running == old(running)
    {
      hide *;
      ghost var s := Abs();
      Sizes();
      Globals();
      WithoutForm(s, k);
      DetachChild(running, x, k);
      DetachedIs(x);
      c := kids.ptrs[x].pcb;
      Globals();
      FreePtr(x);
      TakeZombie(c);
      Globals();
    }

    lemma Globals()
      ensures Abs().running == running && Abs().init == initPcb && Abs().time == time && Abs().Me() == Abs().P(running)
    {
    }

    lemma Values(b: int)
      requires Valid() && 0 <= b < |pcbs|
      ensures pcbs[b].pid == Abs().P(b).pid && pcbs[b].returnValue == Abs().P(b).returnValue
      ensures pcbs[b].arg0 == Abs().P(b).arg0 && pcbs[b].arg1 == Abs().P(b).arg1
      ensures pcbs[b].timer == Abs().P(b).timer
    {
    }

    /** The check of internal_exit: the parent waits for the running process. */
    method ParentWaiting() returns (w: bool)
      requires Valid() && 0 <= running < |pcbs| && 0 <= Abs().Me().parent < |pcbs|
      ensures w == ParentWaits(Abs())
    {
      hide Valid;
      Globals();
      FieldsAt(running);
      var parent := pcbs[running].parent;
      FieldsAt(parent);
      var q := pcbs[parent];
      w := q.status == Waiting && q.callNum == DSOS_CALL_WAIT && (q.arg0 == 0 || q.arg0 == pcbs[running].pid);
    }

    /** The last process of the ready list. */
    method LastReady() returns (b: int)
      requires Valid() && Abs().ready != []
      ensures b == Abs().ready[|Abs().ready| - 1]
    {
      lists.Ends(lists.ready);
      hide ProcessLists.Valid, TimerList.Valid, Children.Valid, PoolOk, TableOk, KidsAre, ListHead.Valid;
      b := lists.ready.last.idx;
    }

    lemma Registers(b: int)
      requires Valid() && 0 <= b < |pcbs|
      ensures pcbs[b].callResult == Abs().P(b).callResult && pcbs[b].returnValue == Abs().P(b).returnValue
    {
    }

    /** The rest of the wait that reaps a zombie: the caller gets its pid and exit value, and its block
        goes to the PCB pool. */
    method ReapChild(x: int, ghost k: nat)
      requires Valid() && 0 <= running < |pcbs| && EntryAt(running, x, k) && k < |Abs().Me().children|
      requires var c := Abs().Me().children[k];
               c in Abs().zombie && c != running && c !in Abs().free && 0 <= c < |pcbs|
      modifies Repr
      ensures Valid() && k < |old(Abs()).Me().children| && Abs() == Reap(old(Abs()), k)
    {
      hide *;
      ghost var s := Abs();
      Globals();
      ReapForm(s, k);
      Sizes();
      var c := DropChild(x, k);
      Values(c);
      SetResult(running, pcbs[c].pid);
      Globals();
      Values(c);
      Values(running);
      StoreResult(pcbs[running].arg1, pcbs[c].returnValue);
      FreePcb(c);
    }

    /** The running process goes to the end of the waiting list. */
    method BlockRunning()
      requires Valid() && 0 <= running < |pcbs| && lists.Loose(running)
      modifies Repr
      ensures Valid() && Abs() == Block(old(Abs()))
    {
      hide Valid;
      Sizes();
      SetStatus(running, Waiting);
      AppendWaiting(running);
    }

    /** PCBPtr_byPID: the entry of the first child of b with this pid, or -1. */
    method FindChild(b: int, pid: int) returns (x: int, ghost k: nat)
      requires Valid() && 0 <= b < |pcbs|
      requires forall i :: 0 <= i < |Abs().P(b).children| ==> 0 <= Abs().P(b).children[i] < |pcbs|
      ensures k == FindPid(Abs(), Abs().P(b).children, pid)
      ensures x == -1 <==> k == |Abs().P(b).children|
      ensures x != -1 ==> EntryAt(b, x, k)
    {
      hide Valid, HasFields, Abs, EntryAt;
      ghost var children := Abs().P(b).children;
      x := FirstEntry(b);
      k := 0;
      while x != -1
        invariant k <= |children| && (x == -1 <==> k == |children|)
        invariant x != -1 ==> EntryAt(b, x, k) && 0 <= x < |kids.ptrs| && kids.ptrs[x].pcb == children[k]
        invariant forall j :: 0 <= j < k ==> Abs().P(children[j]).pid != pid
        decreases |children| - k
      {
        FieldsAt(children[k]);
        PidAndStatus(pcbs[children[k]], Abs().P(children[k]));
        if pcbs[kids.ptrs[x].pcb].pid == pid {
          break;
        }
        x := NextEntry(x, b, k);
        k := k + 1;
      }
      FindPidIs(Abs(), children, pid, k);
    }

    /** The loop of internal_exit that gives every child to init. */
    method AdoptChildren()
      requires Valid() && 0 <= running < |pcbs| && 0 <= initPcb < |pcbs| && running != initPcb
      modifies Repr
      ensures Valid() && Abs() == Adopt(old(Abs()))
    {
      hide *;
      ghost var s, i := Abs(), 0;
      ghost var all := s.Me().children;
      Sizes();
      Globals();
      Unmoved(s);
      StartsWhole(all);
      var x := FirstEntry(running);
      while x != -1
        invariant Valid() && i <= |all| && running == s.running && initPcb == s.init && this in Repr
        invariant Abs() == Moved(s, i) && Abs().P(running).children == all[i..]
        invariant x == -1 <==> all[i..] == []
        invariant x != -1 ==> EntryAt(running, x, 0) && 0 <= x < |kids.ptrs| && kids.ptrs[x].pcb == all[i..][0]
        decreases |all| - i
      {
        MoveOne(s, i);
        assert i < |all|;
        DetachChild(running, x, 0);
        Globals();
        Sizes();
        InsertChild(initPcb, x);
        Globals();
        Sizes();
        i := i + 1;
        x := FirstEntry(running);
      }
      MovedAll(s);
    }

    /** internal_exit up to the check of the parent. */
    method DieNow()
      requires Valid() && 0 <= running < |pcbs| && 0 <= initPcb < |pcbs| && running != initPcb && lists.Loose(running)
      modifies Repr
      ensures Valid() && Abs() == Die(Adopt(old(Abs())))
    {
      hide Valid, HasFields, ListHead.Contents, Die, Adopt;
      ghost var s := Abs();
      Sizes();
      FieldsAt(running);
      SetReturnValue(running, pcbs[running].arg0);
      ghost var s1 := Abs();
      AdoptChildren();
      AdoptFields(s1);
      DieForm(s, s1, Abs());
      SetStatus(running, Zombie);
      AppendZombie(running);
    }

    /** internal_exit when the parent waits for this process. */
    method HandOverTo(parent: int)
      requires Valid() && 0 <= running < |pcbs| && parent == Abs().Me().parent
      requires 0 <= parent < |pcbs| && parent != running
      requires forall i :: 0 <= i < |Abs().P(parent).children| ==> 0 <= Abs().P(parent).children[i] < |pcbs|
      requires HasChild(Abs(), parent, Abs().Me().pid)
      requires parent in Abs().waiting && running in Abs().zombie && running !in Abs().free
      modifies Repr
      ensures Valid() && Abs() == HandOver(old(Abs()))
    {
      hide Valid, HasFields, ListHead.Contents, HandOver, Store, Remove, RemoveAt, DropTimers, FindPid;
      ghost var s := Abs();
      Sizes();
      TakeWaiting(parent);
      SetStatus(parent, Running);
      Values(parent);
      Values(running);
      ghost var s1 := Abs();
      StillHasChild(s, s1);
      var x;
      ghost var k;
      x, k := FindChild(parent, pcbs[running].pid);
      DetachChild(parent, x, k);
      ghost var s2 := Abs();
      Values(running);
      SetResult(parent, pcbs[running].pid);
      HandOverForm(s, s1, s2, Abs(), k);
      Values(parent);
      Values(running);
      StoreResult(pcbs[parent].arg1, pcbs[running].returnValue);
      PurgeTimers(running);
      TakeZombie(running);
      FreePcb(running);
      SetRunning(parent);
    }

    /** internal_exit. */
    method InternalExit()
      requires Valid() && Inv(Abs()) && running != NULL && CanExit(Abs())
      modifies Repr
      ensures Valid() && Abs() == Exit(old(Abs()))
    {
      hide Valid, Inv, HasFields, ListHead.Contents, Die, Adopt, HandOver;
      ghost var s := Abs();
      Rotation(s);
      ExitFacts(s);
      Sizes();
      DieNow();
      Sizes();
      FieldsAt(running);
      var parent := pcbs[running].parent;
      FieldsAt(parent);
      var q := pcbs[parent];
      if q.status == Waiting && q.callNum == DSOS_CALL_WAIT && (q.arg0 == 0 || q.arg0 == pcbs[running].pid) {
        HandOverTo(parent);
      } else {
        var next := PopReady();
        SetStatus(next, Running);
        SetRunning(next);
      }
    }

    /** The timer interrupt. */
    method TimerInterrupt()
      requires Valid() && Inv(Abs()) && running != NULL
      modifies Repr
      ensures Valid() && Inv(Abs()) && Abs() == Step(old(Abs()), Op.Tick)
    {
      hide Valid, Inv, Schedule;
      ghost var s := Abs();
      Sizes();
      StepKeepsInv(s, Tick);
      RegistersKeepInv(s, Advance(s));
      AdvanceTime();
      InternalSchedule();
    }

    method AdvanceTime()
      requires Valid()
      modifies this`time
      ensures Valid() && Abs() == Advance(old(Abs()))
    {
      hide ProcessLists.Valid, TimerList.Valid, PoolAllocator.Valid, HasFields, ListHead.Contents;
      time := time + 1;
    }

    /** disastrOS_syscall: the registers of the running process. */
    method EnterCall(num: int, args: seq<int>)
      requires Valid() && 0 <= running < |pcbs|
      modifies Repr
      ensures Valid() && Abs() == Enter(old(Abs()), num, args)
    {
      hide Valid, HasFields;
      FieldsAt(running);
      var me := pcbs[running];
      SetRegisters(running, num, if |args| > 0 then args[0] else me.arg0, if |args| > 1 then args[1] else me.arg1);
    }

    /** disastrOS_trap: the call that the running process makes. */
    method Trap(op: Op)
      requires Valid() && Inv(Abs()) && CanStep(Abs(), op) && !op.Tick?
      modifies Repr
      ensures Valid() && Inv(Abs()) && Abs() == Step(old(Abs()), op)
    {
      hide Valid, Inv, Schedule, Spawn, Sleep, Wait, Exit, Enter, CanExit, WaitBlocks, CanSpawn;
      ghost var s := Abs();
      Rotation(s);
      Sizes();
      StepKeepsInv(s, op);
      EnteredKeepsInv(s, op);
      match op
      case Preempt =>
        EnterCall(DSOS_CALL_PREEMPT, []);
        InternalSchedule();
      case SpawnCall(f, args) =>
        EnterCall(DSOS_CALL_SPAWN, [f, args]);
        InternalSpawn();
      case SleepCall(cycles) =>
        EnterCall(DSOS_CALL_SLEEP, [cycles]);
        InternalSleep();
      case WaitCall(pid, result) =>
        EnterCall(DSOS_CALL_WAIT, [pid, result]);
        InternalWait();
      case ExitCall(value) =>
        EnterCall(DSOS_CALL_EXIT, [value]);
        InternalExit();
      case OtherCall(num, callArgs, result, value, blocks) =>
        EnterCall(num, callArgs);
        SetReturnValue(running, value);
        SetResult(running, result);
        TakePtrs(blocks);
    }
  }

  /** The state before the first process, and what starting it makes of it. */
  lemma StartIsBoot(n: nat, s: State)
    requires n > 0
    requires s == State(0, 0, NULL, NULL, [], [], [], [], seq(n, i => i), n, seq(n, _ => UnusedProc), map[])
    ensures s.free != [] && s.free[0] == 0
    ensures s.Set(0, Fresh(s.P(0), s.lastPid).(status := Running))
             .(free := s.free[1..], lastPid := s.lastPid + 1, running := 0, init := 0) == ProcessModel.Boot(n)
  {
    assert s.free[1..] == Upto(n - 1);
  }

  /** The parts of a kernel, all new. */
  method NewParts(n: nat) returns (l: ProcessLists, t: TimerList, p: PoolAllocator, c: Children, bs: seq<PCB>)
    requires n > 0
    ensures Kernel.Separate(l, t, p, p.freeList, c, bs) && |bs| == n
    ensures fresh(c.Repr) && c.Valid() && c.children == seq(n, _ => []) && |c.pool.free| == n
    ensures fresh(l.Repr) && fresh(t.Repr) && fresh(p) && fresh(p.freeList) && fresh(l) && fresh(t)
    ensures fresh(Objects(l, t, p, p.freeList, bs))
    ensures l.Valid() && t.Valid() && p.Valid() && p.sizeMax == n && p.free == seq(n, i => i) && t.timers == []
    ensures l.ready.Contents() == [] && l.waiting.Contents() == [] && l.zombie.Contents() == []
    ensures forall i :: 0 <= i < n ==> HasFields(bs[i], UnusedProc)
  {
    hide PoolAllocator.Valid, TimerList.Valid, ProcessLists.Valid, HasFields, Children.Valid;
    c := NewChildren(n);
    p := new PoolAllocator();
    var r := p.Init(SIZEOF_PCB, n, n * (SIZEOF_PCB + SIZEOF_INT));
    t := new TimerList(n);
    var hs;
    bs, hs := NewBlocks(n);
    l := new ProcessLists(hs);
  }

  /** disastrOS_start: the pools, the empty lists and the first process. */
  method Initialise(n: nat) returns (k: Kernel)
    requires n > 0
    ensures k.Valid() && Inv(k.Abs()) && k.Abs() == ProcessModel.Boot(n)
    ensures fresh(k.Repr) && k in k.Repr
  {
    hide PoolAllocator.Valid, TimerList.Valid, ProcessLists.Valid, HasFields, ListHead.Contents, Kernel.Valid, Inv,
      Objects, Kernel.Separate, SharedLists.ProcessLists.Shape, ProcessModel.Boot;
    var l, t, p, c, bs := NewParts(n);
    k := new Kernel(l, t, p, c, bs);
    StartIsBoot(n, k.Abs());
    k.Start();
    BootInv(n);
  }
}
