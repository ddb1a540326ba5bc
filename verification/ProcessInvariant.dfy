/** What every kernel call keeps, whatever the processes do. */
module ProcessInvariant {
  import opened Sequences
  import opened ProcessModel

  /** How often a block occurs in the pool, as running, and in the three process lists together. */
  ghost function Places(s: State): multiset<int> {
    multiset(s.free) + (if s.running == NULL then multiset{} else multiset{s.running})
    + multiset(s.ready) + multiset(s.waiting) + multiset(s.zombie)
  }

  ghost predicate Once(places: multiset<int>, n: nat) {
    forall b :: places[b] == if 0 <= b < n then 1 else 0
  }

  /** Each block is in exactly one place. */
  ghost predicate Partition(s: State) {
    Once(Places(s), |s.procs|)
  }

  ghost predicate Live(s: State, b: int) {
    0 <= b < |s.procs| && b !in s.free
  }

  ghost predicate Statuses(s: State) {
    && (s.running != NULL ==> s.Me().status in {Running, Ready})
    && (forall b :: b in s.ready ==> s.P(b).status == Ready)
    && (forall b :: b in s.waiting ==> s.P(b).status == Waiting)
    && (forall b :: b in s.zombie ==> s.P(b).status == Zombie)
    && (forall b :: b in s.free ==> s.P(b).status in {Created, Zombie})
  }

  ghost predicate Sorted(timers: seq<Timer>) {
    forall i, j :: 0 <= i < j < |timers| ==> timers[i].wake <= timers[j].wake
  }

  /** The timer t stands behind k timers that are due no later, and ahead of those that are due later. */
  ghost predicate InsertedAt(before: seq<Timer>, after: seq<Timer>, t: Timer, k: nat) {
    && k <= |before| && after == before[..k] + [t] + before[k..]
    && (forall i :: 0 <= i < k ==> before[i].wake <= t.wake)
    && (k < |before| ==> t.wake < before[k].wake)
    && (Sorted(before) ==> forall i :: k <= i < |before| ==> t.wake < before[i].wake)
  }

  ghost predicate Inserted(before: seq<Timer>, after: seq<Timer>, t: Timer) {
    exists k: nat :: InsertedAt(before, after, t, k)
  }

  ghost predicate HasTimer(timers: seq<Timer>, b: int) {
    exists i :: 0 <= i < |timers| && timers[i].pcb == b
  }

  ghost predicate OnePerProcess(timers: seq<Timer>) {
    forall i, j :: 0 <= i < j < |timers| ==> timers[i].pcb != timers[j].pcb
  }

  /** Timers and processes blocked in sleep correspond one to one. */
  ghost predicate Sleepers(s: State) {
    && Sorted(s.timers)
    && OnePerProcess(s.timers)
    && (forall i :: 0 <= i < |s.timers| ==> s.timers[i].pcb in s.waiting)
    && (forall b :: b in s.waiting ==>
          s.P(b).callNum == if HasTimer(s.timers, b) then DSOS_CALL_SLEEP else DSOS_CALL_WAIT)
    && (forall b :: Live(s, b) ==> s.P(b).timer == NULL)
  }

  /** The dead have no children. */
  ghost predicate Childless(s: State) {
    forall b :: b in s.free || b in s.zombie ==> s.P(b).children == []
  }

  ghost predicate ChildrenOk(s: State) {
    forall h, c :: c in s.P(h).children ==> ChildOk(s, h, c)
  }

  ghost predicate NoSharing(s: State) {
    && (forall h :: Distinct(s.P(h).children))
    && (forall h, k, c :: c in s.P(h).children && c in s.P(k).children ==> h == k)
  }

  ghost predicate Covered(s: State) {
    forall b :: Live(s, b) && b != s.init ==> HasHolder(s, b)
  }

  ghost predicate Rooted(s: State) {
    && Live(s, s.init) && s.init !in s.zombie
    && (forall b :: Live(s, b) ==> NULL <= s.P(b).parent < |s.procs| && (s.P(b).parent == NULL <==> b == s.init))
  }

  /** Every live process but init is a child of exactly one process; only init adopts. */
  ghost predicate Family(s: State) {
    Childless(s) && ChildrenOk(s) && NoSharing(s) && Covered(s) && Rooted(s)
  }

  ghost predicate HasHolder(s: State, b: int) {
    exists h :: b in s.P(h).children
  }

  ghost predicate ChildOk(s: State, h: int, c: int) {
    Live(s, c) && c != s.init && c != h && (s.P(c).parent == h || h == s.init)
  }

  ghost predicate Pids(s: State) {
    && (forall b :: Live(s, b) ==> s.P(b).pid < s.lastPid)
    && (forall b, c :: Live(s, b) && Live(s, c) && s.P(b).pid == s.P(c).pid ==> b == c)
  }

  ghost predicate Inv(s: State) {
    Partition(s) && Statuses(s) && Sleepers(s) && Family(s) && Pids(s)
  }

  // ---------- reading the partition ----------

  ghost predicate InOnePlace(s: State, b: int) {
    && (b in s.ready ==> Live(s, b) && b != s.running && b !in s.waiting && b !in s.zombie)
    && (b in s.waiting ==> Live(s, b) && b != s.running && b !in s.ready && b !in s.zombie)
    && (b in s.zombie ==> Live(s, b) && b != s.running && b !in s.ready && b !in s.waiting)
    && (b in s.free ==> 0 <= b < |s.procs| && b != s.running)
    && (b == s.running && b != NULL ==> Live(s, b))
    && (Live(s, b) ==> b == s.running || b in s.ready || b in s.waiting || b in s.zombie)
  }

  lemma Placed(s: State)
    requires Partition(s)
    ensures forall b :: InOnePlace(s, b)
    ensures Distinct(s.free) && Distinct(s.ready) && Distinct(s.waiting) && Distinct(s.zombie)
  {
    forall b ensures InOnePlace(s, b) {
      assert Places(s)[b] == if 0 <= b < |s.procs| then 1 else 0;
    }
    forall b
      ensures multiset(s.free)[b] <= 1 && multiset(s.ready)[b] <= 1
      ensures multiset(s.waiting)[b] <= 1 && multiset(s.zombie)[b] <= 1
    {
      assert Places(s)[b] <= 1;
    }
    OccursOnce(s.free);
    OccursOnce(s.ready);
    OccursOnce(s.waiting);
    OccursOnce(s.zombie);
  }

  ghost predicate AtMostOnce(m: multiset<int>) {
    forall b :: m[b] <= 1
  }

  lemma OccursOnce(s: seq<int>)
    requires AtMostOnce(multiset(s))
    ensures Distinct(s)
  {
    forall i, j | 0 <= i < j < |s| ensures s[i] != s[j] {
      var x: int, y: int := s[i], s[j];
      assert s == s[..j] + s[j..] && x in s[..j] && y in s[j..];
      assert multiset(s) == multiset(s[..j]) + multiset(s[j..]);
      assert multiset(s)[x] <= 1;
    }
  }

  lemma HeadTail(s: seq<int>)
    requires s != []
    ensures multiset(s) == multiset{s[0]} + multiset(s[1..])
  {
    assert s == [s[0]] + s[1..];
  }

  // ---------- no block is lost or duplicated ----------

  ghost predicate SamePlaces(s: State, t: State) {
    Places(t) == Places(s) && |t.procs| == |s.procs|
  }

  lemma WakeOnePlaces(s: State, k: nat)
    requires Elapsed(s) && k <= |s.ready| && s.timers[0].pcb in s.waiting
    ensures SamePlaces(s, WakeOne(s, k))
  {
    var b, t := s.timers[0].pcb, WakeOne(s, k);
    InsertMultiset(s.ready, k, b);
    assert multiset(t.waiting) == multiset(s.waiting) - multiset{b} && b in multiset(s.waiting);
    assert t.free == s.free && t.running == s.running && t.zombie == s.zombie;
    hide InsertAt, Remove, WakeOne, Elapsed;
    var rest := multiset(s.free) + (if s.running == NULL then multiset{} else multiset{s.running});
    WakeMoves(rest, multiset(s.ready), multiset(s.waiting), multiset(s.zombie), b);
  }

  lemma WakeMoves(rest: multiset<int>, ready: multiset<int>, waiting: multiset<int>, zombie: multiset<int>, b: int)
    requires b in waiting
    ensures rest + (ready + multiset{b}) + (waiting - multiset{b}) + zombie == rest + ready + waiting + zombie
  {
  }

  lemma RotatePlaces(s: State)
    requires s.running != NULL && Partition(s)
    ensures SamePlaces(s, Rotate(s))
  {
    if s.ready != [] {
      HeadTail(s.ready);
      Placed(s);
      assert InOnePlace(s, s.ready[0]);
    }
  }

  lemma BlockNextPlaces(s: State)
    requires s.running != NULL && Partition(s)
    ensures SamePlaces(s, Next(Block(s)))
  {
    var t := Next(Block(s));
    if s.ready != [] {
      HeadTail(s.ready);
      Placed(s);
      assert InOnePlace(s, s.ready[0]);
    }
    assert t.free == s.free && t.zombie == s.zombie && |t.procs| == |s.procs|;
    assert multiset(t.waiting) == multiset(s.waiting) + multiset{s.running};
    assert t.ready == if s.ready == [] then [] else s.ready[1..];
    assert if s.ready == [] then t.running == NULL else t.running == s.ready[0] != NULL;
    hide Next, Block, Partition;
    NextMoves(multiset(s.free), if s.ready == [] then multiset{} else multiset{s.ready[0]}, multiset(t.ready),
              multiset(s.waiting), multiset(s.zombie), s.running);
  }

  lemma NextMoves(free: multiset<int>, next: multiset<int>, ready: multiset<int>, waiting: multiset<int>,
                  zombie: multiset<int>, r: int)
    ensures free + next + ready + (waiting + multiset{r}) + zombie
            == free + multiset{r} + (next + ready) + waiting + zombie
  {
  }

  lemma SpawnPlaces(s: State)
    requires CanSpawn(s)
    ensures SamePlaces(s, Spawn(s))
  {
    HeadTail(s.free);
  }

  lemma ReapPlaces(s: State, k: nat)
    requires k < |s.Me().children| && s.Me().children[k] in s.zombie
    ensures SamePlaces(s, Reap(s, k))
  {
    assert s.Me().children[k] in multiset(s.zombie);
  }

  /** The parent leaves the waiting list for the processor, the child the zombie list for the pool. */
  lemma HandOverMoves(free: multiset<int>, ready: multiset<int>, waiting: multiset<int>,
                      zombie: multiset<int>, parent: int, child: int)
    requires parent in waiting && child in zombie
    ensures multiset{child} + free + multiset{parent} + ready + (waiting - multiset{parent})
            + (zombie - multiset{child})
            == free + ready + waiting + zombie
  {
  }

  lemma HandOverPlaces(s: State)
    requires HasChild(s, s.Me().parent, s.Me().pid)
    requires s.running != NULL && s.Me().parent != NULL
    requires s.Me().parent in s.waiting && s.running in s.zombie
    ensures Places(HandOver(s)) == multiset(s.free) + multiset(s.ready) + multiset(s.waiting) + multiset(s.zombie)
    ensures |HandOver(s).procs| == |s.procs|
  {
    HandOverMoves(multiset(s.free), multiset(s.ready), multiset(s.waiting), multiset(s.zombie),
                  s.Me().parent, s.running);
  }

  lemma DispatchPlaces(s: State)
    requires s.ready != [] && s.ready[0] != NULL
    ensures Places(Dispatch(s)) == multiset(s.free) + multiset(s.ready) + multiset(s.waiting) + multiset(s.zombie)
    ensures |Dispatch(s).procs| == |s.procs|
  {
    HeadTail(s.ready);
  }

  lemma DiePlaces(s: State)
    requires s.running != NULL
    ensures var d := Die(Adopt(s));
            && multiset(d.free) + multiset(d.ready) + multiset(d.waiting) + multiset(d.zombie) == Places(s)
            && |d.procs| == |s.procs|
  {
  }

  lemma ExitPlaces(s: State)
    requires s.running != NULL && Partition(s) && CanExit(s)
    requires ParentWaits(Die(Adopt(s))) ==> Die(Adopt(s)).Me().parent in s.waiting
    ensures SamePlaces(s, Exit(s))
  {
    var d := Die(Adopt(s));
    DiePlaces(s);
    if ParentWaits(d) {
      HandOverPlaces(d);
    } else {
      Placed(s);
      assert InOnePlace(s, s.ready[0]);
      DispatchPlaces(d);
    }
  }

  // ---------- what a status says, even read through a stale pointer ----------

  lemma WaitingIsListed(s: State, b: int)
    requires Partition(s) && Statuses(s) && s.P(b).status == Waiting
    ensures b in s.waiting
  {
    Placed(s);
    assert InOnePlace(s, b);
  }

  lemma ZombieIsListed(s: State, b: int)
    requires Partition(s) && Statuses(s) && Live(s, b) && s.P(b).status == Zombie
    ensures b in s.zombie
  {
    Placed(s);
    assert InOnePlace(s, b);
  }
}
