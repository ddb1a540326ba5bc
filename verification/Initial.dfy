/** The initial state meets the invariant. */
module Initial {
  import opened ProcessModel
  import opened ProcessInvariant
  import opened Wakeups

  lemma BootPlaces(n: nat)
    requires n > 0
    ensures Partition(Boot(n))
  {
    var s := Boot(n);
    assert forall i :: 0 <= i < |s.free| ==> s.free[i] == i + 1;
    forall b ensures Places(s)[b] == if 0 <= b < n then 1 else 0 {
      FreeOnce(n - 1, b);
    }
  }

  lemma {:induction false} FreeOnce(n: nat, b: int)
    ensures multiset(Upto(n))[b] == if 1 <= b <= n then 1 else 0
  {
    if n > 0 {
      FreeOnce(n - 1, b);
      assert Upto(n) == Upto(n - 1) + [n];
    }
  }

  lemma BootInv(n: nat)
    requires n > 0
    ensures Inv(Boot(n)) && NoLostWakeup(Boot(n))
  {
    BootPlaces(n);
    var s := Boot(n);
    assert forall b :: b != 0 ==> s.P(b) == UnusedProc;
    assert forall b :: Live(s, b) ==> b == 0 by {
      forall b | 0 < b < n ensures b in s.free { assert s.free[b - 1] == b; }
    }
  }
}
