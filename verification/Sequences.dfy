/** Insertion into and removal from a sequence: the abstract values of the list operations. */
module Sequences {

  ghost predicate Distinct<T>(s: seq<T>) {
    forall i, j :: 0 <= i < j < |s| ==> s[i] != s[j]
  }

  function InsertAt<T>(s: seq<T>, k: nat, x: T): (r: seq<T>)
    requires k <= |s|
    ensures |r| == |s| + 1 && r[k] == x
    ensures forall i :: 0 <= i < k ==> r[i] == s[i]
    ensures forall i :: k < i < |r| ==> r[i] == s[i - 1]
  {
    s[..k] + [x] + s[k..]
  }

  lemma InsertMultiset<T>(s: seq<T>, k: nat, x: T)
    requires k <= |s|
    ensures multiset(InsertAt(s, k, x)) == multiset(s) + multiset{x}
  {
    assert s == s[..k] + s[k..];
  }

  function RemoveAt<T>(s: seq<T>, k: nat): (r: seq<T>)
    requires k < |s|
    ensures |r| == |s| - 1
    ensures forall i :: 0 <= i < k ==> r[i] == s[i]
    ensures forall i :: k <= i < |r| ==> r[i] == s[i + 1]
  {
    s[..k] + s[k + 1..]
  }

  lemma RemoveMultiset<T>(s: seq<T>, k: nat)
    requires k < |s|
    ensures multiset(RemoveAt(s, k)) == multiset(s) - multiset{s[k]}
  {
    assert s == s[..k] + [s[k]] + s[k + 1..];
  }

  lemma RemoveInserted<T>(s: seq<T>, k: nat, x: T)
    requires k <= |s|
    ensures RemoveAt(InsertAt(s, k, x), k) == s
  {
  }

  /** The first position of x, or the length when x is absent. */
  function IndexOf(s: seq<int>, x: int): (r: nat)
    ensures r <= |s| && x !in s[..r]
    ensures x in s <==> r < |s|
    ensures r < |s| ==> s[r] == x
  {
    if s == [] then 0
    else if s[0] == x then 0
    else
      var r := IndexOf(s[1..], x);
      assert s == [s[0]] + s[1..] && s[..r + 1] == [s[0]] + s[1..][..r];
      r + 1
  }

  lemma IndexIs(s: seq<int>, k: nat, x: int)
    requires k < |s| && s[k] == x && forall i :: 0 <= i < k ==> s[i] != x
    ensures IndexOf(s, x) == k
  {
    var r := IndexOf(s, x);
    assert forall i :: 0 <= i < r ==> s[..r][i] == s[i];
  }

  lemma IndexAppended(s: seq<int>, t: seq<int>, x: int)
    requires x in s
    ensures IndexOf(s + t, x) == IndexOf(s, x)
  {
    var k := IndexOf(s, x);
    assert forall i :: 0 <= i < k ==> s[..k][i] == s[i];
    IndexIs(s + t, k, x);
  }

  function Remove(s: seq<int>, x: int): (r: seq<int>)
    ensures multiset(r) == multiset(s) - multiset{x}
    ensures x in s ==> |r| == |s| - 1
  {
    if x in s then
      RemoveMultiset(s, IndexOf(s, x));
      RemoveAt(s, IndexOf(s, x))
    else s
  }

  lemma InsertMembers<T>(s: seq<T>, k: nat, x: T)
    requires k <= |s|
    ensures forall y :: y in InsertAt(s, k, x) <==> y in s || y == x
  {
    var r := InsertAt(s, k, x);
    forall y | y in s ensures y in r {
      var i :| 0 <= i < |s| && s[i] == y;
      assert r[if i < k then i else i + 1] == y;
    }
    assert r[k] in r;
  }

  lemma RemoveMembers(s: seq<int>, x: int)
    requires Distinct(s)
    ensures forall y :: y in Remove(s, x) <==> y in s && y != x
  {
    if x in s {
      var k, r := IndexOf(s, x), Remove(s, x);
      forall y | y in s && y != x ensures y in r {
        var i :| 0 <= i < |s| && s[i] == y;
        assert r[if i < k then i else i - 1] == y;
      }
    }
  }

  lemma RemoveDistinct(s: seq<int>, x: int)
    requires Distinct(s)
    ensures Distinct(Remove(s, x))
  {
  }

  lemma InsertBetween<T>(front: seq<T>, back: seq<T>, x: T)
    ensures InsertAt(front + back, |front|, x) == front + [x] + back
  {
    assert (front + back)[..|front|] == front && (front + back)[|front|..] == back;
  }

  lemma Regroup<T>(front: seq<T>, x: T, middle: seq<T>, back: seq<T>)
    ensures front + [x] + middle + back == front + ([x] + middle) + back
  {
  }

  lemma RemoveAppended(s: seq<int>, x: int)
    requires x !in s
    ensures Remove(s + [x], x) == s
  {
    assert (s + [x])[|s|] == x;
    assert forall i :: 0 <= i < |s| ==> (s + [x])[i] == s[i];
    assert IndexOf(s + [x], x) == |s|;
  }

  lemma DistinctConcat(a: seq<int>, b: seq<int>)
    requires Distinct(a) && Distinct(b) && forall x :: x in a ==> x !in b
    ensures Distinct(a + b)
  {
    forall i, j | 0 <= i < j < |a + b| ensures (a + b)[i] != (a + b)[j] {
      if i < |a| <= j {
        assert (a + b)[i] in a && (a + b)[j] in b;
      }
    }
  }

  lemma AMember(s: seq<int>) returns (x: int)
    requires s != []
    ensures x in s
  {
    x := s[0];
  }
}
