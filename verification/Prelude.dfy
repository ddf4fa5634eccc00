/** Small general notions shared by the other modules. */
module Prelude {

  datatype Option<+T> = None | Some(value: T)

  datatype Result<+T, +E> = Ok(value: T) | Err(error: E)

  /** `order` enumerates the set, each element once. */
  ghost predicate Lists<T(!new)>(order: seq<T>, s: set<T>) {
    && (forall i, j :: 0 <= i < j < |order| ==> order[i] != order[j])
    && (forall x :: x in order <==> x in s)
  }

  ghost predicate Distinct<T(!new)>(s: seq<T>) {
    forall i, j :: 0 <= i < j < |s| ==> s[i] != s[j]
  }

  function Without<T>(s: seq<T>, j: nat): seq<T>
    requires j < |s|
  {
    s[..j] + s[j + 1..]
  }

  lemma WithoutOne<T>(s: seq<T>, j: nat)
    requires j < |s|
    ensures multiset(s) == multiset(Without(s, j)) + multiset{s[j]}
    ensures |Without(s, j)| == |s| - 1
  {
    assert s == s[..j] + [s[j]] + s[j + 1..];
  }

  lemma WithoutDistinct<T(!new)>(s: seq<T>, j: nat)
    requires Distinct(s) && j < |s|
    ensures Distinct(Without(s, j))
    ensures forall x :: x in Without(s, j) <==> x in s && x != s[j]
  {
    var r := Without(s, j);
    assert forall k :: 0 <= k < |r| ==> r[k] == s[if k < j then k else k + 1];
    forall x | x in s && x != s[j]
      ensures x in r
    {
      var k :| 0 <= k < |s| && s[k] == x;
      assert r[if k < j then k else k - 1] == x;
    }
  }

  /** Two duplicate-free sequences of the same elements are permutations. */
  lemma {:induction false} SameElements<T(!new)>(a: seq<T>, b: seq<T>)
    requires Distinct(a) && Distinct(b)
    requires forall x :: x in a <==> x in b
    ensures multiset(a) == multiset(b)
    decreases |a|
  {
    if a == [] {
      assert forall x :: x in multiset(b) ==> x in b && x in a;
    } else {
      var n := |a| - 1;
      assert a[n] in b;
      var j :| 0 <= j < |b| && b[j] == a[n];
      WithoutDistinct(a, n);
      WithoutDistinct(b, j);
      WithoutOne(a, n);
      WithoutOne(b, j);
      SameElements(Without(a, n), Without(b, j));
    }
  }
}
