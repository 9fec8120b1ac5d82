/** `Array.prototype.sort` with a comparator of the form
    `(a, b) => key(b) - key(a)`, as the pages use it: an in-place sort of
    the array, largest key first. */
module Sorting {
  /** Largest key first. */
  predicate Desc<T>(s: seq<T>, key: T -> int)
  {
    forall p, q :: 0 <= p < q < |s| ==> key(s[p]) >= key(s[q])
  }

  /** Insertion sort: each element is swapped down past the smaller keys
      before it. Equal keys are never swapped, so their order is kept. */
  method SortDesc<T>(a: array<T>, key: T -> int)
    modifies a
    ensures Desc(a[..], key)
    ensures multiset(a[..]) == multiset(old(a[..]))
  {
    for i := 0 to a.Length
      invariant Desc(a[..i], key)
      invariant multiset(a[..]) == multiset(old(a[..]))
    {
      InsertDown(a, i, key);
    }
    assert a[..a.Length] == a[..];
  }

  /** One pass of the insertion sort: a[i] moves down into the sorted
      prefix a[..i]. */
  method InsertDown<T>(a: array<T>, i: nat, key: T -> int)
    requires i < a.Length && Desc(a[..i], key)
    modifies a
    ensures Desc(a[..i + 1], key)
    ensures multiset(a[..]) == multiset(old(a[..]))
  {
    var j := i;
    while j > 0 && key(a[j - 1]) < key(a[j])
      invariant 0 <= j <= i
      invariant multiset(a[..]) == multiset(old(a[..]))
      invariant Desc(a[..j], key) && Desc(a[j..i + 1], key)
      invariant 0 < j < i ==> key(a[j - 1]) >= key(a[j + 1])
    {
      ghost var s := a[..];
      a[j - 1], a[j] := a[j], a[j - 1];
      assert a[..] == s[j - 1 := s[j]][j := s[j - 1]];
      SwapStep(s, a[..], j, i, key);
      SwapMultiset(s, j);
      j := j - 1;
    }
    Joined(a[..], j, i, key);
  }

  /** Swapping the moving element with the smaller one before it keeps both
      sorted runs sorted. */
  lemma SwapStep<T>(s: seq<T>, t: seq<T>, j: nat, i: nat, key: T -> int)
    requires 0 < j <= i < |s| && t == s[j - 1 := s[j]][j := s[j - 1]]
    requires Desc(s[..j], key) && Desc(s[j..i + 1], key)
    requires j < i ==> key(s[j - 1]) >= key(s[j + 1])
    requires key(s[j - 1]) < key(s[j])
    ensures Desc(t[..j - 1], key) && Desc(t[j - 1..i + 1], key)
    ensures 0 < j - 1 < i ==> key(t[j - 2]) >= key(t[j])
  {
    assert t[..j - 1] == s[..j - 1];
    forall p, q | j - 1 <= p < q <= i ensures key(t[p]) >= key(t[q]) {
      if p == j - 1 {
        assert s[j..i + 1][0] == s[j];
        if q > j { assert s[j..i + 1][q - j] == s[q]; }
      } else {
        assert s[j..i + 1][p - j] == s[p] && s[j..i + 1][q - j] == s[q];
        if p == j && q > j + 1 { assert s[j..i + 1][1] == s[j + 1]; }
      }
    }
    if 0 < j - 1 < i {
      assert t[j - 2] == s[j - 2] && t[j] == s[j - 1];
      assert key(s[..j][j - 2]) >= key(s[..j][j - 1]);
    }
  }

  lemma SwapMultiset<T>(s: seq<T>, j: nat)
    requires 0 < j < |s|
    ensures multiset(s[j - 1 := s[j]][j := s[j - 1]]) == multiset(s)
  {
    var t := s[j - 1 := s[j]][j := s[j - 1]];
    assert s == s[..j - 1] + [s[j - 1], s[j]] + s[j + 1..];
    assert t == s[..j - 1] + [s[j], s[j - 1]] + s[j + 1..];
  }

  /** Two sorted runs joined where the first ends above the second's start
      make one sorted run. */
  lemma Joined<T>(s: seq<T>, j: nat, i: nat, key: T -> int)
    requires j <= i < |s| && Desc(s[..j], key) && Desc(s[j..i + 1], key)
    requires 0 < j ==> key(s[j - 1]) >= key(s[j])
    ensures Desc(s[..i + 1], key)
  {
    forall p, q | 0 <= p < q <= i ensures key(s[p]) >= key(s[q]) {
      if q < j {
        assert s[..j][p] == s[p] && s[..j][q] == s[q];
      } else if j <= p {
        assert s[j..i + 1][p - j] == s[p] && s[j..i + 1][q - j] == s[q];
      } else {
        assert s[..j][p] == s[p];
        if p < j - 1 { assert s[..j][j - 1] == s[j - 1]; }
        assert s[j..i + 1][0] == s[j];
        if q > j { assert s[j..i + 1][q - j] == s[q]; }
      }
    }
  }
}
