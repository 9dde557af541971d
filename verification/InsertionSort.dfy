/** The leader's sort, and why its middle element is the commit candidate. */
module InsertionSort {
  import opened MajorityIndex

  ghost predicate Sorted(s: seq<int>) {
    forall i, j :: 0 <= i < j < |s| ==> s[i] <= s[j]
  }

  ghost predicate SortedBut(s: seq<int>, n: nat, gap: nat) {
    n <= |s| && forall i, j :: 0 <= i < j < n && j != gap ==> s[i] <= s[j]
  }

  /** Everything before n is in order, except that the element at `gap` may be too small. */
  ghost predicate Sinking(s: seq<int>, n: nat, gap: nat) {
    SortedBut(s, n, gap) && gap < n && forall k :: gap < k < n ==> s[gap] <= s[k]
  }

  function Swapped(s: seq<int>, j: nat): seq<int>
    requires 0 < j < |s|
  {
    s[j := s[j - 1]][j - 1 := s[j]]
  }

  ghost predicate Permutes(s: seq<int>, t: seq<int>) {
    multiset(s) == multiset(t)
  }

  lemma SwapKeepsElements(s: seq<int>, j: nat, t: seq<int>)
    requires 0 < j < |s| && Permutes(s, t)
    ensures Permutes(Swapped(s, j), t)
  {
    assert s == s[..j - 1] + [s[j - 1], s[j]] + s[j + 1..];
    assert Swapped(s, j) == s[..j - 1] + [s[j], s[j - 1]] + s[j + 1..];
  }

  lemma SwapSinks(s: seq<int>, n: nat, j: nat)
    requires Sinking(s, n, j) && j > 0 && s[j] < s[j - 1]
    ensures Sinking(Swapped(s, j), n, j - 1)
  {
  }

  lemma SunkIsSorted(s: seq<int>, n: nat, j: nat)
    requires Sinking(s, n, j) && (j == 0 || s[j - 1] <= s[j])
    ensures SortedBut(s, n, n)
    ensures n < |s| ==> Sinking(s, n + 1, n)
    ensures n == |s| ==> Sorted(s)
  {
  }

  lemma FirstSinks(s: seq<int>)
    ensures if |s| > 1 then Sinking(s, 2, 1) else Sorted(s)
    ensures Permutes(s, s)
  {
  }

  method Sort(a: array<int>)
    modifies a
    ensures Sorted(a[..]) && Permutes(a[..], old(a[..]))
  {
    hide Sinking; hide SortedBut; hide Sorted; hide Permutes;
    ghost var was := a[..];
    FirstSinks(was);
    var i := 1;
    while i < a.Length
      invariant 1 <= i && (i <= a.Length || a.Length == 0)
      invariant i < a.Length ==> Sinking(a[..], i + 1, i)
      invariant i >= a.Length ==> Sorted(a[..])
      invariant Permutes(a[..], was)
    {
      var j := i;
      while j > 0 && a[j] < a[j - 1]
        invariant 0 <= j <= i < a.Length
        invariant Sinking(a[..], i + 1, j)
        invariant Permutes(a[..], was)
      {
        ghost var before := a[..];
        SwapKeepsElements(before, j, was);
        SwapSinks(before, i + 1, j);
        a[j], a[j - 1] := a[j - 1], a[j];
        assert a[..] == Swapped(before, j);
        j := j - 1;
      }
      SunkIsSorted(a[..], i + 1, j);
      i := i + 1;
    }
  }

  // ----- Counting does not depend on the order -----

  function CountReaching(s: seq<int>, v: int): nat {
    if s == [] then 0 else CountReaching(s[..|s| - 1], v) + if s[|s| - 1] >= v then 1 else 0
  }

  lemma {:induction false} CountWithout(s: seq<int>, v: int, i: nat)
    requires i < |s|
    ensures CountReaching(s, v) == CountReaching(s[..i] + s[i + 1..], v) + if s[i] >= v then 1 else 0
    decreases |s|
  {
    var n := |s| - 1;
    if i < n {
      CountWithout(s[..n], v, i);
      assert (s[..i] + s[i + 1..])[..n - 1] == s[..n][..i] + s[..n][i + 1..];
    } else {
      assert s[..i] + s[i + 1..] == s[..n];
    }
  }

  lemma {:induction false} SameElementsSameCount(a: seq<int>, b: seq<int>, v: int)
    requires multiset(a) == multiset(b)
    ensures CountReaching(a, v) == CountReaching(b, v)
    decreases |a|
  {
    assert |a| == |multiset(a)| == |multiset(b)| == |b|;
    if a != [] {
      var n := |a| - 1;
      assert a == a[..n] + [a[n]];
      assert a[n] in multiset(b);
      var i :| 0 <= i < |b| && b[i] == a[n];
      assert b == b[..i] + [b[i]] + b[i + 1..];
      assert multiset(b[..i] + b[i + 1..]) == multiset(b) - multiset{a[n]};
      CountWithout(b, v, i);
      SameElementsSameCount(a[..n], b[..i] + b[i + 1..], v);
    }
  }

  lemma {:induction false} CountIsReached(s: seq<int>, v: int)
    ensures |Reached(s, v)| == CountReaching(s, v)
  {
    if s == [] {
      assert Reached(s, v) == {};
    } else {
      var n := |s| - 1;
      CountIsReached(s[..n], v);
      assert Reached(s, v) == Reached(s[..n], v) + if s[n] >= v then {n} else {};
    }
  }

  /** In a sorted sequence exactly the positions from the first reaching one on reach v. */
  lemma SortedReaches(s: seq<int>, k: nat)
    requires Sorted(s) && k < |s|
    ensures |Reached(s, s[k])| >= |s| - k
    ensures forall w :: w > s[k] ==> |Reached(s, w)| <= |s| - k - 1
  {
    SubsetSize(Range(|s|) - Range(k), Reached(s, s[k]));
    RangeDifference(k, |s|);
    forall w | w > s[k] ensures |Reached(s, w)| <= |s| - k - 1 {
      SubsetSize(Reached(s, w), Range(|s|) - Range(k + 1));
      RangeDifference(k + 1, |s|);
    }
  }

  lemma RangeDifference(a: nat, b: nat)
    requires a <= b
    ensures |Range(b) - Range(a)| == b - a
  {
    assert Range(b) == Range(a) + (Range(b) - Range(a));
  }

  /** The element the leader picks is the largest value that a strict majority reaches. */
  lemma MiddleIsMajorityMatch(m: seq<int>, s: seq<int>)
    requires |m| > 0 && Sorted(s) && multiset(s) == multiset(m)
    ensures |s| == |m| && IsMajorityMatch(m, s[|m| - (|m| / 2 + 1)])
  {
    assert |s| == |multiset(s)| == |m|;
    var k := |m| - (|m| / 2 + 1);
    SortedReaches(s, k);
    forall w ensures |Reached(m, w)| == |Reached(s, w)| {
      CountIsReached(m, w);
      CountIsReached(s, w);
      SameElementsSameCount(m, s, w);
    }
    assert s[k] in multiset(m);
  }
}
