/**
  * The commit rule's arithmetic: which index has a majority of `matchIndex` reached?
  */
module MajorityIndex {

  /** The positions whose value is at least v. */
  function Reached(m: seq<int>, v: int): set<nat> {
    set i: nat | i < |m| && m[i] >= v
  }

  /** v occurs in m and a strict majority of the positions reaches it. */
  predicate MajorityReaches(m: seq<int>, v: int) {
    v in m && |Reached(m, v)| >= |m| / 2 + 1
  }

  ghost predicate IsMajorityMatch(m: seq<int>, v: int) {
    && MajorityReaches(m, v)
    && forall w :: w > v ==> |Reached(m, w)| < |m| / 2 + 1
  }

  /** The largest value a strict majority reaches. */
  ghost function MajorityMatch(m: seq<int>): (v: int)
    requires |m| > 0
    ensures IsMajorityMatch(m, v)
  {
    MajorityMatchExists(m);
    var v :| IsMajorityMatch(m, v);
    v
  }

  lemma MajorityMatchUnique(m: seq<int>, v: int, w: int)
    requires IsMajorityMatch(m, v) && IsMajorityMatch(m, w)
    ensures v == w
  {
  }

  lemma SubsetSize<T>(a: set<T>, b: set<T>)
    requires a <= b
    ensures |a| <= |b|
  {
    assert b == a + (b - a);
  }

  /** The numbers below n. */
  function Range(n: nat): (r: set<nat>)
    ensures |r| == n
    ensures forall i: nat :: i in r <==> i < n
  {
    if n == 0 then {} else Range(n - 1) + {n - 1}
  }

  lemma MajorityMatchExists(m: seq<int>)
    requires |m| > 0
    ensures exists v :: IsMajorityMatch(m, v)
  {
    var low := LeastOf(m);
    assert Reached(m, low) == Range(|m|);
    var v := Climb(m, low, m);
  }

  lemma LeastOf(m: seq<int>) returns (low: int)
    requires |m| > 0
    ensures low in m && forall i :: 0 <= i < |m| ==> low <= m[i]
  {
    low := m[0];
    for i := 1 to |m|
      invariant low in m && forall j :: 0 <= j < i ==> low <= m[j]
    {
      if m[i] < low { low := m[i]; }
    }
  }

  /** Starting from a majority value, move to the largest one among `rest`. */
  lemma Climb(m: seq<int>, low: int, rest: seq<int>) returns (v: int)
    requires |m| > 0 && MajorityReaches(m, low)
    requires forall w :: MajorityReaches(m, w) && w > low ==> w in rest
    ensures IsMajorityMatch(m, v)
    decreases rest
  {
    if rest == [] {
      v := low;
      forall w | w > v ensures |Reached(m, w)| < |m| / 2 + 1 {
        if |Reached(m, w)| >= |m| / 2 + 1 {
          var top := RoundUp(m, w);
          assert MajorityReaches(m, top);
        }
      }
    } else if rest[0] > low && MajorityReaches(m, rest[0]) {
      v := Climb(m, rest[0], rest[1..]);
    } else {
      v := Climb(m, low, rest[1..]);
    }
  }

  /** A reached bound can be rounded up to a value that occurs and is reached equally often. */
  lemma RoundUp(m: seq<int>, w: int) returns (top: int)
    requires |Reached(m, w)| > 0
    ensures top in m && top >= w && Reached(m, top) == Reached(m, w)
  {
    var first :| first in Reached(m, w);
    top := m[first];
    for i := 0 to |m|
      invariant top in m && top >= w && forall j :: 0 <= j < i && m[j] >= w ==> top <= m[j]
    {
      if w <= m[i] < top { top := m[i]; }
    }
  }
}
