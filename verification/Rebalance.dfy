/** The arithmetic of the shard controller's rebalancing. */
module Rebalance {
  import Sets

  // How many shards an assignment gives each group, what one move of a shard changes, when the
  // loop of Join can go on for ever, and why its result moves as few shards as possible.

  /** An entry for gid 0 stands for shards without a group. */
  const NO_GID: int := 0

  /** The shard lists of the groups. */
  type Table = map<int, seq<nat>>

  // ----- Counting -----

  /** How many shards `owner` gives to k. */
  function Count(owner: seq<int>, k: int): nat {
    if owner == [] then 0
    else Count(owner[..|owner| - 1], k) + if owner[|owner| - 1] == k then 1 else 0
  }

  /** How many shards `owner` gives to groups in ks. */
  function CountIn(owner: seq<int>, ks: set<int>): nat {
    if owner == [] then 0
    else CountIn(owner[..|owner| - 1], ks) + if owner[|owner| - 1] in ks then 1 else 0
  }

  /** How many shards change their owner. */
  function Changes(a: seq<int>, b: seq<int>): nat
    requires |a| == |b|
  {
    if a == [] then 0
    else Changes(a[..|a| - 1], b[..|b| - 1]) + if a[|a| - 1] != b[|b| - 1] then 1 else 0
  }

  lemma {:induction false} CountUpdate(owner: seq<int>, x: nat, to: int, k: int)
    requires x < |owner|
    ensures Count(owner[x := to], k) + (if owner[x] == k then 1 else 0) == Count(owner, k) + (if to == k then 1 else 0)
    decreases |owner|
  {
    var n := |owner| - 1;
    assert owner[x := to][..n] == if x < n then owner[..n][x := to] else owner[..n];
    if x < n { CountUpdate(owner[..n], x, to, k); }
  }

  lemma {:induction false} CountOne(owner: seq<int>, ks: set<int>, k: int)
    requires k in ks
    ensures CountIn(owner, ks) == CountIn(owner, ks - {k}) + Count(owner, k)
  {
    if owner != [] { CountOne(owner[..|owner| - 1], ks, k); }
  }

  lemma {:induction false} CountNone(owner: seq<int>)
    ensures CountIn(owner, {}) == 0
  {
    if owner != [] { CountNone(owner[..|owner| - 1]); }
  }

  lemma {:induction false} CountAll(owner: seq<int>, ks: set<int>)
    requires forall s :: 0 <= s < |owner| ==> owner[s] in ks
    ensures CountIn(owner, ks) == |owner|
  {
    if owner != [] { CountAll(owner[..|owner| - 1], ks); }
  }

  lemma {:induction false} CountAtLeast(owner: seq<int>, ks: set<int>, low: nat)
    requires forall k :: k in ks ==> Count(owner, k) >= low
    ensures CountIn(owner, ks) >= |ks| * low
    decreases |ks|
  {
    if ks == {} {
      CountNone(owner);
    } else {
      var k := Sets.Pick(ks);
      CountOne(owner, ks, k);
      CountAtLeast(owner, ks - {k}, low);
      assert |ks| == |ks - {k}| + 1;
      assert |ks| * low == |ks - {k}| * low + low;
    }
  }

  lemma {:induction false} CountAtMost(owner: seq<int>, ks: set<int>, high: nat)
    requires forall k :: k in ks ==> Count(owner, k) <= high
    ensures CountIn(owner, ks) <= |ks| * high
    decreases |ks|
  {
    if ks == {} {
      CountNone(owner);
    } else {
      var k := Sets.Pick(ks);
      CountOne(owner, ks, k);
      CountAtMost(owner, ks - {k}, high);
      assert |ks| == |ks - {k}| + 1;
      assert |ks| * high == |ks - {k}| * high + high;
    }
  }

  lemma {:induction false} CountSome(owner: seq<int>, k: int)
    ensures Count(owner, k) <= |owner|
  {
    if owner != [] { CountSome(owner[..|owner| - 1], k); }
  }

  lemma {:induction false} CountInSome(owner: seq<int>, ks: set<int>)
    ensures CountIn(owner, ks) <= |owner|
  {
    if owner != [] { CountInSome(owner[..|owner| - 1], ks); }
  }

  // ----- Balance -----

  ghost predicate Assigns(owner: seq<int>, ks: set<int>) {
    forall s :: 0 <= s < |owner| ==> owner[s] in ks
  }

  /** No group has two shards more than another. */
  ghost predicate Balanced(owner: seq<int>, ks: set<int>) {
    forall j, k :: j in ks && k in ks ==> Count(owner, j) <= Count(owner, k) + 1
  }

  /** A balanced assignment gives every group the quotient, or one more. */
  lemma BalancedShares(owner: seq<int>, ks: set<int>, k: int)
    requires Assigns(owner, ks) && Balanced(owner, ks) && k in ks
    ensures |owner| / |ks| <= Count(owner, k) <= |owner| / |ks| + 1
  {
    var share, n := Count(owner, k), |ks|;
    var rest := ks - {k};
    assert |rest| == n - 1;
    CountAll(owner, ks);
    CountOne(owner, ks, k);
    CountAtMost(owner, rest, share + 1);
    if share > 0 { CountAtLeast(owner, rest, share - 1); }
    hide Assigns; hide Balanced; hide Count; hide CountIn;
    QuotientBetween(|owner|, n, share);
  }

  lemma QuotientBetween(total: nat, n: nat, share: nat)
    requires n > 0 && share <= total && total - share <= (n - 1) * (share + 1)
    requires share > 0 ==> total - share >= (n - 1) * (share - 1)
    ensures total / n <= share <= total / n + 1
  {
    var q: int := total / n;
    assert n * q <= total < n * q + n;
    assert (n - 1) * (share + 1) + share == n * (share + 1) - 1;
    assert n * (q + 1) == n * q + n;
    assert (n - 1) * (share - 1) + share == n * (share - 1) + 1;
    MulGrows(n, share + 1, q);
    MulGrows(n, q + 1, share - 1);
  }

  lemma MulGrows(n: nat, a: int, b: int)
    ensures a <= b ==> n * a <= n * b
  {
  }

  // ----- The result of Join moves as few shards as possible -----

  predicate MovedAt(was: seq<int>, owner: seq<int>, s: int)
    requires |owner| == |was|
  {
    0 <= s < |owner| && was[s] != owner[s]
  }

  /**
    * How the loop's assignment relates to the one it started from: who receives never
    * gives, and a receiver never ends above a giver.
    */
  ghost predicate OneWay(was: seq<int>, owner: seq<int>)
    requires |owner| == |was|
  {
    forall s, t :: MovedAt(was, owner, s) && MovedAt(was, owner, t) ==>
      owner[s] != was[t] && Count(owner, owner[s]) <= Count(owner, was[t])
  }

  ghost predicate Rebalanced(was: seq<int>, owner: seq<int>, ks: set<int>) {
    |owner| == |was| && Assigns(owner, ks) && Balanced(owner, ks) && OneWay(was, owner)
  }

  /** An assignment that brings more shards into ks changes at least that many owners. */
  lemma {:induction false} ChangesAtLeast(a: seq<int>, b: seq<int>, ks: set<int>)
    requires |a| == |b|
    ensures CountIn(b, ks) - CountIn(a, ks) <= Changes(a, b)
    ensures CountIn(a, ks) - CountIn(b, ks) <= Changes(a, b)
  {
    if a != [] { ChangesAtLeast(a[..|a| - 1], b[..|b| - 1], ks); }
  }

  /** If every move leads into ks from outside, the gain of ks counts the moves. */
  lemma {:induction false} ChangesInto(a: seq<int>, b: seq<int>, ks: set<int>)
    requires |a| == |b|
    requires forall s :: MovedAt(a, b, s) ==> a[s] !in ks && b[s] in ks
    ensures Changes(a, b) == CountIn(b, ks) - CountIn(a, ks)
  {
    if a != [] {
      var n := |a| - 1;
      forall s | MovedAt(a[..n], b[..n], s) ensures a[..n][s] !in ks && b[..n][s] in ks {
        assert MovedAt(a, b, s);
      }
      ChangesInto(a[..n], b[..n], ks);
      assert a[n] != b[n] ==> MovedAt(a, b, n);
    }
  }

  lemma {:induction false} ChangesOutOf(a: seq<int>, b: seq<int>, ks: set<int>)
    requires |a| == |b|
    requires forall s :: MovedAt(a, b, s) ==> a[s] in ks && b[s] !in ks
    ensures Changes(a, b) == CountIn(a, ks) - CountIn(b, ks)
  {
    if a != [] {
      var n := |a| - 1;
      forall s | MovedAt(a[..n], b[..n], s) ensures a[..n][s] in ks && b[..n][s] !in ks {
        assert MovedAt(a, b, s);
      }
      ChangesOutOf(a[..n], b[..n], ks);
      assert a[n] != b[n] ==> MovedAt(a, b, n);
    }
  }

  function Receivers(was: seq<int>, owner: seq<int>): set<int>
    requires |owner| == |was|
  {
    set s | 0 <= s < |owner| && was[s] != owner[s] :: owner[s]
  }

  function Givers(was: seq<int>, owner: seq<int>): set<int>
    requires |owner| == |was|
  {
    set s | 0 <= s < |owner| && was[s] != owner[s] :: was[s]
  }

  /** No balanced assignment over the same groups changes the owner of fewer shards. */
  lemma MinimalMovement(was: seq<int>, owner: seq<int>, ks: set<int>, other: seq<int>)
    requires Assigns(was, ks) && Rebalanced(was, owner, ks)
    requires |other| == |was| && Assigns(other, ks) && Balanced(other, ks)
    ensures Changes(was, owner) <= Changes(was, other)
  {
    if was == [] {
      return;
    }
    assert was[0] in ks;
    var q := |was| / |ks|;
    var rs := Receivers(was, owner);
    forall k | k in ks ensures q <= Count(owner, k) <= q + 1 && q <= Count(other, k) <= q + 1 {
      BalancedShares(owner, ks, k);
      BalancedShares(other, ks, k);
    }
    if forall k :: k in rs ==> Count(owner, k) == q {
      LowReceivers(was, owner, ks, other, q);
    } else {
      HighGivers(was, owner, ks, other, q);
    }
  }

  lemma LowReceivers(was: seq<int>, owner: seq<int>, ks: set<int>, other: seq<int>, q: nat)
    requires |was| == |owner| == |other| && Assigns(owner, ks) && OneWay(was, owner)
    requires forall k :: k in Receivers(was, owner) ==> Count(owner, k) == q
    requires forall k :: k in ks ==> q <= Count(other, k)
    ensures Changes(was, owner) <= Changes(was, other)
  {
    var rs := Receivers(was, owner);
    assert rs <= ks;
    NoGiverReceives(was, owner);
    hide Count; hide CountIn; hide Changes; hide Receivers; hide Givers; hide OneWay;
    CountAtMost(owner, rs, q);
    CountAtLeast(other, rs, q);
    ChangesInto(was, owner, rs);
    ChangesAtLeast(was, other, rs);
  }

  lemma HighGivers(was: seq<int>, owner: seq<int>, ks: set<int>, other: seq<int>, q: nat)
    requires |was| == |owner| == |other| && Assigns(owner, ks) && Assigns(was, ks) && OneWay(was, owner)
    requires exists k :: k in Receivers(was, owner) && Count(owner, k) != q
    requires forall k :: k in ks ==> q <= Count(owner, k) <= q + 1 && Count(other, k) <= q + 1
    ensures Changes(was, owner) <= Changes(was, other)
  {
    var gs := Givers(was, owner);
    assert gs <= ks && Receivers(was, owner) <= ks;
    GiversStayHigh(was, owner, Receivers(was, owner), gs, q);
    NoGiverReceives(was, owner);
    hide Count; hide CountIn; hide Changes; hide Receivers; hide Givers; hide OneWay;
    CountAtLeast(owner, gs, q + 1);
    CountAtMost(other, gs, q + 1);
    ChangesOutOf(was, owner, gs);
    ChangesAtLeast(was, other, gs);
  }

  lemma NoGiverReceives(was: seq<int>, owner: seq<int>)
    requires |owner| == |was| && OneWay(was, owner)
    ensures var rs, gs := Receivers(was, owner), Givers(was, owner);
            forall s :: MovedAt(was, owner, s) ==> was[s] !in rs && owner[s] in rs && was[s] in gs && owner[s] !in gs
  {
    forall s, t | MovedAt(was, owner, s) && 0 <= t < |owner| && was[t] != owner[t]
      ensures owner[t] != was[s] && was[t] != owner[s]
    {
      assert MovedAt(was, owner, t);
    }
  }

  lemma GiversStayHigh(was: seq<int>, owner: seq<int>, rs: set<int>, gs: set<int>, q: nat)
    requires |owner| == |was| && OneWay(was, owner) && rs == Receivers(was, owner) && gs == Givers(was, owner)
    requires forall k :: k in rs + gs ==> q <= Count(owner, k) <= q + 1
    requires exists k :: k in rs && Count(owner, k) != q
    ensures forall k :: k in gs ==> Count(owner, k) == q + 1
  {
    var r :| r in rs && Count(owner, r) != q;
    var s :| 0 <= s < |owner| && was[s] != owner[s] && owner[s] == r;
    forall k | k in gs ensures Count(owner, k) == q + 1 {
      var t :| 0 <= t < |owner| && was[t] != owner[t] && was[t] == k;
      assert MovedAt(was, owner, s) && MovedAt(was, owner, t);
    }
  }

  // ----- One round of the loop -----

  ghost predicate MostLoaded(owner: seq<int>, ks: set<int>, k: int) {
    k in ks && forall j :: j in ks ==> Count(owner, j) <= Count(owner, k)
  }

  ghost predicate LeastLoaded(owner: seq<int>, ks: set<int>, k: int) {
    k in ks && forall j :: j in ks ==> Count(owner, k) <= Count(owner, j)
  }

  /** The loop goes on with this choice of a most and a least loaded entry. */
  ghost predicate GoesOn(owner: seq<int>, ks: set<int>, source: int, target: int) {
    && MostLoaded(owner, ks, source) && LeastLoaded(owner, ks, target)
    && !(source != NO_GID && Count(owner, source) - Count(owner, target) <= 1)
    && source != target
  }

  /** Wherever the loop stops, with gid 0 in the table or not, the loads are balanced. */
  lemma StopIsBalanced(owner: seq<int>, ks: set<int>, source: int, target: int)
    requires MostLoaded(owner, ks, source) && LeastLoaded(owner, ks, target)
    ensures !GoesOn(owner, ks, source, target) ==> Balanced(owner, ks)
  {
    hide Count;
  }

  /** One round moves some shard of a most loaded entry to a least loaded one. */
  ghost predicate Round(owner: seq<int>, ks: set<int>, owner2: seq<int>) {
    exists source, target, x: nat ::
      GoesOn(owner, ks, source, target) && Gives(owner, x, source) && owner2 == owner[x := target]
  }

  predicate Gives(owner: seq<int>, x: nat, source: int) {
    x < |owner| && owner[x] == source
  }

  /** Invariant of the loop without gid 0: receivers stay near the bottom, givers near the top. */
  ghost predicate Settling(was: seq<int>, owner: seq<int>, ks: set<int>)
    requires |owner| == |was|
  {
    && OneWay(was, owner)
    && forall s, k :: MovedAt(was, owner, s) && k in ks ==>
         Count(owner, owner[s]) <= Count(owner, k) + 1 && Count(owner, k) <= Count(owner, was[s]) + 1
  }

  /** Without gid 0 a round moves a shard that has not moved before. */
  lemma RoundSettles(was: seq<int>, owner: seq<int>, ks: set<int>, source: int, target: int, x: nat)
    requires |owner| == |was| && Assigns(was, ks) && Assigns(owner, ks) && Settling(was, owner, ks) && NO_GID !in ks
    requires GoesOn(owner, ks, source, target) && Gives(owner, x, source)
    ensures was[x] == source
    ensures Assigns(owner[x := target], ks) && Settling(was, owner[x := target], ks)
  {
    var owner2 := owner[x := target];
    forall k ensures Count(owner2, k) == Count(owner, k) - (if k == source then 1 else 0) + (if k == target then 1 else 0) {
      CountUpdate(owner, x, target, k);
    }
    assert MovedAt(was, owner, x) ==> Count(owner, source) <= Count(owner, target) + 1;
    forall s | MovedAt(was, owner2, s) && s != x
      ensures MovedAt(was, owner, s) && owner[s] != source && was[s] != target && owner2[s] == owner[s]
    {
      assert MovedAt(was, owner, s);
      assert Count(owner, owner[s]) <= Count(owner, target) + 1;
      assert Count(owner, source) <= Count(owner, was[s]) + 1;
    }
    SettledLevels(was, owner, owner2, ks, source, target, x);
    SettledPairs(was, owner, owner2, ks, source, target, x);
  }

  /** What the two lemmas below start from. */
  ghost predicate OneMore(was: seq<int>, owner: seq<int>, owner2: seq<int>, ks: set<int>, source: int, target: int, x: nat)
    requires |owner| == |was|
  {
    && |owner2| == |was| && Settling(was, owner, ks) && Assigns(was, ks)
    && MostLoaded(owner, ks, source) && LeastLoaded(owner, ks, target)
    && Count(owner, source) >= Count(owner, target) + 2
    && x < |was| && was[x] == source && owner2[x] == target
    && (forall k :: Count(owner2, k) == Count(owner, k) - (if k == source then 1 else 0) + (if k == target then 1 else 0))
    && (forall s :: MovedAt(was, owner2, s) && s != x ==>
          MovedAt(was, owner, s) && owner[s] != source && was[s] != target && owner2[s] == owner[s])
  }

  lemma SettledLevels(was: seq<int>, owner: seq<int>, owner2: seq<int>, ks: set<int>, source: int, target: int, x: nat)
    requires |owner| == |was| && OneMore(was, owner, owner2, ks, source, target, x)
    ensures forall s, k :: MovedAt(was, owner2, s) && k in ks ==>
              Count(owner2, owner2[s]) <= Count(owner2, k) + 1 && Count(owner2, k) <= Count(owner2, was[s]) + 1
  {
    hide Count; hide OneWay;
    forall s, k | MovedAt(was, owner2, s) && k in ks
      ensures Count(owner2, owner2[s]) <= Count(owner2, k) + 1 && Count(owner2, k) <= Count(owner2, was[s]) + 1
    {
      assert Count(owner, target) <= Count(owner, k) <= Count(owner, source);
      if s != x { assert MovedAt(was, owner, s); }
    }
  }

  lemma SettledPairs(was: seq<int>, owner: seq<int>, owner2: seq<int>, ks: set<int>, source: int, target: int, x: nat)
    requires |owner| == |was| && OneMore(was, owner, owner2, ks, source, target, x)
    ensures OneWay(was, owner2)
  {
    hide Count;
    forall s, t | MovedAt(was, owner2, s) && MovedAt(was, owner2, t)
      ensures owner2[s] != was[t] && Count(owner2, owner2[s]) <= Count(owner2, was[t])
    {
      if s != x { assert Count(owner, owner[s]) <= Count(owner, target) + 1; }
      if t != x { assert Count(owner, source) <= Count(owner, was[t]) + 1; }
    }
  }

  // ----- Termination -----

  /** The sum of the squared list lengths over the keys in `order`. */
  function Squares(owner: seq<int>, order: seq<int>): nat {
    if order == [] then 0 else Squares(owner, order[1..]) + Count(owner, order[0]) * Count(owner, order[0])
  }

  ghost predicate Orders(order: seq<int>, ks: set<int>) {
    && (forall i, j :: 0 <= i < j < |order| ==> order[i] != order[j])
    && forall k :: k in order <==> k in ks
  }

  ghost function Change(owner: seq<int>, order: seq<int>, source: int, target: int): int {
    (if source in order then 1 - 2 * Count(owner, source) else 0) + (if target in order then 2 * Count(owner, target) + 1 else 0)
  }

  lemma {:induction false} SquaresChange(owner: seq<int>, order: seq<int>, source: int, target: int, x: nat)
    requires x < |owner| && owner[x] == source && source != target
    requires forall i, j :: 0 <= i < j < |order| ==> order[i] != order[j]
    ensures Squares(owner[x := target], order) == Squares(owner, order) + Change(owner, order, source, target)
    decreases |order|
  {
    if order != [] {
      var k := order[0];
      CountUpdate(owner, x, target, k);
      SquaresChange(owner, order[1..], source, target, x);
      var c: int := Count(owner, k);
      assert (c + 1) * (c + 1) == c * c + 2 * c + 1;
      assert (c - 1) * (c - 1) + 2 * c == c * c + 1;
      assert forall j :: j in order <==> j == k || j in order[1..];
    }
  }

  /** What falls in every round. */
  ghost function Unrest(owner: seq<int>, order: seq<int>): nat {
    Squares(owner, order) + Count(owner, NO_GID)
  }

  lemma {:induction false} SquaresBounded(owner: seq<int>, ks: set<int>, order: seq<int>)
    requires Orders(order, ks)
    ensures Squares(owner, order) <= |owner| * CountIn(owner, ks)
    decreases |order|
  {
    if order != [] {
      var k := order[0];
      forall j ensures j in order[1..] <==> j in ks - {k} {
        assert j in order <==> j == k || j in order[1..];
      }
      SquaresBounded(owner, ks - {k}, order[1..]);
      CountOne(owner, ks, k);
      CountSome(owner, k);
      hide Count; hide CountIn; hide Squares;
      ProductBounded(|owner|, Count(owner, k), CountIn(owner, ks - {k}));
    }
  }

  lemma ProductBounded(n: nat, c: nat, d: nat)
    requires c <= n
    ensures c * c + n * d <= n * (c + d)
  {
    MulGrows(c, c, n);
    assert n * (c + d) == n * c + n * d;
  }

  /** The unrest is bounded by the number of shards alone, so is the number of rounds. */
  lemma UnrestBounded(owner: seq<int>, ks: set<int>, order: seq<int>)
    requires Orders(order, ks)
    ensures Unrest(owner, order) <= |owner| * |owner| + |owner|
  {
    SquaresBounded(owner, ks, order);
    CountInSome(owner, ks);
    CountSome(owner, NO_GID);
    MulGrows(|owner|, CountIn(owner, ks), |owner|);
  }

  /** The table has an entry for gid 0, another one, and the shards divide evenly. */
  predicate MaySwapForever(ks: set<int>, n: nat) {
    NO_GID in ks && |ks| >= 2 && n % |ks| == 0
  }

  /** All entries equally loaded: the shards divide evenly. */
  lemma EqualLoadDivides(owner: seq<int>, ks: set<int>, k: int)
    requires Assigns(owner, ks) && MostLoaded(owner, ks, k) && LeastLoaded(owner, ks, k)
    ensures |owner| % |ks| == 0
  {
    CountAll(owner, ks);
    CountAtLeast(owner, ks, Count(owner, k));
    CountAtMost(owner, ks, Count(owner, k));
    DividesOut(|owner|, |ks|, Count(owner, k));
  }

  lemma DividesOut(total: nat, n: nat, c: nat)
    requires n > 0 && total == n * c
    ensures total % n == 0
  {
    var q, r := total / n, total % n;
    assert total == n * q + r;
    assert n * (q + 1) == n * q + n && n * (c + 1) == n * c + n;
    MulGrows(n, q + 1, c);
    MulGrows(n, c + 1, q);
  }

  /** The squares fall in every round whose two entries differ by two or more, as all do without gid 0. */
  lemma SquaresFall(owner: seq<int>, ks: set<int>, order: seq<int>, source: int, target: int, x: nat)
    requires Orders(order, ks) && GoesOn(owner, ks, source, target) && Gives(owner, x, source)
    requires source != NO_GID
    ensures Squares(owner[x := target], order) < Squares(owner, order)
  {
    SquaresChange(owner, order, source, target, x);
  }

  /** Outside the bad case every round lowers the unrest, so the loop ends for every choice. */
  lemma UnrestFalls(owner: seq<int>, ks: set<int>, order: seq<int>, source: int, target: int, x: nat)
    requires Orders(order, ks) && Assigns(owner, ks) && !MaySwapForever(ks, |owner|)
    requires GoesOn(owner, ks, source, target) && Gives(owner, x, source)
    ensures Unrest(owner[x := target], order) < Unrest(owner, order)
  {
    SquaresChange(owner, order, source, target, x);
    CountUpdate(owner, x, target, NO_GID);
    if Count(owner, source) == Count(owner, target) {
      EqualLoadDivides(owner, ks, source);
      AtLeastTwo(ks, source, target);
    }
  }

  lemma AtLeastTwo(ks: set<int>, a: int, b: int)
    requires a in ks && b in ks && a != b
    ensures |ks| >= 2
  {
    assert |ks| == |ks - {a}| + 1;
    assert b in ks - {a};
    assert |ks - {a}| > 0;
  }

  /** A sequence of rounds. */
  ghost predicate Rounds(run: seq<seq<int>>, ks: set<int>) {
    |run| > 0 && forall i :: 0 <= i < |run| - 1 ==> Round(run[i], ks, run[i + 1])
  }

  lemma {:induction false} RoundsBounded(run: seq<seq<int>>, ks: set<int>, order: seq<int>)
    requires Rounds(run, ks) && Orders(order, ks) && Assigns(run[0], ks) && !MaySwapForever(ks, |run[0]|)
    ensures |run| <= Unrest(run[0], order) + 1
    decreases |run|
  {
    if |run| > 1 {
      assert Round(run[0], ks, run[1]);
      var source, target, x: nat :|
        GoesOn(run[0], ks, source, target) && Gives(run[0], x, source) && run[1] == run[0][x := target];
      UnrestFalls(run[0], ks, order, source, target, x);
      forall i | 0 <= i < |run[1..]| - 1 ensures Round(run[1..][i], ks, run[1..][i + 1]) {
        assert Round(run[i + 1], ks, run[i + 2]);
      }
      RoundsBounded(run[1..], ks, order);
    }
  }

  /** In the bad case some choice always goes on. */
  lemma SomeRound(owner: seq<int>, ks: set<int>) returns (owner2: seq<int>)
    requires Assigns(owner, ks) && MaySwapForever(ks, |owner|) && owner != []
    ensures Round(owner, ks, owner2) && Assigns(owner2, ks) && |owner2| == |owner|
  {
    var source, target := Extremes(owner, ks);
    if Count(owner, source) == Count(owner, target) {
      source := NO_GID;
      target := OtherKey(ks);
    } else if Count(owner, source) - Count(owner, target) <= 1 {
      NotAlmostEqual(owner, ks, source, target);
    }
    PositiveCount(owner, ks, source);
    var x := SomeShard(owner, source);
    owner2 := owner[x := target];
    assert GoesOn(owner, ks, source, target) && Gives(owner, x, source);
  }

  lemma OtherKey(ks: set<int>) returns (k: int)
    requires NO_GID in ks && |ks| >= 2
    ensures k in ks && k != NO_GID
  {
    assert |ks - {NO_GID}| == |ks| - 1;
    k := Sets.Pick(ks - {NO_GID});
  }

  lemma Extremes(owner: seq<int>, ks: set<int>) returns (source: int, target: int)
    requires ks != {}
    ensures MostLoaded(owner, ks, source) && LeastLoaded(owner, ks, target)
    decreases |ks|
  {
    var k := Sets.Pick(ks);
    if ks == {k} {
      source, target := k, k;
    } else {
      assert ks - {k} != {};
      source, target := Extremes(owner, ks - {k});
      if Count(owner, k) > Count(owner, source) { source := k; }
      if Count(owner, k) < Count(owner, target) { target := k; }
    }
  }

  lemma {:induction false} SomeShard(owner: seq<int>, k: int) returns (x: nat)
    requires Count(owner, k) > 0
    ensures Gives(owner, x, k)
  {
    var n := |owner| - 1;
    if owner[n] == k {
      x := n;
    } else {
      x := SomeShard(owner[..n], k);
    }
  }

  lemma PositiveCount(owner: seq<int>, ks: set<int>, source: int)
    requires Assigns(owner, ks) && MostLoaded(owner, ks, source) && owner != []
    ensures Count(owner, source) > 0
  {
    CountAll(owner, ks);
    if Count(owner, source) == 0 { CountAtMost(owner, ks, 0); }
  }

  /** If the shards divide evenly, the loads cannot differ by exactly one. */
  lemma NotAlmostEqual(owner: seq<int>, ks: set<int>, source: int, target: int)
    requires Assigns(owner, ks) && ks != {} && |owner| % |ks| == 0
    requires MostLoaded(owner, ks, source) && LeastLoaded(owner, ks, target)
    ensures Count(owner, source) != Count(owner, target) + 1
  {
    var c, n := Count(owner, target), |ks|;
    if Count(owner, source) == c + 1 {
      CountAll(owner, ks);
      CountOne(owner, ks, source);
      CountOne(owner, ks, target);
      CountAtLeast(owner, ks - {source}, c);
      CountAtMost(owner, ks - {target}, c + 1);
      assert |ks - {source}| == n - 1 && |ks - {target}| == n - 1;
      hide Assigns; hide MostLoaded; hide LeastLoaded; hide Count; hide CountIn;
      AlmostEqualTotal(|owner|, n, c);
    }
  }

  lemma AlmostEqualTotal(total: nat, n: nat, c: nat)
    requires n > 0 && total - (c + 1) >= (n - 1) * c && total - c <= (n - 1) * (c + 1)
    ensures total % n != 0
  {
    assert (n - 1) * c + c + 1 == n * c + 1;
    assert (n - 1) * (c + 1) + c == n * c + n - 1;
    NoMultipleBetween(total, n, c);
  }

  lemma NoMultipleBetween(total: nat, n: nat, c: nat)
    requires n > 0 && n * c < total < n * c + n
    ensures total % n != 0
  {
    var q := total / n;
    assert n * (c + 1) == n * c + n;
    assert total == n * q + total % n;
    MulGrows(n, c + 1, q);
    MulGrows(n, q, c);
  }

  lemma {:induction false} RunOfLength(owner: seq<int>, ks: set<int>, n: nat) returns (run: seq<seq<int>>)
    requires Assigns(owner, ks) && MaySwapForever(ks, |owner|) && owner != []
    ensures |run| == n + 1 && run[0] == owner && Rounds(run, ks)
    decreases n
  {
    if n == 0 {
      run := [owner];
    } else {
      var owner2 := SomeRound(owner, ks);
      var rest := RunOfLength(owner2, ks, n - 1);
      run := [owner] + rest;
      forall i | 0 <= i < |run| - 1 ensures Round(run[i], ks, run[i + 1]) {
        if i > 0 { assert Round(rest[i - 1], ks, rest[i]); }
      }
    }
  }

  ghost predicate LastsFor(owner: seq<int>, ks: set<int>, n: nat) {
    exists run: seq<seq<int>> :: |run| == n + 1 && run[0] == owner && Rounds(run, ks)
  }

  /**
    * Exactly when the loop of Join can be kept going for ever by the order in which the
    * pickers see the table: gid 0 is in it, is not alone, and the shards divide evenly.
    */
  lemma ForeverIff(owner: seq<int>, ks: set<int>, order: seq<int>)
    requires Assigns(owner, ks) && owner != [] && Orders(order, ks)
    ensures MaySwapForever(ks, |owner|) <==> forall n: nat :: LastsFor(owner, ks, n)
  {
    if MaySwapForever(ks, |owner|) {
      forall n: nat ensures LastsFor(owner, ks, n) {
        var run := RunOfLength(owner, ks, n);
      }
    } else {
      var n := Unrest(owner, order) + 1;
      if LastsFor(owner, ks, n) {
        var run: seq<seq<int>> :| |run| == n + 1 && run[0] == owner && Rounds(run, ks);
        RoundsBounded(run, ks, order);
      }
      assert !LastsFor(owner, ks, n);
    }
  }

  /** A loop that ends with gid 0 in the table leaves shards without a group, as many as a fair share. */
  lemma GroupZeroKeepsShare(owner: seq<int>, ks: set<int>)
    requires Assigns(owner, ks) && Balanced(owner, ks) && NO_GID in ks && |ks| <= |owner|
    ensures Count(owner, NO_GID) > 0
  {
    BalancedShares(owner, ks, NO_GID);
    assert |ks| > 0;
    ShareIsPositive(|owner|, |ks|);
  }

  lemma ShareIsPositive(total: nat, n: nat)
    requires 0 < n <= total
    ensures total / n > 0
  {
  }
}
