/** The shard controller's state machine. */
module ShardController {
  import opened Rebalance
  import Sets
  import ShardTypes

  // Numbered configurations, and the in-place rebalancing of Join and Leave. Ranging over a Go
  // map is a loop that picks any key left.

  const N_SHARDS: nat := ShardTypes.N_SHARDS

  /** Where the search for the shortest list starts. */
  const UNLIMITED: nat := 100000000

  /** Outside the bad case no Join takes more rounds of its loop. */
  const ENOUGH_ROUNDS: nat := N_SHARDS * N_SHARDS + N_SHARDS + 1

  datatype Config = Config(num: nat, shards: seq<int>, groups: map<int, seq<string>>)

  // ----- Tables -----

  /** l names exactly the shards `owner` gives to k, each once. */
  ghost predicate ListOf(l: seq<nat>, owner: seq<int>, k: int) {
    && (forall i, j :: 0 <= i < j < |l| ==> l[i] != l[j])
    && (forall s: nat :: s in l <==> Gives(owner, s, k))
    && |l| == Count(owner, k)
  }

  ghost predicate Lists(table: Table, owner: seq<int>) {
    forall k :: k in table ==> ListOf(table[k], owner, k)
  }

  function Owners(owner: seq<int>): set<int> {
    set s | 0 <= s < |owner| :: owner[s]
  }

  /** The keys of the table for a configuration: its groups, and whoever owns a shard. */
  function Entries(config: Config): set<int> {
    config.groups.Keys + Owners(config.shards)
  }

  lemma ListExtends(l: seq<nat>, owner: seq<int>, k: int)
    requires owner != [] && ListOf(l, owner[..|owner| - 1], k)
    ensures owner[|owner| - 1] == k ==> ListOf(l + [|owner| - 1], owner, k)
    ensures owner[|owner| - 1] != k ==> ListOf(l, owner, k)
  {
    var n := |owner| - 1;
    forall s: nat ensures Gives(owner, s, k) <==> Gives(owner[..n], s, k) || (s == n && owner[n] == k) {
    }
    forall i | 0 <= i < |l| ensures l[i] < n {
      assert l[i] in l && Gives(owner[..n], l[i], k);
    }
  }

  /** Moving the first shard of one list to the end of another. */
  lemma ListsMove(table: Table, owner: seq<int>, source: int, target: int)
    requires Lists(table, owner) && source in table && target in table && source != target && table[source] != []
    ensures table[source][0] < |owner| && Gives(owner, table[source][0], source)
    ensures Lists(table[target := table[target] + [table[source][0]]][source := table[source][1..]],
                  owner[table[source][0] := target])
  {
    var x := table[source][0];
    assert x in table[source];
    var table2 := table[target := table[target] + [x]][source := table[source][1..]];
    var owner2 := owner[x := target];
    forall k | k in table2 ensures ListOf(table2[k], owner2, k) {
      CountUpdate(owner, x, target, k);
      forall s: nat ensures s in table2[k] <==> Gives(owner2, s, k) {
        assert s in table[k] <==> Gives(owner, s, k);
        assert k == source ==> (s in table[k] <==> s == x || s in table[k][1..]);
      }
      if k == target { assert x !in table[k] by { assert x in table[k] <==> Gives(owner, x, k); } }
    }
  }

  /** Appending a shard no list names. */
  lemma ListsAdd(table: Table, owner: seq<int>, x: nat, target: int)
    requires Lists(table, owner) && target in table && x < |owner| && owner[x] !in table
    ensures Lists(table[target := table[target] + [x]], owner[x := target])
  {
    var table2 := table[target := table[target] + [x]];
    var owner2 := owner[x := target];
    forall k | k in table2 ensures ListOf(table2[k], owner2, k) {
      CountUpdate(owner, x, target, k);
      forall s: nat ensures s in table2[k] <==> Gives(owner2, s, k) {
        assert s in table[k] <==> Gives(owner, s, k);
      }
      if k == target { assert x !in table[k] by { assert x in table[k] <==> Gives(owner, x, k); } }
    }
  }

  lemma LeastStaysBalanced(owner: seq<int>, ks: set<int>, x: nat, target: int)
    requires Balanced(owner, ks) && LeastLoaded(owner, ks, target) && x < |owner| && owner[x] !in ks
    ensures Balanced(owner[x := target], ks)
  {
    hide Count;
    forall k | k in ks ensures Count(owner[x := target], k) == Count(owner, k) + if k == target then 1 else 0 {
      CountUpdate(owner, x, target, k);
    }
  }

  /** The orphans go one after the other, each to an entry with the fewest shards at that moment. */
  ghost predicate GivenToLeast(was: seq<int>, ks: set<int>, orphans: seq<nat>, owner: seq<int>) {
    if orphans == [] then owner == was
    else
      var n := |orphans| - 1;
      exists mid, target ::
        && GivenToLeast(was, ks, orphans[..n], mid) && LeastLoaded(mid, ks, target)
        && orphans[n] < |mid| && owner == mid[orphans[n] := target]
  }

  lemma OneMoreGiven(was: seq<int>, ks: set<int>, orphans: seq<nat>, i: nat, owner: seq<int>, target: int)
    requires i < |orphans| && GivenToLeast(was, ks, orphans[..i], owner) && LeastLoaded(owner, ks, target) && orphans[i] < |owner|
    ensures GivenToLeast(was, ks, orphans[..i + 1], owner[orphans[i] := target])
  {
    assert orphans[..i + 1][..i] == orphans[..i];
  }

  /** No entry loses a shard, and whoever receives one ends at most one above the least. */
  ghost predicate ReceiversLow(was: seq<int>, owner: seq<int>, ks: set<int>) {
    forall t, k :: t in ks && k in ks ==>
      Count(was, k) <= Count(owner, k) && (Count(owner, t) > Count(was, t) ==> Count(owner, t) <= Count(owner, k) + 1)
  }

  lemma LeastStaysLow(was: seq<int>, owner: seq<int>, ks: set<int>, x: nat, target: int)
    requires ReceiversLow(was, owner, ks) && LeastLoaded(owner, ks, target) && x < |owner| && owner[x] !in ks
    ensures ReceiversLow(was, owner[x := target], ks)
  {
    hide Count;
    forall k | k in ks ensures Count(owner[x := target], k) == Count(owner, k) + if k == target then 1 else 0 {
      CountUpdate(owner, x, target, k);
    }
  }

  // ----- The pickers -----

  /** Some entry with the shortest list, whichever the loop meets first. */
  method MinimumGid(table: Table) returns (index: int)
    ensures if exists k :: k in table && |table[k]| < UNLIMITED
            then index in table && forall k :: k in table ==> |table[index]| <= |table[k]|
            else index == NO_GID
  {
    index := NO_GID;
    var shortest: nat := UNLIMITED;
    var rest := table.Keys;
    while rest != {}
      invariant rest <= table.Keys && shortest <= UNLIMITED
      invariant shortest < UNLIMITED ==> index in table && |table[index]| == shortest
      invariant shortest == UNLIMITED ==> index == NO_GID
      invariant forall k :: k in table.Keys - rest ==> shortest <= |table[k]|
      decreases |rest|
    {
      ghost var some := Sets.Pick(rest);
      var k :| k in rest;
      if |table[k]| < shortest {
        index, shortest := k, |table[k]|;
      }
      rest := rest - {k};
    }
  }

  /** Some entry with the longest list, or 0 if every list is empty. */
  method MaximumGid(table: Table) returns (index: int)
    ensures if exists k :: k in table && |table[k]| > 0
            then index in table && forall k :: k in table ==> |table[k]| <= |table[index]|
            else index == NO_GID
  {
    index := NO_GID;
    var longest: nat := 0;
    var rest := table.Keys;
    while rest != {}
      invariant rest <= table.Keys
      invariant longest > 0 ==> index in table && |table[index]| == longest
      invariant longest == 0 ==> index == NO_GID
      invariant forall k :: k in table.Keys - rest ==> |table[k]| <= longest
      decreases |rest|
    {
      ghost var some := Sets.Pick(rest);
      var k :| k in rest;
      if |table[k]| > longest {
        index, longest := k, |table[k]|;
      }
      rest := rest - {k};
    }
  }

  // ----- Tables and assignments -----

  method Group2Shards(config: Config) returns (table: Table)
    ensures table.Keys == Entries(config) && Lists(table, config.shards)
  {
    table := map k | k in config.groups :: [];
    var shard := 0;
    assert config.shards[..0] == [];
    while shard < |config.shards|
      invariant 0 <= shard <= |config.shards|
      invariant table.Keys == config.groups.Keys + Owners(config.shards[..shard])
      invariant Lists(table, config.shards[..shard])
    {
      var gid := config.shards[shard];
      ghost var next := config.shards[..shard + 1];
      assert next[..|next| - 1] == config.shards[..shard];
      assert gid !in table ==> ListOf([], config.shards[..shard], gid) by {
        if gid !in table { NobodysList(config.shards[..shard], gid); }
      }
      forall k | k in table ensures k != gid ==> ListOf(table[k], next, k) {
        ListExtends(table[k], next, k);
      }
      ListExtends(if gid in table then table[gid] else [], next, gid);
      OwnersExtend(next);
      table := table[gid := (if gid in table then table[gid] else []) + [shard]];
      shard := shard + 1;
    }
    assert config.shards[..shard] == config.shards;
  }

  lemma OwnersExtend(owner: seq<int>)
    requires owner != []
    ensures Owners(owner) == Owners(owner[..|owner| - 1]) + {owner[|owner| - 1]}
  {
    var n := |owner| - 1;
    forall k | k in Owners(owner) ensures k in Owners(owner[..n]) + {owner[n]} {
      var s :| 0 <= s < |owner| && owner[s] == k;
      if s < n { assert owner[..n][s] == k; }
    }
    forall k | k in Owners(owner[..n]) ensures k in Owners(owner) {
      var s :| 0 <= s < n && owner[..n][s] == k;
      assert owner[s] == k;
    }
  }

  lemma {:induction false} NobodysList(owner: seq<int>, k: int)
    requires k !in Owners(owner)
    ensures ListOf([], owner, k)
  {
    if owner != [] {
      OwnersExtend(owner);
      NobodysList(owner[..|owner| - 1], k);
      ListExtends([], owner, k);
    }
  }

  /** Writing the lists back into an array of owners. */
  method Assignment(table: Table, ghost owner: seq<int>) returns (shards: seq<int>)
    requires Lists(table, owner) && |owner| == N_SHARDS && Assigns(owner, table.Keys)
    ensures shards == owner
  {
    var newShards := new int[N_SHARDS];
    var rest := table.Keys;
    while rest != {}
      invariant rest <= table.Keys
      invariant forall s :: 0 <= s < N_SHARDS && owner[s] !in rest ==> newShards[s] == owner[s]
      decreases |rest|
    {
      ghost var some := Sets.Pick(rest);
      var gid :| gid in rest;
      var list := table[gid];
      assert ListOf(list, owner, gid);
      var i := 0;
      while i < |list|
        invariant 0 <= i <= |list|
        invariant forall s :: 0 <= s < N_SHARDS && owner[s] !in rest ==> newShards[s] == owner[s]
        invariant forall s: nat :: s in list[..i] && s < N_SHARDS ==> newShards[s] == owner[s]
      {
        assert list[i] in list && Gives(owner, list[i], gid);
        newShards[list[i]] := gid;
        assert list[..i + 1] == list[..i] + [list[i]];
        i := i + 1;
      }
      assert list[..i] == list;
      forall s | 0 <= s < N_SHARDS && owner[s] !in rest - {gid} ensures newShards[s] == owner[s] {
        if owner[s] == gid { assert s in list <==> Gives(owner, s, gid); }
      }
      rest := rest - {gid};
    }
    shards := newShards[..];
  }

  // ----- Groups -----

  /** Known groups keep their servers, the others are added. */
  function Merge(known: map<int, seq<string>>, groups: map<int, seq<string>>): map<int, seq<string>> {
    groups + known
  }

  method AddGroups(known: map<int, seq<string>>, groups: map<int, seq<string>>) returns (all: map<int, seq<string>>)
    ensures all == Merge(known, groups)
  {
    hide Merge;
    all := known;
    var rest := groups.Keys;
    MergeNone(known, groups);
    while rest != {}
      invariant rest <= groups.Keys
      invariant all == Merge(known, groups - rest)
      decreases |rest|
    {
      ghost var some := Sets.Pick(rest);
      var gid :| gid in rest;
      MergeStep(known, groups, rest, gid);
      if gid !in all {
        all := all[gid := groups[gid]];
      }
      rest := rest - {gid};
    }
    assert groups - {} == groups;
  }

  lemma MergeNone(known: map<int, seq<string>>, groups: map<int, seq<string>>)
    ensures Merge(known, groups - groups.Keys) == known
  {
    assert (groups - groups.Keys).Keys == {};
  }

  lemma MergeStep(known: map<int, seq<string>>, groups: map<int, seq<string>>, rest: set<int>, gid: int)
    requires gid in rest && rest <= groups.Keys
    ensures var some := Merge(known, groups - rest);
            && (gid in some <==> gid in known)
            && Merge(known, groups - (rest - {gid})) == if gid in known then some else some[gid := groups[gid]]
  {
    var some, more := Merge(known, groups - rest), Merge(known, groups - (rest - {gid}));
    assert more.Keys == some.Keys + {gid};
  }

  lemma SomeOrder(ks: set<int>) returns (order: seq<int>)
    ensures Orders(order, ks)
    decreases |ks|
  {
    if ks == {} {
      order := [];
    } else {
      var k := Sets.Pick(ks);
      order := SomeOrder(ks - {k});
      order := [k] + order;
    }
  }

  /** With ten shards in the lists the pickers find a most and a least loaded entry. */
  lemma PickersPick(table: Table, owner: seq<int>, source: int, target: int)
    requires Lists(table, owner) && |owner| == N_SHARDS && Assigns(owner, table.Keys)
    requires if exists k :: k in table && |table[k]| > 0
             then source in table && forall k :: k in table ==> |table[k]| <= |table[source]|
             else source == NO_GID
    requires if exists k :: k in table && |table[k]| < UNLIMITED
             then target in table && forall k :: k in table ==> |table[target]| <= |table[k]|
             else target == NO_GID
    ensures MostLoaded(owner, table.Keys, source) && LeastLoaded(owner, table.Keys, target)
    ensures |table[source]| == Count(owner, source) && |table[target]| == Count(owner, target)
    ensures table[source] != []
  {
    var k := owner[0];
    assert k in table && Gives(owner, 0, k) && 0 in table[k];
    CountSome(owner, k);
  }

  /**
    * The loop of Join, watched for a number of rounds. If it ends within them, the table is
    * balanced; outside the bad case it ends within a fixed number, whatever the pickers see.
    */
  method Spread(start: Table, ghost was: seq<int>, rounds: nat) returns (ended: bool, table: Table, ghost owner: seq<int>)
    requires Lists(start, was) && Assigns(was, start.Keys) && |was| == N_SHARDS
    ensures table.Keys == start.Keys && Lists(table, owner) && |owner| == N_SHARDS && Assigns(owner, start.Keys)
    ensures NO_GID !in start.Keys ==> OneWay(was, owner)
    ensures ended ==> Balanced(owner, start.Keys)
    ensures !MaySwapForever(start.Keys, N_SHARDS) && rounds >= ENOUGH_ROUNDS ==> ended
  {
    hide Count; hide CountIn; hide Squares; hide MaySwapForever; hide Unrest; hide Lists; hide Assigns; hide OneWay;
    StartsSettled(was, start.Keys);
    ended, table, owner := false, start, was;
    ghost var order := SomeOrder(start.Keys);
    UnrestBounded(was, start.Keys, order);
    var used := 0;
    while used < rounds
      invariant used <= rounds && !ended
      invariant Spreading(table, owner, was, start.Keys)
      invariant !MaySwapForever(start.Keys, N_SHARDS) ==> Unrest(owner, order) + used <= Unrest(was, order)
    {
      var source := MaximumGid(table);
      var target := MinimumGid(table);
      PickersPick(table, owner, source, target);
      StopIsBalanced(owner, start.Keys, source, target);
      if source != NO_GID && |table[source]| - |table[target]| <= 1 { ended := true; break; }
      if source == target { ended := true; break; }
      SpreadStep(table, owner, was, order, source, target);
      owner := owner[table[source][0] := target];
      table := table[target := table[target] + [table[source][0]]];
      table := table[source := table[source][1..]];
      used := used + 1;
    }
  }

  ghost predicate Spreading(table: Table, owner: seq<int>, was: seq<int>, ks: set<int>) {
    && table.Keys == ks && Lists(table, owner) && |owner| == |was| == N_SHARDS && Assigns(was, ks)
    && Assigns(owner, ks) && (NO_GID !in ks ==> Settling(was, owner, ks))
  }

  lemma AssignsMove(owner: seq<int>, ks: set<int>, x: nat, target: int)
    requires Assigns(owner, ks) && x < |owner| && target in ks
    ensures Assigns(owner[x := target], ks)
  {
  }

  lemma StartsSettled(was: seq<int>, ks: set<int>)
    ensures Settling(was, was, ks)
  {
  }

  lemma SpreadStep(table: Table, owner: seq<int>, was: seq<int>, order: seq<int>, source: int, target: int)
    requires Spreading(table, owner, was, table.Keys) && Orders(order, table.Keys)
    requires GoesOn(owner, table.Keys, source, target) && table[source] != []
    ensures table[source][0] < N_SHARDS
    ensures var x := table[source][0];
            && Spreading(table[target := table[target] + [x]][source := table[source][1..]], owner[x := target], was, table.Keys)
            && (!MaySwapForever(table.Keys, N_SHARDS) ==> Unrest(owner[x := target], order) < Unrest(owner, order))
  {
    hide Count; hide CountIn; hide Squares; hide MaySwapForever; hide Unrest; hide Settling; hide Lists;
    hide Assigns;
    ListsMove(table, owner, source, target);
    var x := table[source][0];
    if !MaySwapForever(table.Keys, N_SHARDS) { UnrestFalls(owner, table.Keys, order, source, target, x); }
    AssignsMove(owner, table.Keys, x, target);
    assert table[target := table[target] + [x]][source := table[source][1..]].Keys == table.Keys;
    if NO_GID !in table.Keys { RoundSettles(was, owner, table.Keys, source, target, x); }
  }

  // ----- Orphans -----

  /** The shards of the groups in gids, each once. */
  ghost predicate OrphansOf(orphans: seq<nat>, owner: seq<int>, gids: seq<int>) {
    && (forall i, j :: 0 <= i < j < |orphans| ==> orphans[i] != orphans[j])
    && forall s: nat :: s in orphans <==> s < |owner| && owner[s] in gids
  }

  lemma MoreOrphans(orphans: seq<nat>, l: seq<nat>, owner: seq<int>, gids: seq<int>, gid: int)
    requires OrphansOf(orphans, owner, gids)
    requires if gid in gids then l == [] else ListOf(l, owner, gid)
    ensures OrphansOf(orphans + l, owner, gids + [gid])
  {
    forall s: nat ensures s in orphans + l <==> s < |owner| && owner[s] in gids + [gid] {
      if gid !in gids { assert s in l <==> Gives(owner, s, gid); }
    }
    forall i, j | 0 <= i < j < |orphans + l| ensures (orphans + l)[i] != (orphans + l)[j] {
      if i < |orphans| <= j {
        assert (orphans + l)[i] in orphans && (orphans + l)[j] in l;
        assert Gives(owner, (orphans + l)[j], gid);
      }
    }
  }

  /** The second loop of Leave. */
  method Adopt(start: Table, orphans: seq<nat>, ghost was: seq<int>, ghost gids: seq<int>, ghost ks: set<int>)
    returns (table: Table, ghost owner: seq<int>)
    requires start.Keys == ks != {} && Lists(start, was) && |was| == N_SHARDS
    requires OrphansOf(orphans, was, gids)
    requires forall s :: 0 <= s < |was| ==> (was[s] in ks <==> was[s] !in gids)
    requires forall k :: k in ks ==> k !in gids
    ensures table.Keys == ks && Lists(table, owner) && |owner| == N_SHARDS && Assigns(owner, ks)
    ensures forall s :: 0 <= s < |was| && was[s] !in gids ==> owner[s] == was[s]
    ensures Balanced(was, ks) ==> Balanced(owner, ks)
    ensures GivenToLeast(was, ks, orphans, owner) && ReceiversLow(was, owner, ks)
  {
    hide LeastLoaded; hide ReceiversLow; hide GivenToLeast; hide Balanced;
    NoneGiven(was, ks);
    table, owner := start, was;
    var i := 0;
    while i < |orphans|
      invariant 0 <= i <= |orphans|
      invariant table.Keys == ks && Lists(table, owner) && |owner| == |was|
      invariant forall s: nat :: s < |was| ==> if s in orphans[..i] then owner[s] in ks else owner[s] == was[s]
      invariant Balanced(was, ks) ==> Balanced(owner, ks)
      invariant GivenToLeast(was, ks, orphans[..i], owner) && ReceiversLow(was, owner, ks)
    {
      var shard := orphans[i];
      assert shard in orphans && shard !in orphans[..i];
      var target := MinimumGid(table);
      LeastPicked(table, owner, target);
      ListsAdd(table, owner, shard, target);
      if Balanced(was, ks) { LeastStaysBalanced(owner, ks, shard, target); }
      LeastStaysLow(was, owner, ks, shard, target);
      OneMoreGiven(was, ks, orphans, i, owner, target);
      owner := owner[shard := target];
      table := table[target := table[target] + [shard]];
      assert orphans[..i + 1] == orphans[..i] + [shard];
      i := i + 1;
    }
    assert orphans[..i] == orphans;
  }

  lemma NoneGiven(was: seq<int>, ks: set<int>)
    ensures GivenToLeast(was, ks, [], was) && ReceiversLow(was, was, ks)
  {
    hide Count;
  }

  lemma LeastPicked(table: Table, owner: seq<int>, target: int)
    requires Lists(table, owner) && |owner| == N_SHARDS && table.Keys != {}
    requires if exists k :: k in table && |table[k]| < UNLIMITED
             then target in table && forall k :: k in table ==> |table[target]| <= |table[k]|
             else target == NO_GID
    ensures LeastLoaded(owner, table.Keys, target)
  {
    var k := Sets.Pick(table.Keys);
    CountSome(owner, k);
  }

  function Elements(gids: seq<int>): set<int> {
    set k | k in gids
  }

  /** The first loop of Leave: take the leaving groups out of the table and collect their shards. */
  method Remove(start: Table, known: map<int, seq<string>>, ghost owner: seq<int>, gids: seq<int>)
    returns (table: Table, groups: map<int, seq<string>>, orphans: seq<nat>)
    requires Lists(start, owner) && Owners(owner) <= start.Keys
    ensures groups == known - Elements(gids)
    ensures table.Keys == start.Keys - Elements(gids)
    ensures Lists(table, owner) && OrphansOf(orphans, owner, gids)
  {
    hide Count; hide ListOf; hide OrphansOf; hide Gives;
    table, groups, orphans := start, known, [];
    NoOrphans(owner);
    var i := 0;
    while i < |gids|
      invariant 0 <= i <= |gids|
      invariant groups == known - Elements(gids[..i])
      invariant table.Keys == start.Keys - Elements(gids[..i])
      invariant Lists(table, owner)
      invariant OrphansOf(orphans, owner, gids[..i])
    {
      var gid := gids[i];
      assert gids[..i + 1] == gids[..i] + [gid];
      assert Elements(gids[..i + 1]) == Elements(gids[..i]) + {gid};
      if gid !in start { NobodysList(owner, gid); }
      MoreOrphans(orphans, if gid in table then table[gid] else [], owner, gids[..i], gid);
      if gid in groups {
        groups := groups - {gid};
      }
      if gid in table {
        orphans := orphans + table[gid];
        table := table - {gid};
      } else {
        assert orphans + [] == orphans;
      }
      i := i + 1;
    }
    assert gids[..i] == gids;
  }

  lemma StayingFacts(config: Config, gids: seq<int>)
    ensures Owners(config.shards) <= Entries(config)
    ensures forall s :: 0 <= s < |config.shards| ==>
              (config.shards[s] in Entries(config) - Elements(gids) <==> config.shards[s] !in gids)
    ensures forall k :: k in Entries(config) - Elements(gids) ==> k !in gids
  {
  }

  lemma SomeoneStays(config: Config, gids: seq<int>)
    requires |config.groups - Elements(gids)| != 0
    ensures Entries(config) - Elements(gids) != {}
  {
    var left := config.groups - Elements(gids);
    assert left.Keys != {};
    var k := Sets.Pick(left.Keys);
    assert k in Entries(config) - Elements(gids);
  }

  lemma NoOrphans(owner: seq<int>)
    ensures OrphansOf([], owner, [])
  {
  }

  // ----- The state machine -----

  class ConfigStateMachine {
    var configs: seq<Config>

    ghost predicate Valid()
      reads this
    {
      && |configs| > 0
      && forall i :: 0 <= i < |configs| ==> configs[i].num == i && |configs[i].shards| == N_SHARDS
    }

    function Last(): Config
      requires |configs| > 0
      reads this
    {
      configs[|configs| - 1]
    }

    constructor ()
      ensures Valid() && configs == [Config(0, seq(N_SHARDS, _ => NO_GID), map[])]
    {
      configs := [Config(0, seq(N_SHARDS, _ => NO_GID), map[])];
    }

    /** The groups of the last configuration and those of `groups` that are new. */
    function Joined(groups: map<int, seq<string>>): map<int, seq<string>>
      requires |configs| > 0
      reads this
    {
      Merge(Last().groups, groups)
    }

    /** What Join puts in its table. */
    function JoinEntries(groups: map<int, seq<string>>): set<int>
      requires |configs| > 0
      reads this
    {
      Joined(groups).Keys + Owners(Last().shards)
    }

    /**
      * Join: add the new groups and spread the shards evenly over all entries of the table.
      * `rounds` is how long the call is watched; while its loop has not ended it has done nothing.
      */
    method Join(groups: map<int, seq<string>>, rounds: nat) returns (ended: bool)
      requires Valid()
      modifies this
      ensures Valid()
      ensures !MaySwapForever(old(JoinEntries(groups)), N_SHARDS) && rounds >= ENOUGH_ROUNDS ==> ended
      ensures !ended ==> configs == old(configs)
      ensures ended ==> |configs| == |old(configs)| + 1 && configs[..|old(configs)|] == old(configs)
      ensures ended ==> Last().groups == old(Joined(groups))
      ensures ended ==>
                Assigns(Last().shards, old(JoinEntries(groups))) && Balanced(Last().shards, old(JoinEntries(groups)))
      ensures ended && NO_GID !in old(JoinEntries(groups)) ==>
                Rebalanced(old(Last().shards), Last().shards, old(JoinEntries(groups)))
    {
      hide Count; hide ListOf; hide Lists; hide Balanced; hide OneWay; hide Merge; hide MaySwapForever;
      var last := configs[|configs| - 1];
      var all := AddGroups(last.groups, groups);
      var newConfig := Config(|configs|, last.shards, all);
      var start := Group2Shards(newConfig);
      assert Assigns(last.shards, start.Keys);
      ghost var owner;
      var table;
      ended, table, owner := Spread(start, last.shards, rounds);
      if ended {
        var newShards := Assignment(table, owner);
        configs := configs + [newConfig.(shards := newShards)];
      }
    }

    /** The entries that stay when some groups leave. */
    function Staying(gids: seq<int>): set<int>
      requires |configs| > 0
      reads this
    {
      Entries(Last()) - Elements(gids)
    }

    /** Leave: shards of leaving groups go, one by one, to an entry with the fewest shards. */
    method Leave(gids: seq<int>)
      requires Valid()
      modifies this
      ensures Valid() && |configs| == |old(configs)| + 1 && configs[..|old(configs)|] == old(configs)
      ensures Last().groups == old(Last().groups) - Elements(gids)
      ensures Last().groups == map[] ==> Last().shards == seq(N_SHARDS, _ => NO_GID)
      ensures Last().groups != map[] ==>
                && Assigns(Last().shards, old(Staying(gids)))
                && (forall s :: 0 <= s < N_SHARDS && old(Last().shards)[s] !in gids ==>
                      Last().shards[s] == old(Last().shards)[s])
                && (Balanced(old(Last().shards), old(Staying(gids))) ==>
                      Balanced(Last().shards, old(Staying(gids))))
                && ReceiversLow(old(Last().shards), Last().shards, old(Staying(gids)))
                && exists orphans :: OrphansOf(orphans, old(Last().shards), gids)
                                     && GivenToLeast(old(Last().shards), old(Staying(gids)), orphans, Last().shards)
    {
      hide Count; hide ListOf; hide Lists; hide OrphansOf; hide Balanced; hide Assigns; hide Owners; hide Elements;
      hide GivenToLeast; hide ReceiversLow;
      var last := configs[|configs| - 1];
      ghost var ks := Staying(gids);
      StayingFacts(last, gids);
      var start := Group2Shards(last);
      var table, groups, orphans := Remove(start, last.groups, last.shards, gids);
      var newShards := seq(N_SHARDS, _ => NO_GID);
      if |groups| != 0 {
        SomeoneStays(last, gids);
        ghost var owner;
        table, owner := Adopt(table, orphans, last.shards, gids, ks);
        newShards := Assignment(table, owner);
      }
      configs := configs + [Config(|configs|, newShards, groups)];
    }

    /** Move: give one shard to one group, whatever the balance. */
    method Move(shard: nat, gid: int)
      requires Valid() && shard < N_SHARDS
      modifies this
      ensures Valid() && |configs| == |old(configs)| + 1 && configs[..|old(configs)|] == old(configs)
      ensures Last().groups == old(Last().groups) && Last().shards == old(Last().shards)[shard := gid]
    {
      var last := configs[|configs| - 1];
      configs := configs + [Config(|configs|, last.shards[shard := gid], last.groups)];
    }

    /** Query: the numbered configuration, or the latest one for any other number. */
    method Query(num: int) returns (config: Config)
      requires Valid()
      ensures config in configs && config.num <= |configs| - 1
      ensures 0 <= num < |configs| ==> config.num == num
      ensures !(0 <= num < |configs|) ==> config.num == |configs| - 1
    {
      if num < 0 || num >= |configs| {
        config := configs[|configs| - 1];
      } else {
        config := configs[num];
      }
    }
  }

  /**
    * The first Join, of a single group: the pickers may keep the loop going for ever, since
    * all shards start at gid 0 and ten shards divide evenly over two entries.
    */
  lemma FirstJoinNeedNotEnd(gid: int, n: nat)
    requires gid != NO_GID
    ensures LastsFor(seq(N_SHARDS, _ => NO_GID), {NO_GID, gid}, n)
  {
    var owner: seq<int> := seq(N_SHARDS, _ => NO_GID);
    assert |{NO_GID, gid}| == 2;
    ForeverIff(owner, {NO_GID, gid}, [NO_GID, gid]);
  }

  /** Whenever that Join does end, half of the shards still have no group. */
  lemma FirstJoinLeavesHalf(gid: int, owner: seq<int>)
    requires gid != NO_GID && |owner| == N_SHARDS
    requires Assigns(owner, {NO_GID, gid}) && Balanced(owner, {NO_GID, gid})
    ensures Count(owner, NO_GID) == N_SHARDS / 2
  {
    var ks := {NO_GID, gid};
    assert |ks| == 2;
    BalancedShares(owner, ks, NO_GID);
    BalancedShares(owner, ks, gid);
    CountAll(owner, ks);
    CountOne(owner, ks, gid);
    assert ks - {gid} == {NO_GID};
    CountOne(owner, {NO_GID}, NO_GID);
    assert {NO_GID} - {NO_GID} == {};
    CountNone(owner);
  }
}
