/** What happens to the content of a shard that gid 0 has for a while. */
module ShardThroughZero {
  import opened ShardTypes
  import opened ShardApply
  import opened ShardSystem
  import opened ShardSafety
  import opened ShardRuns

  // The content survives exactly when the next owner is the last one, or there was nothing in
  // it. WorldOK asks for the former; in a world that breaks it there is a run in which two
  // groups serve the same shard with different contents.

  // ----- One shard, two groups, any number of configurations at gid 0 -----

  /** Configurations numbered on from `num`. */
  predicate Numbered(cs: seq<Config>, num: nat) {
    forall i :: 0 <= i < |cs| ==> cs[i].num == num + 1 + i && |cs[i].shards| == N_SHARDS
  }

  /** A group that applies these configurations one after the other. */
  function ApplyAll(st: GroupState, cs: seq<Config>): (r: GroupState)
    requires WellFormed(st) && Numbered(cs, st.currentConfig.num)
    ensures WellFormed(r)
    decreases |cs|
  {
    if cs == [] then st
    else
      var next := ApplyConfiguration(st, cs[0]).0;
      assert Numbered(cs[1..], next.currentConfig.num) by {
        assert forall i :: 0 <= i < |cs[1..]| ==> cs[1..][i] == cs[i + 1];
      }
      ApplyAll(next, cs[1..])
  }

  /** From its owner or from gid 0 to gid 0, and from there to anybody: no status, no content changes. */
  lemma {:induction false} GapChangesNothing(st: GroupState, cs: seq<Config>, s: nat)
    requires WellFormed(st) && Numbered(cs, st.currentConfig.num) && s < N_SHARDS && st.gid != NO_GROUP
    requires forall i :: 0 <= i < |cs| - 1 ==> cs[i].shards[s] == NO_GROUP
    requires |cs| >= 2 || (|cs| == 1 && st.currentConfig.shards[s] == NO_GROUP)
    ensures var r := ApplyAll(st, cs);
            && r.gid == st.gid && r.shards[s] == st.shards[s] && r.currentConfig == cs[|cs| - 1]
    decreases |cs|
  {
    var next := ApplyConfiguration(st, cs[0]).0;
    assert next.shards[s] == st.shards[s];
    if |cs| > 1 {
      assert forall i :: 0 <= i < |cs[1..]| ==> cs[1..][i] == cs[i + 1];
      GapChangesNothing(next, cs[1..], s);
    } else {
      assert ApplyAll(st, cs) == ApplyAll(next, []) == next;
    }
  }

  /**
    * Group `last` serves shard s; then gid 0 has it for one or more configurations, and
    * then group `next` gets it. What `next` serves is what `last` had if and only if they
    * are the same group or there was nothing.
    */
  lemma ContentThroughZero(last: GroupState, next: GroupState, cs: seq<Config>, s: nat)
    requires WellFormed(last) && WellFormed(next) && s < N_SHARDS && |cs| >= 2
    requires last.gid != NO_GROUP && next.gid != NO_GROUP && last.currentConfig == next.currentConfig
    requires CanServe(last, s) && last.shards[s].status == Serving
    requires if next.gid == last.gid then next == last else next.shards[s] == NewShard()
    requires Numbered(cs, last.currentConfig.num)
    requires forall i :: 0 <= i < |cs| - 1 ==> cs[i].shards[s] == NO_GROUP
    requires cs[|cs| - 1].shards[s] == next.gid
    ensures CanServe(ApplyAll(next, cs), s)
    ensures ApplyAll(next, cs).shards[s].kv == last.shards[s].kv <==> next.gid == last.gid || last.shards[s].kv == map[]
    ensures next.gid != last.gid ==>
              !CanServe(ApplyAll(last, cs), s) && ApplyAll(last, cs).shards[s] == last.shards[s]
  {
    GapChangesNothing(next, cs, s);
    GapChangesNothing(last, cs, s);
  }

  // ----- A run in which the content is lost -----

  /** The ten shards all with one group. */
  function AllWith(g: nat): seq<nat> {
    [g, g, g, g, g, g, g, g, g, g]
  }

  /** Everything goes to group a, then to gid 0, then to group b; one client puts one value. */
  function LossWorld(a: nat, b: nat, put: Request): World {
    World({a, b},
          [DEFAULT_CONFIG, Config(1, AllWith(a)), Config(2, AllWith(NO_GROUP)), Config(3, AllWith(b))],
          {put})
  }

  /** Only the step from gid 0 to another group than the last keeps this world from being a good one. */
  lemma OnlyTheGapIsWrong(a: nat, b: nat, put: Request, n: nat, s: nat)
    requires a != NO_GROUP && b != NO_GROUP && a != b && s < N_SHARDS
    ensures OwnerOK(LossWorld(a, b, put), n, s) <==> n != 2
  {
    var w := LossWorld(a, b, put);
    assert KeeperAt(w, 2, s) == KeeperAt(w, 1, s) == a;
    assert KeeperAt(w, 0, s) == NO_GROUP;
  }

  lemma PutStores(st: GroupState, put: Request)
    requires WellFormed(st) && put.op == OpPut && TakesEffect(st, Operation(put))
    ensures var r := ApplyOperation(st, put).0; var k := Key2Shard(put.key);
            WellFormed(r) && CanServe(r, k) && r.shards[k].kv == st.shards[k].kv[put.key := put.value]
  {
  }

  /** The client's write reaches group g and takes effect there. */
  lemma PutAt(w: World, t: Trace, g: nat, put: Request) returns (t2: Trace)
    requires t.Valid(w) && g in t.Now().groups && put in w.issued && put.op == OpPut
    requires Outstanding(w, t.Now().answered, put)
    requires TakesEffect(t.Now().groups[g].now, Operation(put))
    ensures WellFormed(t.Now().groups[g].now) && |t.Now().store| == N_SHARDS
    ensures t2.Valid(w) && g in t2.Now().groups && t2.Now().groups.Keys == t.Now().groups.Keys
    ensures forall h :: h in t.Now().groups && h != g ==> t2.Now().groups[h] == t.Now().groups[h]
    ensures var k := Key2Shard(put.key); var was, st := t.Now().groups[g].now, t2.Now().groups[g].now;
            && WellFormed(st) && CanServe(st, k) && st.shards[k].kv == was.shards[k].kv[put.key := put.value]
    ensures var k := Key2Shard(put.key); t2.Now().store == t.Now().store[k := Update(t.Now().store[k], put)]
    ensures Name(put) in t2.Now().answered
  {
    hide Steps; hide ApplyOperation; hide Outstanding; hide Update;
    var t1 := Extend(w, t, Submit(g, put));
    assert Proposal(g, Operation(put)) in t1.Now().msgs;
    t2 := Extend(w, t1, Append(g, Operation(put), []));
    PutStores(t.Now().groups[g].now, put);
  }

  /** A group's state whose shards are all Serving, and how a configuration without moves changes it. */
  lemma Unmoved(st: GroupState, owner: nat, next: Config)
    requires WellFormed(st) && AllServing(st) && st.gid != NO_GROUP && next.num == st.currentConfig.num + 1
    requires st.currentConfig.shards == AllWith(owner) && exists g :: next.shards == AllWith(g) && (owner == NO_GROUP || g == NO_GROUP)
    ensures |next.shards| == N_SHARDS
    ensures var r := ApplyConfiguration(st, next).0;
            && WellFormed(r) && AllServing(r) && r.gid == st.gid && r.currentConfig == next
            && r.shards == st.shards && r.lastOperations == st.lastOperations
  {
    var r := ApplyConfiguration(st, next).0;
    forall s | 0 <= s < N_SHARDS ensures r.shards[s] == st.shards[s] {
      assert st.shards[s].status == Serving;
    }
    assert r.shards == st.shards;
  }

  /**
    * In that world there is a run after which both groups serve the key's shard. The put is
    * answered and group a has it, while group b serves the shard empty.
    */
  lemma LossWitness(a: nat, b: nat, put: Request) returns (t: Trace)
    requires a != NO_GROUP && b != NO_GROUP && a != b && put.op == OpPut
    ensures t.Valid(LossWorld(a, b, put)) && a in t.Now().groups && b in t.Now().groups
    ensures var s := Key2Shard(put.key); var first, second := t.Now().groups[a].now, t.Now().groups[b].now;
            && WellFormed(first) && WellFormed(second) && CanServe(first, s) && CanServe(second, s)
            && Name(put) in t.Now().answered && |t.Now().store| == N_SHARDS
            && t.Now().store[s] == first.shards[s].kv == map[put.key := put.value]
            && second.shards[s].kv == map[]
  {
    var w := LossWorld(a, b, put);
    hide Steps; hide Shaped; hide ApplyConfiguration; hide ApplyOperation; hide Later;
    t := Start(w);
    Unmoved(InitialState(a), NO_GROUP, w.cfgs[1]);
    t := AdoptNext(w, t, a);
    t := PutAt(w, t, a, put);
    var b0 := InitialState(b);
    Unmoved(b0, NO_GROUP, w.cfgs[1]);
    t := AdoptNext(w, t, b);
    var b1 := ApplyConfiguration(b0, w.cfgs[1]).0;
    Unmoved(b1, a, w.cfgs[2]);
    t := AdoptNext(w, t, b);
    var b2 := ApplyConfiguration(b1, w.cfgs[2]).0;
    Unmoved(b2, NO_GROUP, w.cfgs[3]);
    t := AdoptNext(w, t, b);
  }
}
