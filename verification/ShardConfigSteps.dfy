/**
  * Appending a configuration keeps the invariant. It is only accepted while all shards are
  * Serving, whenever it was proposed. Then every shard that goes to another group is frozen at
  * its source and waits empty at its taker, and nothing moves for a shard that comes from
  * gid 0 or goes there.
  */
module ShardConfigSteps {
  import opened ShardTypes
  import opened ShardApply
  import opened ShardSystem
  import opened ShardInvariant
  import opened ShardMessageSteps
  import opened ShardGrowth
  import opened ShardOperationSteps

  lemma SomeOwnerStays(w: World, groups: map<nat, Group>, k: nat, n: nat, s: nat)
    requires Base(w, groups) && k <= n < |w.cfgs| && KeeperAt(w, k, s) != NO_GROUP
    ensures KeeperAt(w, n, s) != NO_GROUP
    decreases n - k
  {
    hide Base;
    OwnerFacts(w, groups, k, s);
    if k < n {
      SomeOwnerStays(w, groups, k + 1, n, s);
    }
  }

  /** A copy outside the owner's hands is empty once all shards are Serving. */
  lemma ForeignIsEmpty(w: World, g: nat, st: GroupState, s: nat)
    requires StateOK(w, g, st) && AllServing(st) && s < N_SHARDS && KeeperAt(w, st.currentConfig.num, s) != g
    ensures st.shards[s].kv == map[]
  {
    ShardAt(w, g, st, s);
  }

  lemma ConfiguredShard(w: World, g: nat, now: GroupState, st: GroupState, s: nat)
    requires WorldOK(w) && g in w.gids && StateOK(w, g, now) && AllServing(now)
    requires now.currentConfig.num + 1 < |w.cfgs|
    requires st == ApplyConfiguration(now, w.cfgs[now.currentConfig.num + 1]).0 && s < N_SHARDS
    ensures WellFormed(st) && ShardOK(w, g, st.currentConfig.num, s, st.shards[s])
    ensures st.shards[s].kv == now.shards[s].kv
    ensures Moves(w, st.currentConfig.num, s) ==>
              st.shards[s].status == if KeeperAt(w, st.currentConfig.num, s) == g then Pulling
                                     else if KeeperAt(w, st.currentConfig.num - 1, s) == g then BePulling else Serving
  {
    hide Lockstep;
    var n := now.currentConfig.num;
    assert w.cfgs[n + 1].num == n + 1;
    assert OwnerOK(w, n, s) && OwnerOK(w, n + 1, s);
    assert now.shards[s].status == Serving;
    if KeeperAt(w, n, s) != g { ForeignIsEmpty(w, g, now, s); }
  }

  lemma ConfiguredStateOK(w: World, g: nat, now: GroupState, st: GroupState)
    requires WorldOK(w) && g in w.gids && StateOK(w, g, now) && AllServing(now)
    requires now.currentConfig.num + 1 < |w.cfgs|
    requires st == ApplyConfiguration(now, w.cfgs[now.currentConfig.num + 1]).0
    ensures StateOK(w, g, st) && Progress(now, st) && st.currentConfig.num == now.currentConfig.num + 1
    ensures st.lastOperations == now.lastOperations
  {
    hide OwnerOK; hide ShardOK; hide UpdateStatuses;
    assert w.cfgs[now.currentConfig.num + 1].num == now.currentConfig.num + 1;
    forall s: nat | s < N_SHARDS
      ensures ShardOK(w, g, st.currentConfig.num, s, st.shards[s])
      ensures Moves(w, st.currentConfig.num, s) ==>
                st.shards[s].status == if KeeperAt(w, st.currentConfig.num, s) == g then Pulling
                                       else if KeeperAt(w, st.currentConfig.num - 1, s) == g then BePulling else Serving
    {
      ConfiguredShard(w, g, now, st, s);
    }
    hide ApplyConfiguration;
  }

  lemma ConfiguredJustified(w: World, groups: map<nat, Group>, g: nat, st: GroupState, n: nat, s: nat)
    requires WorldOK(w) && g in w.gids && g in groups && StateOK(w, g, groups[g].now) && AllServing(groups[g].now)
    requires groups[g].now.currentConfig.num + 1 < |w.cfgs|
    requires st == ApplyConfiguration(groups[g].now, w.cfgs[groups[g].now.currentConfig.num + 1]).0
    ensures JustifiedAt(w, groups, g, st, n, s)
  {
    ConfiguredStateOK(w, g, groups[g].now, st);
    if Moves(w, n, s) {
      ConfiguredShard(w, g, groups[g].now, st, s);
    }
    hide WorldOK; hide StateOK; hide ApplyConfiguration; hide Progress;
  }

  /** Nobody had the shard before its first owner gets there. */
  lemma BeforeFirstOwner(w: World, groups: map<nat, Group>, n: nat, s: nat)
    requires Base(w, groups) && n + 1 < |w.cfgs| && KeeperAt(w, n, s) == NO_GROUP && !Has(w, groups, n + 1, s)
    requires KeeperAt(w, n + 1, s) != NO_GROUP
    ensures Unborn(w, groups, s)
  {
    hide Base;
    forall k: nat ensures !Has(w, groups, k, s) {
      if Has(w, groups, k, s) {
        OwnerFacts(w, groups, k, s);
        if k <= n {
          SomeOwnerStays(w, groups, k, n, s);
        } else {
          ChainDown(w, groups, k, n + 1, s);
        }
      }
    }
  }

  ghost predicate Configured(w: World, sys: System, g: nat, st: GroupState, sys2: System) {
    && WorldOK(w) && g in sys.groups && StateOK(w, g, sys.groups[g].now) && AllServing(sys.groups[g].now)
    && sys.groups[g].now.currentConfig.num + 1 < |w.cfgs|
    && st == ApplyConfiguration(sys.groups[g].now, w.cfgs[sys.groups[g].now.currentConfig.num + 1]).0
    && sys2 == sys.(groups := sys2.groups)
    && sys2.groups == sys.groups[g := Grown(sys.groups[g], Configuration(w.cfgs[sys.groups[g].now.currentConfig.num + 1]), st)]
  }

  /** The group held the shard under the old configuration, or nobody ever did. */
  lemma ConfiguredHolds(w: World, sys: System, g: nat, st: GroupState, sys2: System, s: nat)
    requires Base(w, sys.groups) && StoreOK(w, sys) && Configured(w, sys, g, st, sys2) && s < N_SHARDS
    requires var n := sys.groups[g].now.currentConfig.num;
             || KeeperAt(w, n, s) == g
             || (KeeperAt(w, n + 1, s) == g && KeeperAt(w, n, s) == NO_GROUP)
    requires !Has(w, sys.groups, sys.groups[g].now.currentConfig.num + 1, s)
    ensures Holds(w, sys2, st, s)
  {
    var now := sys.groups[g].now;
    var n := now.currentConfig.num;
    NowOK(w, sys.groups, g);
    ConfiguredShard(w, g, now, st, s);
    ConfiguredStateOK(w, g, now, st);
    hide StateOK; hide ApplyConfiguration; hide FrozenOK;
    if KeeperAt(w, n, s) == g {
      assert now.shards[s].status == Serving;
      assert HolderOK(w, sys, n, s);
    } else {
      ForeignIsEmpty(w, g, now, s);
      BeforeFirstOwner(w, sys.groups, n, s);
      assert UnbornOK(w, sys, s);
    }
  }

  lemma ConfiguredHolder(w: World, sys: System, g: nat, st: GroupState, sys2: System, m: nat, s: nat)
    requires Base(w, sys.groups) && StoreOK(w, sys) && Configured(w, sys, g, st, sys2)
    requires forall n: nat, t: nat :: HasStays(w, sys.groups, sys2.groups, n, t)
    ensures HolderOK(w, sys2, m, s)
  {
    var now := sys.groups[g].now;
    ConfiguredStateOK(w, g, now, st) by { NowOK(w, sys.groups, g); }
    OwnerFacts(w, sys.groups, m, s);
    assert HolderOK(w, sys, m, s);
    assert HasStays(w, sys.groups, sys2.groups, m + 1, s);
    if Has(w, sys2.groups, m, s) && !Has(w, sys2.groups, m + 1, s) {
      if KeeperAt(w, m, s) == g {
        ConfiguredShard(w, g, now, st, s);
        hide StoreOK; hide Base; hide WorldOK; hide StateOK; hide ApplyConfiguration; hide Progress;
        if m == st.currentConfig.num {
          assert !Moves(w, m, s);
          ConfiguredHolds(w, sys, g, st, sys2, s);
        } else {
          assert Has(w, sys.groups, m, s);
        }
      }
    }
  }

  lemma ConfiguredFrozen(w: World, sys: System, g: nat, st: GroupState, sys2: System, s: nat)
    requires Base(w, sys.groups) && StoreOK(w, sys) && Configured(w, sys, g, st, sys2)
    requires forall n: nat, t: nat :: HasStays(w, sys.groups, sys2.groups, n, t)
    ensures FrozenOK(w, sys2, g, st, s)
  {
    var now := sys.groups[g].now;
    ConfiguredStateOK(w, g, now, st) by { NowOK(w, sys.groups, g); }
    var n := st.currentConfig.num;
    hide StoreOK; hide Base; hide StateOK; hide ApplyConfiguration; hide Progress; hide Holds;
    if Moves(w, n, s) && KeeperAt(w, n - 1, s) == g && !Has(w, sys2.groups, n, s) {
      assert HasStays(w, sys.groups, sys2.groups, n, s);
      ConfiguredHolds(w, sys, g, st, sys2, s);
    }
  }

  lemma ConfiguredKeepsInv(w: World, sys: System, g: nat, st: GroupState, sys2: System)
    requires Inv(w, sys) && Configured(w, sys, g, st, sys2)
    ensures Inv(w, sys2)
  {
    var now := sys.groups[g].now;
    var c := Configuration(w.cfgs[now.currentConfig.num + 1]);
    InvParts(w, sys);
    NowOK(w, sys.groups, g);
    ConfiguredStateOK(w, g, now, st);
    WorldFacts(w, sys.groups, g);
    hide Inv; hide Base; hide StoreOK; hide StateOK; hide Progress; hide WorldOK; hide Earlier; hide OpsSound;
    hide WholeBatch; hide Done; hide HolderOK; hide FrozenOK; hide MessagesOK; hide LogsOK; hide ReplaysOK;
    forall n: nat, s: nat ensures JustifiedAt(w, sys.groups, g, st, n, s) {
      ConfiguredJustified(w, sys.groups, g, st, n, s);
    }
    assert forall order :: SameResult(now, c, order, st);
    hide JustifiedAt; hide SameResult; hide ApplyConfiguration;
    QuietAppendOK(w, sys, g, c, st, sys2);
    forall n: nat, s: nat ensures HasStays(w, sys.groups, sys2.groups, n, s) {
      if Has(w, sys.groups, n, s) { HasGrows(w, sys.groups, g, c, st, n, s); }
    }
    hide Advances; hide HasStays; hide AppendOK;
    forall m: nat, s: nat ensures HolderOK(w, sys2, m, s) { ConfiguredHolder(w, sys, g, st, sys2, m, s); }
    forall s: nat ensures FrozenOK(w, sys2, g, st, s) { ConfiguredFrozen(w, sys, g, st, sys2, s); }
    ClientFacts(w, sys, g);
    AppendKeepsInv(w, sys, g, c, st, sys2);
  }

  lemma WorldFacts(w: World, groups: map<nat, Group>, g: nat)
    requires Base(w, groups) && g in groups
    ensures WorldOK(w) && g in w.gids
  {
  }

  lemma ConfigurationKeepsInv(w: World, sys: System, g: nat, config: Config, order: seq<nat>)
    requires Inv(w, sys) && Shaped(sys) && g in sys.groups && CommandOK(w, sys, g, Configuration(config))
    requires |config.shards| == N_SHARDS
    ensures Inv(w, NextAppend(sys, g, Configuration(config), order))
  {
    var now := sys.groups[g].now;
    var sys2 := NextAppend(sys, g, Configuration(config), order);
    hide Was; hide UpdateStatuses; hide ClientsOK; hide MessagesOK; hide StoreOK; hide LogsOK; hide ReplaysOK;
    if config.num == now.currentConfig.num + 1 {
      NowOK(w, sys.groups, g);
      hide Inv;
      ConfiguredKeepsInv(w, sys, g, ApplyConfiguration(now, config).0, sys2);
    } else {
      InvParts(w, sys);
      hide Inv;
      ClientFacts(w, sys, g);
      UnchangedKeepsInv(w, sys, g, Configuration(config), sys2);
    }
  }
}
