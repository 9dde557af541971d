/**
  * What an append does to everything but the group that appends: facts about which
  * configurations were reached, taken and dropped only grow, and a frozen copy stays good. So
  * messages that were right stay right however late they arrive. One lemma at the end reduces
  * each command to what it does to its own group.
  */
module ShardGrowth {
  import opened ShardTypes
  import opened ShardApply
  import opened ShardSystem
  import opened ShardInvariant
  import opened ShardMessageSteps

  // ----- One group moves on -----

  lemma ReachedGrows(w: World, g: nat, a: GroupState, b: GroupState, n: nat, s: nat)
    requires StateOK(w, g, a) && StateOK(w, g, b) && Progress(a, b) && KeeperAt(w, n, s) == g && Reached(a, n, s)
    ensures Reached(b, n, s)
  {
    hide Lockstep;
    if b.currentConfig.num == n {
      ShardAt(w, g, a, s);
      ShardAt(w, g, b, s);
      assert ShardLater(a.shards[s], b.shards[s]);
    }
  }

  lemma DoneGrows(a: GroupState, b: GroupState, n: nat, s: nat)
    requires Progress(a, b) && Done(a, n, s)
    ensures Done(b, n, s)
  {
    if b.currentConfig.num == n {
      assert ShardLater(a.shards[s], b.shards[s]);
    }
  }

  lemma ProgressThrough(a: GroupState, b: GroupState, c: GroupState)
    requires Progress(a, b) && Progress(b, c)
    ensures Progress(a, c)
  {
    if a.currentConfig.num == c.currentConfig.num {
      forall s | 0 <= s < |a.shards| ensures ShardLater(a.shards[s], c.shards[s]) {
        assert ShardLater(a.shards[s], b.shards[s]) && ShardLater(b.shards[s], c.shards[s]);
      }
    }
  }

  /** What the new state of group g may claim about shard s under configuration n. */
  predicate JustifiedAt(w: World, groups: map<nat, Group>, g: nat, st: GroupState, n: nat, s: nat)
    requires g in groups
  {
    Moves(w, n, s) && KeeperAt(w, n - 1, s) in groups && KeeperAt(w, n, s) in groups ==>
      var source, taker, now := groups[KeeperAt(w, n - 1, s)].now, groups[KeeperAt(w, n, s)].now, groups[g].now;
      && (KeeperAt(w, n, s) == g && Reached(st, n, s) ==> Reached(now, n, s) || source.currentConfig.num >= n)
      && (KeeperAt(w, n - 1, s) == g && Done(st, n, s) ==> Done(now, n, s) || Reached(taker, n, s))
      && (KeeperAt(w, n, s) == g && Done(st, n, s) ==> Done(now, n, s) || Done(source, n, s))
  }

  ghost predicate Advances(w: World, groups: map<nat, Group>, g: nat, st: GroupState) {
    && g in groups && StateOK(w, g, st) && Progress(groups[g].now, st)
    && forall n: nat, s: nat :: JustifiedAt(w, groups, g, st, n, s)
  }

  lemma HasGrows(w: World, groups: map<nat, Group>, g: nat, c: Command, st: GroupState, n: nat, s: nat)
    requires Base(w, groups) && Advances(w, groups, g, st) && Has(w, groups, n, s)
    ensures Has(w, groups[g := Grown(groups[g], c, st)], n, s)
  {
    if KeeperAt(w, n, s) == g {
      NowOK(w, groups, g);
      ReachedGrows(w, g, groups[g].now, st, n, s);
    }
  }

  lemma GateGrows(w: World, groups: map<nat, Group>, g: nat, c: Command, st: GroupState, n: nat, s: nat)
    requires Base(w, groups) && Advances(w, groups, g, st)
    ensures GateOK(w, groups[g := Grown(groups[g], c, st)], n, s)
  {
    NowOK(w, groups, g);
    OwnerFacts(w, groups, n, s);
    if n > 0 { OwnerFacts(w, groups, n - 1, s); }
    assert JustifiedAt(w, groups, g, st, n, s);
    hide Base; hide StateOK; hide Progress; hide JustifiedAt; hide Reached; hide Done;
    if Moves(w, n, s) {
      if KeeperAt(w, n, s) == g {
        TakerGate(w, groups, g, st, n, s);
      } else if KeeperAt(w, n - 1, s) == g {
        SourceGate(w, groups, g, st, n, s);
      }
    }
  }

  lemma TakerGate(w: World, groups: map<nat, Group>, g: nat, st: GroupState, n: nat, s: nat)
    requires Moves(w, n, s) && g == KeeperAt(w, n, s) && g in groups && KeeperAt(w, n - 1, s) in groups
    requires GateOK(w, groups, n, s) && JustifiedAt(w, groups, g, st, n, s)
    requires StateOK(w, g, groups[g].now) && StateOK(w, g, st) && Progress(groups[g].now, st)
    ensures var source := groups[KeeperAt(w, n - 1, s)].now;
            && (Reached(st, n, s) ==> source.currentConfig.num >= n)
            && (Done(source, n, s) ==> Reached(st, n, s))
            && (Done(st, n, s) ==> Done(source, n, s))
  {
    hide StateOK; hide Progress;
    if Reached(groups[g].now, n, s) { ReachedGrows(w, g, groups[g].now, st, n, s); }
  }

  lemma SourceGate(w: World, groups: map<nat, Group>, g: nat, st: GroupState, n: nat, s: nat)
    requires Moves(w, n, s) && g == KeeperAt(w, n - 1, s) && g in groups && KeeperAt(w, n, s) in groups
    requires GateOK(w, groups, n, s) && JustifiedAt(w, groups, g, st, n, s)
    requires Progress(groups[g].now, st)
    ensures var taker := groups[KeeperAt(w, n, s)].now;
            && (Reached(taker, n, s) ==> st.currentConfig.num >= n)
            && (Done(st, n, s) ==> Reached(taker, n, s))
            && (Done(taker, n, s) ==> Done(st, n, s))
  {
    if Done(groups[g].now, n, s) { DoneGrows(groups[g].now, st, n, s); }
  }

  lemma GroupGrows(w: World, g: nat, group: Group, c: Command, st: GroupState)
    requires GroupOK(w, g, group) && StateOK(w, g, st) && Progress(group.now, st)
    ensures GroupOK(w, g, Grown(group, c, st))
  {
    hide StateOK; hide Progress;
    var group2 := Grown(group, c, st);
    SelfProgress(st);
    forall x | Was(group2, x) ensures StateOK(w, g, x) && Progress(x, st) {
      if x != st {
        assert Was(group, x);
        ProgressThrough(x, group.now, st);
      }
    }
  }

  lemma SelfProgress(st: GroupState)
    ensures Progress(st, st)
  {
  }

  lemma BaseGrows(w: World, groups: map<nat, Group>, g: nat, c: Command, st: GroupState)
    requires Base(w, groups) && Advances(w, groups, g, st)
    ensures Base(w, groups[g := Grown(groups[g], c, st)])
  {
    var groups2 := groups[g := Grown(groups[g], c, st)];
    hide GateOK; hide GroupOK; hide WorldOK; hide StateOK; hide Progress; hide JustifiedAt;
    forall h | h in groups2 ensures GroupOK(w, h, groups2[h]) {
      if h == g { GroupGrows(w, g, groups[g], c, st); }
    }
    forall n: nat, s: nat ensures GateOK(w, groups2, n, s) {
      GateGrows(w, groups, g, c, st, n, s);
    }
  }

  // ----- The system moves on -----

  /** Neither the content of shard s nor the writes behind it change. */
  ghost predicate SameShard(w: World, sys: System, sys2: System, s: nat) {
    && s < |sys.store| == |sys2.store| && sys2.store[s] == sys.store[s]
    && forall r :: r in w.issued && r.op != OpGet && Key2Shard(r.key) == s && Name(r) in sys2.effects ==> Name(r) in sys.effects
  }

  lemma CoversGrows(w: World, sys: System, sys2: System, s: nat, ops: Dedup, ops2: Dedup)
    requires SameShard(w, sys, sys2, s) && Covers(w, sys.effects, s, ops) && OpsGrow(ops, ops2)
    ensures Covers(w, sys2.effects, s, ops2)
  {
  }

  ghost predicate FrozenStays(w: World, sys: System, sys2: System, n: nat, s: nat) {
    Moves(w, n, s) && !Has(w, sys.groups, n, s) && KeeperAt(w, n - 1, s) in sys.groups
      && sys.groups[KeeperAt(w, n - 1, s)].now.currentConfig.num >= n ==>
      SameShard(w, sys, sys2, s)
  }

  ghost predicate HasStays(w: World, groups: map<nat, Group>, groups2: map<nat, Group>, n: nat, s: nat) {
    Has(w, groups, n, s) ==> Has(w, groups2, n, s)
  }

  ghost predicate Grows(w: World, sys: System, sys2: System) {
    && sys2.groups.Keys == sys.groups.Keys
    && (forall h :: h in sys.groups ==> Progress(sys.groups[h].now, sys2.groups[h].now))
    && sys.effects <= sys2.effects
    && (forall n: nat, s: nat :: HasStays(w, sys.groups, sys2.groups, n, s))
    && (forall n: nat, s: nat :: FrozenStays(w, sys, sys2, n, s))
  }

  lemma DataGrows(w: World, sys: System, sys2: System, source: nat, taker: nat, data: ShardsReply)
    requires Grows(w, sys, sys2) && DataOK(w, sys, source, taker, data)
    ensures DataOK(w, sys2, source, taker, data)
  {
    hide Has; hide Covers; hide Moves; hide SameShard; hide OpsGrow;
    assert Progress(sys.groups[source].now, sys2.groups[source].now);
    forall s: nat | s in data.shards ensures DataAt(w, sys2, data, s) {
      assert DataAt(w, sys, data, s) && Between(w, data.configNum, source, taker, s);
      assert HasStays(w, sys.groups, sys2.groups, data.configNum, s);
      assert FrozenStays(w, sys, sys2, data.configNum, s);
      if !Has(w, sys.groups, data.configNum, s) {
        DataStays(w, sys, sys2, data, s);
      }
    }
  }

  lemma DataStays(w: World, sys: System, sys2: System, data: ShardsReply, s: nat)
    requires DataAt(w, sys, data, s) && !Has(w, sys.groups, data.configNum, s) && SameShard(w, sys, sys2, s)
    ensures DataAt(w, sys2, data, s)
  {
    hide Has;
    CoversGrows(w, sys, sys2, s, data.lastOperations, data.lastOperations);
  }

  lemma TakenGrows(w: World, sys: System, sys2: System, source: nat, taker: nat, ask: ShardsRequest)
    requires Grows(w, sys, sys2) && TakenOK(w, sys.groups, source, taker, ask)
    ensures TakenOK(w, sys2.groups, source, taker, ask)
  {
    hide Has; hide Progress; hide FrozenStays; hide WholeBatch;
    forall s: nat | s in ask.shardIds ensures Has(w, sys2.groups, ask.configNum, s) {
      assert HasStays(w, sys.groups, sys2.groups, ask.configNum, s);
    }
  }

  lemma DroppedGrows(w: World, sys: System, sys2: System, source: nat, taker: nat, ask: ShardsRequest)
    requires Grows(w, sys, sys2) && DroppedOK(w, sys.groups, source, taker, ask)
    ensures DroppedOK(w, sys2.groups, source, taker, ask)
  {
    hide Done; hide HasStays; hide Progress; hide FrozenStays; hide WholeBatch;
    forall s: nat | s in ask.shardIds ensures Done(sys2.groups[source].now, ask.configNum, s) {
      DoneGrows(sys.groups[source].now, sys2.groups[source].now, ask.configNum, s);
    }
  }

  lemma ConfigurationGrows(w: World, a: GroupState, b: GroupState, c: Config)
    requires ConfigurationOK(w, a, c) && Progress(a, b)
    ensures ConfigurationOK(w, b, c)
  {
    if b.currentConfig.num == c.num - 1 {
      forall s | 0 <= s < |b.shards| ensures b.shards[s].status == Serving {
        assert ShardLater(a.shards[s], b.shards[s]);
      }
    }
  }

  lemma MessageGrows(w: World, sys: System, sys2: System, m: Message)
    requires Grows(w, sys, sys2) && MessageOK(w, sys, m)
    ensures MessageOK(w, sys2, m)
  {
    hide DataOK; hide TakenOK; hide DroppedOK; hide WholeBatch; hide HasStays; hide FrozenStays; hide Progress;
    hide ConfigurationOK;
    match m
    case Proposal(to, c) =>
      match c {
        case Configuration(config) => ConfigurationGrows(w, sys.groups[to].now, sys2.groups[to].now, config);
        case InsertShards(data) =>
          var source :| DataOK(w, sys, source, to, data);
          DataGrows(w, sys, sys2, source, to, data);
        case DeleteShards(ask) =>
          var peer :| TakenOK(w, sys.groups, to, peer, ask) || DroppedOK(w, sys.groups, peer, to, ask);
          if TakenOK(w, sys.groups, to, peer, ask) {
            TakenGrows(w, sys, sys2, to, peer, ask);
          } else {
            DroppedGrows(w, sys, sys2, peer, to, ask);
          }
        case _ =>
      }
    case PullAsk(to, from, ask) =>
    case PullAnswer(to, from, data) => DataGrows(w, sys, sys2, from, to, data);
    case DeleteAsk(to, from, ask) => TakenGrows(w, sys, sys2, to, from, ask);
    case DeleteDone(to, from, ask) => DroppedGrows(w, sys, sys2, from, to, ask);
  }

  // ----- One append, given what its command did -----

  /** What an append of c at g has to provide. */
  ghost predicate AppendOK(w: World, sys: System, g: nat, c: Command, st: GroupState, sys2: System) {
    && g in sys.groups && Advances(w, sys.groups, g, st)
    && sys2.groups == sys.groups[g := Grown(sys.groups[g], c, st)] && sys2.msgs == sys.msgs
    && |sys2.store| == N_SHARDS && sys.effects <= sys2.effects
    && (forall n: nat, s: nat :: FrozenStays(w, sys, sys2, n, s))
    && (forall s: nat :: Unborn(w, sys.groups, s) && s < N_SHARDS ==> SameShard(w, sys, sys2, s))
    && (forall order :: SameResult(sys.groups[g].now, c, order, st))
  }

  ghost predicate SameResult(now: GroupState, c: Command, order: seq<nat>, st: GroupState) {
    WellFormed(now) && Applicable(c, order) ==> Apply(now, c, order).0 == st
  }

  /** ... and what it does to shards and clients. */
  ghost predicate ContentOK(w: World, sys: System, g: nat, c: Command, st: GroupState, sys2: System)
    requires g in sys.groups
  {
    && (forall m: nat, s: nat :: HolderOK(w, sys2, m, s))
    && (st.currentConfig.num == sys.groups[g].now.currentConfig.num || forall s: nat :: FrozenOK(w, sys2, g, st, s))
    && OpsSound(sys2.effects, st.lastOperations)
    && (forall e :: e in sys2.effects ==> Earlier(w, sys2.effects, e))
    && sys2.answered <= sys2.effects
    && (forall ask, taker :: c == DeleteShards(ask) && WholeBatch(w, ask.configNum, g, taker, ask.shardIds) ==>
          forall s: nat :: s in ask.shardIds ==> Done(st, ask.configNum, s))
  }

  lemma AppendGrows(w: World, sys: System, g: nat, c: Command, st: GroupState, sys2: System)
    requires Base(w, sys.groups) && AppendOK(w, sys, g, c, st, sys2)
    ensures Grows(w, sys, sys2)
  {
    hide Has; hide FrozenStays; hide StateOK; hide Base; hide JustifiedAt;
    forall h | h in sys.groups ensures Progress(sys.groups[h].now, sys2.groups[h].now) {
      SelfProgress(sys.groups[h].now);
    }
    hide Progress; hide Advances;
    forall n: nat, s: nat ensures HasStays(w, sys.groups, sys2.groups, n, s) {
      if Has(w, sys.groups, n, s) { HasGrows(w, sys.groups, g, c, st, n, s); }
    }
  }

  /** A frozen copy in state y is still good in a state x that shows the same copy. */
  lemma FrozenKept(w: World, sys: System, sys2: System, h: nat, y: GroupState, x: GroupState, s: nat)
    requires Grows(w, sys, sys2) && FrozenOK(w, sys, h, y, s)
    requires h in sys.groups && Was(sys.groups[h], y) && Progress(y, sys.groups[h].now)
    requires y.currentConfig.num == x.currentConfig.num && OpsGrow(y.lastOperations, x.lastOperations)
    requires s < |x.shards| && s < |y.shards| && y.shards[s] == x.shards[s]
    ensures FrozenOK(w, sys2, h, x, s)
  {
    hide Has; hide Covers; hide OpsGrow; hide SameShard;
    var n := x.currentConfig.num;
    if Moves(w, n, s) && KeeperAt(w, n - 1, s) == h && x.shards[s].status == BePulling && !Has(w, sys2.groups, n, s) {
      assert HasStays(w, sys.groups, sys2.groups, n, s);
      assert FrozenStays(w, sys, sys2, n, s);
      HoldsKept(w, sys, sys2, y, x, s);
    }
  }

  lemma HoldsKept(w: World, sys: System, sys2: System, y: GroupState, x: GroupState, s: nat)
    requires Holds(w, sys, y, s) && SameShard(w, sys, sys2, s) && OpsGrow(y.lastOperations, x.lastOperations)
    requires s < |x.shards| && y.shards[s].kv == x.shards[s].kv
    ensures Holds(w, sys2, x, s)
  {
    CoversGrows(w, sys, sys2, s, y.lastOperations, x.lastOperations);
  }

  lemma FrozenGrows(w: World, sys: System, g: nat, c: Command, st: GroupState, sys2: System, h: nat, x: GroupState, s: nat)
    requires Base(w, sys.groups) && StoreOK(w, sys) && Grows(w, sys, sys2)
    requires g in sys.groups && Progress(sys.groups[g].now, st)
    requires sys2.groups == sys.groups[g := Grown(sys.groups[g], c, st)]
    requires st.currentConfig.num == sys.groups[g].now.currentConfig.num || FrozenOK(w, sys2, g, st, s)
    ensures FrozenOK(w, sys2, h, x, s)
  {
    hide Has; hide Moves; hide Holds; hide HolderOK; hide UnbornOK; hide Grows; hide Base;
    if h in sys.groups && Was(sys2.groups[h], x) && s < |x.shards| && x.shards[s].status == BePulling {
      if Was(sys.groups[h], x) {
        WasOK(w, sys.groups, h, x);
        FrozenKept(w, sys, sys2, h, x, x, s);
      } else if st.currentConfig.num == sys.groups[g].now.currentConfig.num {
        var now := sys.groups[g].now;
        assert Was(sys.groups[g], now);
        SelfProgress(now);
        assert ShardLater(now.shards[s], st.shards[s]);
        FrozenKept(w, sys, sys2, g, now, st, s);
      }
    }
  }

  lemma NewProgress(w: World, sys: System, g: nat, c: Command, st: GroupState, sys2: System)
    requires AppendOK(w, sys, g, c, st, sys2)
    ensures g in sys.groups && Progress(sys.groups[g].now, st)
    ensures sys2.groups == sys.groups[g := Grown(sys.groups[g], c, st)]
  {
    hide Progress; hide FrozenStays; hide Unborn; hide SameResult;
  }

  lemma StoreGrows(w: World, sys: System, g: nat, c: Command, st: GroupState, sys2: System)
    requires Base(w, sys.groups) && StoreOK(w, sys) && AppendOK(w, sys, g, c, st, sys2) && ContentOK(w, sys, g, c, st, sys2)
    requires Grows(w, sys, sys2)
    ensures StoreOK(w, sys2)
  {
    hide Base; hide Advances; hide SameResult; hide Has; hide HolderOK; hide FrozenOK; hide Progress; hide OpsSound;
    hide Earlier; hide WholeBatch; hide Done; hide FrozenStays;
    NewProgress(w, sys, g, c, st, sys2);
    forall h, x, s: nat ensures FrozenOK(w, sys2, h, x, s) {
      FrozenGrows(w, sys, g, c, st, sys2, h, x, s);
    }
    forall s: nat ensures UnbornOK(w, sys2, s) {
      UnbornGrows(w, sys, g, c, st, sys2, s);
    }
  }

  lemma UnbornGrows(w: World, sys: System, g: nat, c: Command, st: GroupState, sys2: System, s: nat)
    requires StoreOK(w, sys) && AppendOK(w, sys, g, c, st, sys2) && Grows(w, sys, sys2)
    ensures UnbornOK(w, sys2, s)
  {
    hide Base; hide Advances; hide SameResult; hide Has; hide HolderOK; hide FrozenOK; hide Progress;
    hide FrozenStays; hide Covers;
    if s < |sys2.store| && Unborn(w, sys2.groups, s) {
      forall m: nat ensures !Has(w, sys.groups, m, s) {
        assert HasStays(w, sys.groups, sys2.groups, m, s);
      }
      assert Unborn(w, sys.groups, s);
      assert UnbornOK(w, sys, s);
      CoversGrows(w, sys, sys2, s, map[], map[]);
    }
  }

  lemma ClientsGrow(w: World, sys: System, g: nat, c: Command, st: GroupState, sys2: System)
    requires ClientsOK(w, sys) && AppendOK(w, sys, g, c, st, sys2) && ContentOK(w, sys, g, c, st, sys2)
    ensures ClientsOK(w, sys2)
  {
    hide Advances; hide SameResult; hide HolderOK; hide FrozenOK; hide FrozenStays; hide Unborn; hide Earlier;
    hide WholeBatch; hide Done;
    forall h, x | h in sys2.groups && Was(sys2.groups[h], x) ensures OpsSound(sys2.effects, x.lastOperations) {
      if !(h == g && x == st) {
        assert Was(sys.groups[h], x);
        assert OpsSound(sys.effects, x.lastOperations);
      }
    }
  }

  lemma LogsGrow(w: World, sys: System, g: nat, c: Command, st: GroupState, sys2: System)
    requires LogsOK(w, sys.groups) && AppendOK(w, sys, g, c, st, sys2) && ContentOK(w, sys, g, c, st, sys2)
    ensures LogsOK(w, sys2.groups)
  {
    hide SameResult; hide HolderOK; hide FrozenOK; hide FrozenStays; hide Unborn; hide Earlier; hide WholeBatch;
    hide Done; hide StateOK; hide Progress; hide OpsSound;
    forall h | h in sys2.groups ensures LogOK(w, h, sys2.groups[h]) {
      assert LogOK(w, h, sys.groups[h]);
      if h == g {
        forall ask, taker, s: nat | DeleteShards(ask) in sys.groups[g].log && WholeBatch(w, ask.configNum, g, taker, ask.shardIds) && s in ask.shardIds
          ensures Done(st, ask.configNum, s)
        {
          DoneGrows(sys.groups[g].now, st, ask.configNum, s);
        }
      }
    }
  }

  lemma ReplaysGrow(w: World, sys: System, g: nat, c: Command, st: GroupState, sys2: System)
    requires ReplaysOK(sys.groups) && AppendOK(w, sys, g, c, st, sys2)
    ensures ReplaysOK(sys2.groups)
  {
    hide FrozenStays; hide Unborn; hide Advances; hide Apply; hide Applicable; hide WellFormed;
    forall h | h in sys2.groups ensures ReplayOK(h, sys2.groups[h]) {
      assert ReplayOK(h, sys.groups[h]);
      if h == g {
        var group, group2 := sys.groups[g], sys2.groups[g];
        forall j: nat, order ensures ReplayStep(group2, j, order) {
          assert ReplayStep(group, j, order);
          assert SameResult(group.now, c, order, st);
        }
      }
    }
  }

  lemma AppendKeepsInv(w: World, sys: System, g: nat, c: Command, st: GroupState, sys2: System)
    requires Inv(w, sys) && AppendOK(w, sys, g, c, st, sys2)
    requires g in sys.groups && ContentOK(w, sys, g, c, st, sys2)
    ensures Inv(w, sys2)
  {
    hide Base; hide StoreOK; hide ClientsOK; hide LogsOK; hide ReplaysOK; hide MessageOK; hide ContentOK;
    hide Advances;
    AppendGrows(w, sys, g, c, st, sys2);
    BaseGrows(w, sys.groups, g, c, st);
    StoreGrows(w, sys, g, c, st, sys2);
    ClientsGrow(w, sys, g, c, st, sys2);
    LogsGrow(w, sys, g, c, st, sys2);
    ReplaysGrow(w, sys, g, c, st, sys2);
    hide AppendOK;
    forall m | m in sys2.msgs ensures MessageOK(w, sys2, m) {
      MessageGrows(w, sys, sys2, m);
    }
  }
}
