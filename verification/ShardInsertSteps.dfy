/**
  * Inserting pulled data moves the shards' content from the source to the taker. A batch is
  * filled whole or not at all, whatever order the loop takes through the map. From then on
  * the taker holds what the source had frozen, with the client table merged in, so no write
  * that took effect before can take effect again.
  */
module ShardInsertSteps {
  import opened ShardTypes
  import opened ShardApply
  import opened ShardSystem
  import opened ShardInvariant
  import opened ShardMessageSteps
  import opened ShardGrowth
  import opened ShardOperationSteps

  // ----- The whole batch or nothing -----

  /** What an insertion does to a batch in lockstep, without a loop. */
  function Filled(shards: seq<Shard>, data: map<nat, Store>): (r: seq<Shard>) {
    seq(|shards|, s requires 0 <= s < |shards| =>
      if s in data && shards[s].status == Pulling then Shard(data[s], GCing) else shards[s])
  }

  /** A batch in lockstep whose waiting copies are empty. */
  ghost predicate Together(shards: seq<Shard>, keys: set<nat>) {
    && (forall s :: s in keys ==> s < |shards|)
    && (forall s, t :: s in keys && t in keys ==> shards[s].status == shards[t].status)
    && (forall s :: s in keys && shards[s].status == Pulling ==> shards[s].kv == map[])
  }

  /** Whatever order the loop takes through the map, its early exit never splits a batch. */
  lemma InsertWhole(shards: seq<Shard>, data: map<nat, Store>, order: seq<nat>)
    requires Together(shards, data.Keys) && Enumerates(order, data.Keys)
    ensures Visits(order, data, |shards|) && InsertLoop(shards, data, order) == Filled(shards, data)
  {
    var r := InsertLoop(shards, data, order);
    if order == [] || shards[order[0]].status != Pulling {
      InsertNothing(shards, data, order);
      forall s | 0 <= s < |shards| ensures r[s] == Filled(shards, data)[s] {
        if s in data {
          assert order[0] in data;
        }
      }
    } else {
      assert order[0] in data;
      assert AllHave(shards, order, Pulling);
      forall s | 0 <= s < |shards| ensures r[s] == Filled(shards, data)[s] {
        InsertBatch(shards, data, order, s);
        if s in data {
          assert map[] + data[s] == data[s];
        }
      }
    }
  }

  lemma BatchTogether(w: World, g: nat, st: GroupState, source: nat, data: ShardsReply)
    requires StateOK(w, g, st) && data.configNum == st.currentConfig.num
    requires WholeBatchKeys(w, data.configNum, source, g, data.shards.Keys)
    ensures Together(st.shards, data.shards.Keys)
  {
    forall s | s in data.shards ensures s < |st.shards| && (st.shards[s].status == Pulling ==> st.shards[s].kv == map[]) {
      assert Between(w, data.configNum, source, g, s);
      ShardAt(w, g, st, s);
    }
    hide ShardOK;
    forall s, t | s in data.shards && t in data.shards ensures st.shards[s].status == st.shards[t].status {
      assert Between(w, data.configNum, source, g, s) && Between(w, data.configNum, source, g, t);
    }
  }

  function InsertedState(now: GroupState, data: ShardsReply): GroupState {
    now.(shards := Filled(now.shards, data.shards),
         lastOperations := MergeOperations(now.lastOperations, data.lastOperations))
  }

  lemma InsertResult(w: World, g: nat, now: GroupState, source: nat, data: ShardsReply, order: seq<nat>)
    requires StateOK(w, g, now) && data.configNum == now.currentConfig.num
    requires WholeBatchKeys(w, data.configNum, source, g, data.shards.Keys)
    ensures SameResult(now, InsertShards(data), order, InsertedState(now, data))
  {
    BatchTogether(w, g, now, source, data);
    hide WholeBatchKeys; hide StateOK; hide Together; hide Filled;
    if Insertable(data, order) {
      InsertWhole(now.shards, data.shards, order);
    }
  }

  // ----- The new state -----

  ghost predicate Inserting(w: World, sys: System, g: nat, source: nat, data: ShardsReply, sys2: System) {
    && g in sys.groups && sys.groups[g].now.currentConfig.num == data.configNum
    && DataOK(w, sys, source, g, data)
    && sys2 == sys.(groups := sys2.groups)
    && sys2.groups == sys.groups[g := Grown(sys.groups[g], InsertShards(data), InsertedState(sys.groups[g].now, data))]
  }

  lemma InsertedShard(w: World, g: nat, now: GroupState, source: nat, data: ShardsReply, s: nat)
    requires StateOK(w, g, now) && data.configNum == now.currentConfig.num && s < N_SHARDS
    requires WholeBatchKeys(w, data.configNum, source, g, data.shards.Keys)
    ensures var st := InsertedState(now, data);
            && |st.shards| == |now.shards| == N_SHARDS
            && ShardOK(w, g, now.currentConfig.num, s, st.shards[s]) && ShardLater(now.shards[s], st.shards[s])
            && (st.shards[s] == now.shards[s]
                || (Between(w, data.configNum, source, g, s) && s in data.shards && now.shards[s].status == Pulling
                    && st.shards[s] == Shard(data.shards[s], GCing)))
  {
    hide Lockstep; hide MergeOperations;
    ShardAt(w, g, now, s);
    assert s in data.shards.Keys <==> Between(w, data.configNum, source, g, s);
  }

  lemma InsertedLockstep(w: World, g: nat, now: GroupState, source: nat, data: ShardsReply)
    requires StateOK(w, g, now) && data.configNum == now.currentConfig.num
    requires WholeBatchKeys(w, data.configNum, source, g, data.shards.Keys)
    ensures Lockstep(w, now.currentConfig.num, InsertedState(now, data).shards)
  {
    hide MergeOperations; hide ShardOK; hide Moves;
    var st := InsertedState(now, data);
    forall p: nat, q: nat, s: nat, t: nat |
      Between(w, now.currentConfig.num, p, q, s) && Between(w, now.currentConfig.num, p, q, t) && s < |st.shards| && t < |st.shards|
      ensures st.shards[s].status == st.shards[t].status
    {
      assert now.shards[s].status == now.shards[t].status;
      assert s in data.shards.Keys <==> t in data.shards.Keys;
    }
  }

  lemma MergeFacts(effects: set<Write>, mine: Dedup, theirs: Dedup)
    requires OpsSound(effects, mine) && OpsSound(effects, theirs)
    ensures var both := MergeOperations(mine, theirs);
            OpsGrow(mine, both) && OpsGrow(theirs, both) && OpsSound(effects, both)
  {
  }

  lemma InsertedStateOK(w: World, g: nat, now: GroupState, source: nat, data: ShardsReply)
    requires StateOK(w, g, now) && data.configNum == now.currentConfig.num
    requires WholeBatchKeys(w, data.configNum, source, g, data.shards.Keys)
    requires OpsGrow(now.lastOperations, MergeOperations(now.lastOperations, data.lastOperations))
    ensures StateOK(w, g, InsertedState(now, data)) && Progress(now, InsertedState(now, data))
  {
    InsertedLockstep(w, g, now, source, data);
    hide Lockstep; hide WholeBatchKeys; hide ShardOK; hide MergeOperations; hide OpsGrow; hide Filled;
    hide ShardLater;
    var st := InsertedState(now, data);
    forall s: nat | s < N_SHARDS
      ensures |st.shards| == |now.shards| == N_SHARDS
      ensures ShardOK(w, g, now.currentConfig.num, s, st.shards[s]) && ShardLater(now.shards[s], st.shards[s])
    {
      InsertedShard(w, g, now, source, data, s);
    }
    InsertedShard(w, g, now, source, data, 0);
  }

  lemma InsertedJustified(w: World, sys: System, g: nat, source: nat, data: ShardsReply, sys2: System, n: nat, s: nat)
    requires Base(w, sys.groups) && Inserting(w, sys, g, source, data, sys2)
    ensures JustifiedAt(w, sys.groups, g, InsertedState(sys.groups[g].now, data), n, s)
  {
    hide Base; hide StateOK; hide DataAt; hide OpsSound; hide MergeOperations; hide WholeBatchKeys; hide Filled;
    hide ShardOK; hide ShardLater;
    var now := sys.groups[g].now;
    NowOK(w, sys.groups, g);
    if Moves(w, n, s) {
      InsertedShard(w, g, now, source, data, s);
    }
  }

  lemma InsertingFacts(w: World, sys: System, g: nat, source: nat, data: ShardsReply, sys2: System)
    requires Inv(w, sys) && Inserting(w, sys, g, source, data, sys2)
    ensures var now := sys.groups[g].now; var st := InsertedState(now, data);
            && StateOK(w, g, now) && StateOK(w, g, st) && Progress(now, st)
            && OpsGrow(data.lastOperations, st.lastOperations) && OpsSound(sys.effects, st.lastOperations)
  {
    InvParts(w, sys);
    NowOK(w, sys.groups, g);
    ClientFacts(w, sys, g);
    hide Inv; hide StateOK; hide WholeBatchKeys; hide DataAt; hide Base; hide ClientsOK; hide StoreOK; hide OpsSound;
    hide OpsGrow; hide MergeOperations; hide Filled; hide Progress;
    MergeFacts(sys.effects, sys.groups[g].now.lastOperations, data.lastOperations);
    InsertedStateOK(w, g, sys.groups[g].now, source, data);
  }

  lemma InsertedAppendOK(w: World, sys: System, g: nat, source: nat, data: ShardsReply, sys2: System)
    requires Inv(w, sys) && Inserting(w, sys, g, source, data, sys2)
    ensures AppendOK(w, sys, g, InsertShards(data), InsertedState(sys.groups[g].now, data), sys2)
  {
    var now := sys.groups[g].now;
    var st := InsertedState(now, data);
    InsertingFacts(w, sys, g, source, data, sys2);
    InvParts(w, sys);
    hide Inv; hide StateOK; hide Progress; hide WholeBatchKeys; hide DataAt; hide OpsSound; hide OpsGrow;
    hide MergeOperations; hide Filled; hide Base; hide JustifiedAt; hide SameResult; hide AppendOK;
    forall n: nat, s: nat ensures JustifiedAt(w, sys.groups, g, st, n, s) {
      InsertedJustified(w, sys, g, source, data, sys2, n, s);
    }
    forall order ensures SameResult(now, InsertShards(data), order, st) {
      InsertResult(w, g, now, source, data, order);
    }
    QuietAppendOK(w, sys, g, InsertShards(data), st, sys2);
  }

  // ----- The content stays the same -----

  /** A shard that got its data is now held by the taker, with the same content. */
  lemma InsertedHolds(w: World, sys: System, g: nat, source: nat, data: ShardsReply, sys2: System, s: nat)
    requires Inv(w, sys) && Inserting(w, sys, g, source, data, sys2)
    requires Between(w, data.configNum, source, g, s) && sys.groups[g].now.shards != [] && |sys.groups[g].now.shards| == N_SHARDS
    requires sys.groups[g].now.shards[s].status == Pulling
    ensures Holds(w, sys2, InsertedState(sys.groups[g].now, data), s)
  {
    var now := sys.groups[g].now;
    var st := InsertedState(now, data);
    InsertingFacts(w, sys, g, source, data, sys2);
    hide Inv; hide StateOK; hide Progress; hide MergeOperations; hide OpsSound;
    InsertedShard(w, g, now, source, data, s);
    assert s in data.shards.Keys;
    hide WholeBatchKeys; hide Filled;
    assert DataAt(w, sys, data, s);
    assert !Has(w, sys.groups, data.configNum, s);
  }

  lemma InsertedHolder(w: World, sys: System, g: nat, source: nat, data: ShardsReply, sys2: System, m: nat, s: nat)
    requires Inv(w, sys) && Inserting(w, sys, g, source, data, sys2) && Base(w, sys2.groups)
    requires Grows(w, sys, sys2)
    ensures HolderOK(w, sys2, m, s)
  {
    hide Inv; hide StoreOK; hide Grows; hide DataOK; hide Base; hide StateOK; hide Progress; hide MergeOperations;
    hide OpsSound; hide OpsGrow; hide WholeBatchKeys; hide Filled; hide ShardOK; hide ShardLater; hide Covers; hide Moves;
    var now := sys.groups[g].now;
    var st := InsertedState(now, data);
    InsertingFacts(w, sys, g, source, data, sys2);
    InvParts(w, sys);
    HolderAt(w, sys, m, s);
    if Has(w, sys.groups, m + 1, s) { HasAfterwards(w, sys, sys2, m + 1, s); }
    if Has(w, sys2.groups, m, s) && !Has(w, sys2.groups, m + 1, s) && KeeperAt(w, m, s) == g {
      OwnerFacts(w, sys2.groups, m, s);
      KeysFact(w, sys, source, g, data);
      InsertedShard(w, g, now, source, data, s);
      if st.shards[s] != now.shards[s] {
        // the shard was waiting, so now this configuration is the last one reached
        InsertedHolds(w, sys, g, source, data, sys2, s);
      } else {
        assert Reached(st, m, s) == Reached(now, m, s);
        KeptHolds(w, sys, sys2, now, st, s);
      }
    }
  }

  lemma HolderAt(w: World, sys: System, m: nat, s: nat)
    requires StoreOK(w, sys)
    ensures HolderOK(w, sys, m, s)
  {
  }

  lemma HasAfterwards(w: World, sys: System, sys2: System, n: nat, s: nat)
    requires Grows(w, sys, sys2) && Has(w, sys.groups, n, s)
    ensures Has(w, sys2.groups, n, s)
  {
    assert HasStays(w, sys.groups, sys2.groups, n, s);
  }

  lemma KeysFact(w: World, sys: System, source: nat, g: nat, data: ShardsReply)
    requires DataOK(w, sys, source, g, data)
    ensures WholeBatchKeys(w, data.configNum, source, g, data.shards.Keys)
  {
  }

  lemma KeptHolds(w: World, sys: System, sys2: System, a: GroupState, b: GroupState, s: nat)
    requires Holds(w, sys, a, s) && sys2.store == sys.store && sys2.effects == sys.effects
    requires Progress(a, b) && s < |b.shards| && b.shards[s].kv == a.shards[s].kv
    ensures Holds(w, sys2, b, s)
  {
    SameShardSelf(w, sys, sys2, s);
    HoldsKept(w, sys, sys2, a, b, s);
  }

  lemma InsertingKeepsInv(w: World, sys: System, g: nat, source: nat, data: ShardsReply, sys2: System)
    requires Inv(w, sys) && Inserting(w, sys, g, source, data, sys2)
    ensures Inv(w, sys2)
  {
    var c, st := InsertShards(data), InsertedState(sys.groups[g].now, data);
    InsertedAppendOK(w, sys, g, source, data, sys2);
    InsertingFacts(w, sys, g, source, data, sys2);
    InvParts(w, sys);
    hide Inv; hide Base; hide StoreOK; hide StateOK; hide Progress; hide Earlier; hide OpsSound; hide WholeBatch;
    hide Done; hide HolderOK; hide FrozenOK; hide MessagesOK; hide LogsOK; hide ReplaysOK; hide MergeOperations;
    hide Filled; hide DataOK; hide OpsGrow;
    AppendGrows(w, sys, g, c, st, sys2);
    AdvancesOf(w, sys, g, c, st, sys2);
    hide AppendOK; hide Advances; hide Grows;
    BaseGrows(w, sys.groups, g, c, st);
    forall m: nat, s: nat ensures HolderOK(w, sys2, m, s) {
      InsertedHolder(w, sys, g, source, data, sys2, m, s);
    }
    ClientFacts(w, sys, g);
    AppendKeepsInv(w, sys, g, c, st, sys2);
  }

  lemma AdvancesOf(w: World, sys: System, g: nat, c: Command, st: GroupState, sys2: System)
    requires AppendOK(w, sys, g, c, st, sys2)
    ensures g in sys.groups && Advances(w, sys.groups, g, st)
  {
    hide Advances; hide FrozenStays; hide SameResult; hide SameShard; hide Unborn;
  }

  lemma InsertKeepsInv(w: World, sys: System, g: nat, data: ShardsReply, order: seq<nat>)
    requires Inv(w, sys) && Shaped(sys) && g in sys.groups && CommandOK(w, sys, g, InsertShards(data))
    requires Insertable(data, order)
    ensures Inv(w, NextAppend(sys, g, InsertShards(data), order))
  {
    var now := sys.groups[g].now;
    var sys2 := NextAppend(sys, g, InsertShards(data), order);
    InvParts(w, sys);
    hide Inv; hide Was; hide Base; hide StoreOK; hide ClientsOK; hide MessagesOK; hide LogsOK; hide ReplaysOK;
    hide DataOK; hide InsertedState; hide InsertLoop; hide MergeOperations;
    if data.configNum == now.currentConfig.num {
      var source :| DataOK(w, sys, source, g, data);
      NowOK(w, sys.groups, g);
      KeysFact(w, sys, source, g, data);
      InsertResult(w, g, now, source, data, order);
      assert Inserting(w, sys, g, source, data, sys2);
      InsertingKeepsInv(w, sys, g, source, data, sys2);
    } else {
      ClientFacts(w, sys, g);
      UnchangedKeepsInv(w, sys, g, InsertShards(data), sys2);
    }
  }
}
