/**
  * Deleting a batch: the source drops its copy, or the taker is done with the move. Whole
  * batches are dropped or none of them, and only after the taker has the data; the taker is
  * done only after the source has dropped it. No content changes at its holder.
  */
module ShardDeleteSteps {
  import opened ShardTypes
  import opened ShardApply
  import opened ShardSystem
  import opened ShardInvariant
  import opened ShardMessageSteps
  import opened ShardGrowth
  import opened ShardOperationSteps
  import opened ShardInsertSteps

  // ----- The whole batch or nothing -----

  /** What a deletion does to a batch in lockstep, without a loop. */
  function Cleared(shards: seq<Shard>, ids: seq<nat>): (r: seq<Shard>) {
    seq(|shards|, s requires 0 <= s < |shards| =>
      if s in ids && (shards[s].status == GCing || shards[s].status == BePulling) then Freed(shards[s]) else shards[s])
  }

  ghost predicate Alike(shards: seq<Shard>, ids: seq<nat>) {
    && Below(ids, |shards|)
    && forall i, j :: 0 <= i < |ids| && 0 <= j < |ids| ==> shards[ids[i]].status == shards[ids[j]].status
  }

  lemma DeleteWhole(shards: seq<Shard>, ids: seq<nat>)
    requires Alike(shards, ids) && Distinct(ids)
    ensures DeleteLoop(shards, ids) == Cleared(shards, ids)
  {
    var r := DeleteLoop(shards, ids);
    forall s | 0 <= s < |shards| ensures r[s] == Cleared(shards, ids)[s] {
      if ids != [] && (shards[ids[0]].status == GCing || shards[ids[0]].status == BePulling) {
        DeleteBatch(shards, ids, shards[ids[0]].status, s);
      } else {
        DeleteNothing(shards, ids);
      }
    }
  }

  /** The group takes part in the move, on either side. */
  ghost predicate TakesPart(w: World, g: nat, ask: ShardsRequest, source: nat, taker: nat) {
    WholeBatch(w, ask.configNum, source, taker, ask.shardIds) && (g == source || g == taker)
  }

  lemma BatchAlike(w: World, g: nat, st: GroupState, ask: ShardsRequest, source: nat, taker: nat)
    requires StateOK(w, g, st) && ask.configNum == st.currentConfig.num && TakesPart(w, g, ask, source, taker)
    ensures Alike(st.shards, ask.shardIds) && Distinct(ask.shardIds)
  {
    hide ShardOK;
    var ids := ask.shardIds;
    forall i | 0 <= i < |ids| ensures Between(w, ask.configNum, source, taker, ids[i]) {
      assert ids[i] in ids;
    }
  }

  function DeletedState(now: GroupState, ask: ShardsRequest): GroupState {
    now.(shards := Cleared(now.shards, ask.shardIds))
  }

  lemma DeleteResult(w: World, g: nat, now: GroupState, ask: ShardsRequest, source: nat, taker: nat, order: seq<nat>)
    requires StateOK(w, g, now) && ask.configNum == now.currentConfig.num && TakesPart(w, g, ask, source, taker)
    ensures SameResult(now, DeleteShards(ask), order, DeletedState(now, ask))
  {
    BatchAlike(w, g, now, ask, source, taker);
    hide WholeBatch; hide StateOK; hide Alike; hide Cleared;
    DeleteWhole(now.shards, ask.shardIds);
  }

  // ----- The new state -----

  /** A deletion the source may carry out because the taker has the data, or the taker because the source is done. */
  ghost predicate Allowed(w: World, groups: map<nat, Group>, g: nat, ask: ShardsRequest, source: nat, taker: nat) {
    || (g == source && TakenOK(w, groups, source, taker, ask))
    || (g == taker && DroppedOK(w, groups, source, taker, ask))
  }

  ghost predicate Deleting(w: World, sys: System, g: nat, ask: ShardsRequest, source: nat, taker: nat, sys2: System) {
    && g in sys.groups && sys.groups[g].now.currentConfig.num == ask.configNum
    && Allowed(w, sys.groups, g, ask, source, taker)
    && sys2 == sys.(groups := sys2.groups)
    && sys2.groups == sys.groups[g := Grown(sys.groups[g], DeleteShards(ask), DeletedState(sys.groups[g].now, ask))]
  }

  lemma DeletingParts(w: World, sys: System, g: nat, ask: ShardsRequest, source: nat, taker: nat, sys2: System)
    requires Base(w, sys.groups) && Deleting(w, sys, g, ask, source, taker, sys2)
    ensures TakesPart(w, g, ask, source, taker) && StateOK(w, g, sys.groups[g].now)
  {
    NowOK(w, sys.groups, g);
    hide Base; hide StateOK; hide WholeBatch; hide Has; hide Done;
  }

  lemma DeletedShard(w: World, g: nat, now: GroupState, ask: ShardsRequest, source: nat, taker: nat, s: nat)
    requires StateOK(w, g, now) && ask.configNum == now.currentConfig.num && s < N_SHARDS
    requires TakesPart(w, g, ask, source, taker)
    ensures var st := DeletedState(now, ask);
            && |st.shards| == |now.shards| == N_SHARDS
            && ShardOK(w, g, now.currentConfig.num, s, st.shards[s]) && ShardLater(now.shards[s], st.shards[s])
            && (Between(w, ask.configNum, source, taker, s) ==>
                  (g == source ==> st.shards[s].status == Serving)
                  && (g == taker ==> st.shards[s].kv == now.shards[s].kv
                                     && (st.shards[s].status == now.shards[s].status
                                         || (now.shards[s].status == GCing && st.shards[s].status == Serving))))
            && (!Between(w, ask.configNum, source, taker, s) ==> st.shards[s] == now.shards[s])
  {
    hide Lockstep; hide Distinct;
    ShardAt(w, g, now, s);
    assert s in ask.shardIds <==> Between(w, ask.configNum, source, taker, s);
  }

  lemma DeletedLockstep(w: World, g: nat, now: GroupState, ask: ShardsRequest, source: nat, taker: nat)
    requires StateOK(w, g, now) && ask.configNum == now.currentConfig.num && TakesPart(w, g, ask, source, taker)
    ensures Lockstep(w, now.currentConfig.num, DeletedState(now, ask).shards)
  {
    hide ShardOK; hide Moves; hide Distinct;
    var st := DeletedState(now, ask);
    forall p: nat, q: nat, s: nat, t: nat |
      Between(w, now.currentConfig.num, p, q, s) && Between(w, now.currentConfig.num, p, q, t) && s < |st.shards| && t < |st.shards|
      ensures st.shards[s].status == st.shards[t].status
    {
      assert now.shards[s].status == now.shards[t].status;
      assert s in ask.shardIds <==> t in ask.shardIds;
    }
  }

  lemma DeletedStateOK(w: World, g: nat, now: GroupState, ask: ShardsRequest, source: nat, taker: nat)
    requires StateOK(w, g, now) && ask.configNum == now.currentConfig.num && TakesPart(w, g, ask, source, taker)
    ensures StateOK(w, g, DeletedState(now, ask)) && Progress(now, DeletedState(now, ask))
  {
    DeletedLockstep(w, g, now, ask, source, taker);
    OpsGrowSelf(now.lastOperations);
    hide Lockstep; hide TakesPart; hide ShardOK; hide OpsGrow; hide Cleared; hide ShardLater; hide Between;
    var st := DeletedState(now, ask);
    forall s: nat | s < N_SHARDS
      ensures |st.shards| == |now.shards| == N_SHARDS
      ensures ShardOK(w, g, now.currentConfig.num, s, st.shards[s]) && ShardLater(now.shards[s], st.shards[s])
    {
      DeletedShard(w, g, now, ask, source, taker, s);
    }
    DeletedShard(w, g, now, ask, source, taker, 0);
  }

  lemma DeletedJustified(w: World, sys: System, g: nat, ask: ShardsRequest, source: nat, taker: nat, sys2: System, n: nat, s: nat)
    requires Base(w, sys.groups) && Deleting(w, sys, g, ask, source, taker, sys2)
    ensures JustifiedAt(w, sys.groups, g, DeletedState(sys.groups[g].now, ask), n, s)
  {
    var now := sys.groups[g].now;
    DeletingParts(w, sys, g, ask, source, taker, sys2);
    hide Base; hide StateOK; hide Distinct;
    if Moves(w, n, s) && n == ask.configNum {
      DeletedShard(w, g, now, ask, source, taker, s);
      assert s in ask.shardIds <==> Between(w, n, source, taker, s);
      hide Cleared; hide ShardOK;
    }
  }

  lemma DeletedAppendOK(w: World, sys: System, g: nat, ask: ShardsRequest, source: nat, taker: nat, sys2: System)
    requires Inv(w, sys) && Deleting(w, sys, g, ask, source, taker, sys2)
    ensures AppendOK(w, sys, g, DeleteShards(ask), DeletedState(sys.groups[g].now, ask), sys2)
  {
    var now := sys.groups[g].now;
    var st := DeletedState(now, ask);
    InvParts(w, sys);
    DeletingParts(w, sys, g, ask, source, taker, sys2);
    hide Inv; hide StateOK; hide Progress; hide TakesPart; hide Allowed; hide Cleared; hide Base; hide JustifiedAt;
    hide SameResult; hide AppendOK;
    DeletedStateOK(w, g, now, ask, source, taker);
    forall n: nat, s: nat ensures JustifiedAt(w, sys.groups, g, st, n, s) {
      DeletedJustified(w, sys, g, ask, source, taker, sys2, n, s);
    }
    forall order ensures SameResult(now, DeleteShards(ask), order, st) {
      DeleteResult(w, g, now, ask, source, taker, order);
    }
    QuietAppendOK(w, sys, g, DeleteShards(ask), st, sys2);
  }

  // ----- The content stays the same -----

  /** The source drops a copy only after the taker became the holder. */
  lemma DroppedIsNotHeld(w: World, groups: map<nat, Group>, m: nat, n: nat, s: nat)
    requires Base(w, groups) && Moves(w, n, s) && Has(w, groups, n, s)
    requires Has(w, groups, m, s) && !Has(w, groups, m + 1, s)
    requires KeeperAt(w, m, s) == KeeperAt(w, n - 1, s)
    ensures groups[KeeperAt(w, m, s)].now.currentConfig.num > n
  {
    OwnerFacts(w, groups, m, s);
    OwnerFacts(w, groups, n, s);
    OwnerFacts(w, groups, m + 1, s);
    hide Base;
    if m < n {
      SomeOwner(w, groups, m, n, s);
      ChainDown(w, groups, n, m + 1, s);
    }
  }

  lemma SomeOwner(w: World, groups: map<nat, Group>, m: nat, n: nat, s: nat)
    requires Base(w, groups) && m < n < |w.cfgs| && KeeperAt(w, m, s) != NO_GROUP
    ensures KeeperAt(w, m + 1, s) != NO_GROUP
  {
    OwnerFacts(w, groups, m, s);
  }

  lemma DeletedHolder(w: World, sys: System, g: nat, ask: ShardsRequest, source: nat, taker: nat, sys2: System, m: nat, s: nat)
    requires Inv(w, sys) && Deleting(w, sys, g, ask, source, taker, sys2) && Grows(w, sys, sys2) && Base(w, sys2.groups)
    ensures HolderOK(w, sys2, m, s)
  {
    var now := sys.groups[g].now;
    var st := DeletedState(now, ask);
    InvParts(w, sys);
    DeletingParts(w, sys, g, ask, source, taker, sys2);
    DeletedStateOK(w, g, now, ask, source, taker);
    assert HolderOK(w, sys, m, s);
    assert HasStays(w, sys.groups, sys2.groups, m + 1, s);
    hide Inv; hide StoreOK; hide Grows; hide Progress;
    if Has(w, sys2.groups, m, s) && !Has(w, sys2.groups, m + 1, s) && KeeperAt(w, m, s) == g {
      OwnerFacts(w, sys2.groups, m, s);
      DeletedShard(w, g, now, ask, source, taker, s);
      hide StateOK; hide Cleared; hide ShardOK; hide ShardLater; hide HasStays;
      if Between(w, ask.configNum, source, taker, s) && g == source {
        TakenHas(w, sys, ask, source, taker, g, s);
        HasAfterwards(w, sys, sys2, ask.configNum, s);
        DroppedIsNotHeld(w, sys2.groups, m, ask.configNum, s);
      } else {
        hide Base;
        assert Reached(st, m, s) == Reached(now, m, s);
        KeptHolds(w, sys, sys2, now, st, s);
      }
    }
  }

  lemma TakenHas(w: World, sys: System, ask: ShardsRequest, source: nat, taker: nat, g: nat, s: nat)
    requires Allowed(w, sys.groups, g, ask, source, taker) && g == source && Between(w, ask.configNum, source, taker, s)
    ensures Has(w, sys.groups, ask.configNum, s)
  {
    assert source != taker;
    assert TakenOK(w, sys.groups, source, taker, ask);
    assert s in ask.shardIds;
  }

  /** Whoever the deletion makes the source, its batch is Serving afterwards. */
  lemma DeletedDone(w: World, sys: System, g: nat, ask: ShardsRequest, source: nat, taker: nat, to: nat, s: nat)
    requires Base(w, sys.groups) && g in sys.groups && Allowed(w, sys.groups, g, ask, source, taker)
    requires WholeBatch(w, ask.configNum, g, to, ask.shardIds) && s in ask.shardIds
    ensures var now := sys.groups[g].now;
            Done(if now.currentConfig.num == ask.configNum then DeletedState(now, ask) else now, ask.configNum, s)
  {
    var now := sys.groups[g].now;
    NowOK(w, sys.groups, g);
    assert Between(w, ask.configNum, g, to, s);
    assert Between(w, ask.configNum, source, taker, s);
    OwnerFacts(w, sys.groups, ask.configNum, s);
    OwnerFacts(w, sys.groups, ask.configNum - 1, s);
    TakenHas(w, sys, ask, source, taker, g, s);
    hide Base;
    if now.currentConfig.num == ask.configNum {
      DeletedShard(w, g, now, ask, source, taker, s);
    }
  }

  lemma DeletingKeepsInv(w: World, sys: System, g: nat, ask: ShardsRequest, source: nat, taker: nat, sys2: System)
    requires Inv(w, sys) && Deleting(w, sys, g, ask, source, taker, sys2)
    ensures Inv(w, sys2)
  {
    var c, st := DeleteShards(ask), DeletedState(sys.groups[g].now, ask);
    InvParts(w, sys);
    DeletedAppendOK(w, sys, g, ask, source, taker, sys2);
    hide Inv; hide Base; hide StoreOK; hide Progress; hide Earlier; hide OpsSound; hide WholeBatch; hide Done;
    hide HolderOK; hide FrozenOK; hide MessagesOK; hide LogsOK; hide ReplaysOK; hide Cleared; hide Allowed;
    AppendGrows(w, sys, g, c, st, sys2);
    AdvancesOf(w, sys, g, c, st, sys2);
    hide AppendOK; hide Advances; hide Grows;
    BaseGrows(w, sys.groups, g, c, st);
    forall m: nat, s: nat ensures HolderOK(w, sys2, m, s) {
      DeletedHolder(w, sys, g, ask, source, taker, sys2, m, s);
    }
    forall to, s: nat | WholeBatch(w, ask.configNum, g, to, ask.shardIds) && s in ask.shardIds
      ensures Done(st, ask.configNum, s)
    {
      DeletedDone(w, sys, g, ask, source, taker, to, s);
    }
    ClientFacts(w, sys, g);
    AppendKeepsInv(w, sys, g, c, st, sys2);
  }

  lemma AllowedBy(w: World, sys: System, g: nat, ask: ShardsRequest) returns (source: nat, taker: nat)
    requires g in sys.groups && CommandOK(w, sys, g, DeleteShards(ask))
    ensures Allowed(w, sys.groups, g, ask, source, taker)
  {
    hide TakenOK; hide DroppedOK;
    var peer :| TakenOK(w, sys.groups, g, peer, ask) || DroppedOK(w, sys.groups, peer, g, ask);
    if TakenOK(w, sys.groups, g, peer, ask) {
      source, taker := g, peer;
    } else {
      source, taker := peer, g;
    }
  }

  lemma DeleteKeepsInv(w: World, sys: System, g: nat, ask: ShardsRequest, order: seq<nat>)
    requires Inv(w, sys) && Shaped(sys) && g in sys.groups && CommandOK(w, sys, g, DeleteShards(ask))
    requires Deletable(ask)
    ensures Inv(w, NextAppend(sys, g, DeleteShards(ask), order))
  {
    var now := sys.groups[g].now;
    var sys2 := NextAppend(sys, g, DeleteShards(ask), order);
    var source, taker := AllowedBy(w, sys, g, ask);
    InvParts(w, sys);
    hide Inv; hide Was; hide Base; hide StoreOK; hide ClientsOK; hide MessagesOK; hide LogsOK; hide ReplaysOK;
    hide CommandOK; hide DeletedState; hide DeleteLoop; hide WholeBatch; hide Done; hide Has;
    if ask.configNum == now.currentConfig.num {
      assert g in sys.groups && TakesPart(w, g, ask, source, taker);
      NowOK(w, sys.groups, g);
      DeleteResult(w, g, now, ask, source, taker, order);
      hide Allowed;
      assert Deleting(w, sys, g, ask, source, taker, sys2);
      DeletingKeepsInv(w, sys, g, ask, source, taker, sys2);
    } else {
      forall to, s: nat | WholeBatch(w, ask.configNum, g, to, ask.shardIds) && s in ask.shardIds
        ensures Done(now, ask.configNum, s)
      {
        DeletedDone(w, sys, g, ask, source, taker, to, s);
      }
      ClientFacts(w, sys, g);
      UnchangedKeepsInv(w, sys, g, DeleteShards(ask), sys2);
    }
  }
}
