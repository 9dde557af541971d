/** Migrations never get stuck: every reachable state can be led to the last configuration. */
module MigrationProgress {
  import opened ShardTypes
  import opened ShardApply
  import opened ShardSystem
  import opened ShardInvariant
  import opened ShardMessageSteps
  import opened ShardGrowth
  import opened ShardOperationSteps
  import opened ShardInsertSteps
  import opened ShardDeleteSteps
  import opened ShardSafety
  import opened ShardRuns

  // ----- What is known of a written-down run -----

  ghost predicate Good(w: World, t: Trace) {
    WorldOK(w) && t.Valid(w)
  }

  lemma GoodInv(w: World, t: Trace)
    requires Good(w, t)
    ensures Inv(w, t.Now()) && Base(w, t.Now().groups) && Shaped(t.Now()) && Run(w, t.states, t.actions)
  {
    hide Inv; hide Base; hide WorldOK; hide Shaped;
    RunInv(w, t.states, t.actions, |t.states| - 1);
    InvParts(w, t.Now());
  }

  /** No group is behind configuration n. */
  ghost predicate AllFrom(sys: System, n: nat) {
    forall g :: g in sys.groups ==> sys.groups[g].now.currentConfig.num >= n
  }

  /** A group that has moved on has not moved back. */
  lemma StaysAhead(w: World, t: Trace, t2: Trace, g: nat)
    requires Good(w, t) && Good(w, t2) && Later(t.Now(), t2.Now()) && g in t.Now().groups
    ensures g in t2.Now().groups && Progress(t.Now().groups[g].now, t2.Now().groups[g].now)
  {
    GoodInv(w, t2);
    hide Inv; hide Good; hide Base; hide Run;
    WasLater(t.Now().groups[g], t2.Now().groups[g]);
    WasOK(w, t2.Now().groups, g, t.Now().groups[g].now);
  }

  lemma StillFrom(w: World, t: Trace, t2: Trace, n: nat)
    requires Good(w, t) && Good(w, t2) && Later(t.Now(), t2.Now()) && AllFrom(t.Now(), n)
    ensures AllFrom(t2.Now(), n)
  {
    hide Good;
    forall g | g in t2.Now().groups ensures t2.Now().groups[g].now.currentConfig.num >= n {
      StaysAhead(w, t, t2, g);
    }
  }

  // ----- The batch a monitor collects -----

  /** The shards below k of a status that came from `source`. */
  function Collected(st: GroupState, status: Status, source: nat, k: nat): (ids: seq<nat>)
    requires WellFormed(st) && k <= N_SHARDS
    ensures forall s: nat :: s in ids <==> s < k && InBatch(st, status, source, s)
    ensures Distinct(ids)
  {
    if k == 0 then []
    else if InBatch(st, status, source, k - 1) then
      var before := Collected(st, status, source, k - 1);
      assert k - 1 !in before;
      before + [k - 1]
    else Collected(st, status, source, k - 1)
  }

  lemma BatchFound(st: GroupState, status: Status, source: nat, s: nat) returns (ids: seq<nat>)
    requires WellFormed(st) && source != NO_GROUP && InBatch(st, status, source, s)
    ensures Batch(st, status, source, ids) && s in ids && Below(ids, N_SHARDS)
  {
    ids := Collected(st, status, source, N_SHARDS);
    hide Distinct;
    forall i | 0 <= i < |ids| ensures ids[i] < N_SHARDS {
      assert ids[i] in ids;
    }
  }

  /** A group that waits for a shard, or has just got it, knows whom it came from. */
  lemma ComesFrom(w: World, sys: System, g: nat, s: nat) returns (source: nat)
    requires Base(w, sys.groups) && g in sys.groups && s < N_SHARDS && WellFormed(sys.groups[g].now)
    requires sys.groups[g].now.shards[s].status == Pulling || sys.groups[g].now.shards[s].status == GCing
    ensures source in sys.groups && source != NO_GROUP && source != g
    ensures Between(w, sys.groups[g].now.currentConfig.num, source, g, s)
    ensures InBatch(sys.groups[g].now, sys.groups[g].now.shards[s].status, source, s)
  {
    var st := sys.groups[g].now;
    var n := st.currentConfig.num;
    NowOK(w, sys.groups, g);
    ShardAt(w, g, st, s);
    assert Moves(w, n, s) && KeeperAt(w, n, s) == g;
    source := KeeperAt(w, n - 1, s);
    MoveOwners(w, n, s);
    OwnerFacts(w, sys.groups, n - 1, s);
  }

  // ----- Pulling a batch -----

  lemma PulledState(w: World, g: nat, now: GroupState, source: nat, data: ShardsReply, order: seq<nat>, s: nat)
    requires StateOK(w, g, now) && data.configNum == now.currentConfig.num && s in data.shards && s < N_SHARDS
    requires WholeBatchKeys(w, data.configNum, source, g, data.shards.Keys) && Insertable(data, order)
    requires now.shards[s].status == Pulling
    ensures var st := Apply(now, InsertShards(data), order).0;
            && WellFormed(st) && st.currentConfig == now.currentConfig
            && st.shards[s] == Shard(data.shards[s], GCing)
  {
    BatchTogether(w, g, now, source, data);
    hide WholeBatchKeys; hide StateOK; hide Together; hide MergeOperations; hide Enumerates;
    InsertWhole(now.shards, data.shards, order);
  }

  lemma SelfWas(group: Group)
    ensures Was(group, group.now)
  {
  }

  /** Ask, answer, propose: the data of the batch is in the taker's hands. */
  lemma PullProposed(w: World, t: Trace, g: nat, source: nat, ids: seq<nat>) returns (t2: Trace)
    requires Good(w, t) && g in t.Now().groups && source in t.Now().groups && Below(ids, N_SHARDS)
    requires WellFormed(t.Now().groups[g].now) && Batch(t.Now().groups[g].now, Pulling, source, ids)
    requires t.Now().groups[source].now.currentConfig.num >= t.Now().groups[g].now.currentConfig.num
    ensures WellFormed(t.Now().groups[source].now)
    ensures Good(w, t2) && t.states <= t2.states && Later(t.Now(), t2.Now()) && t2.Now().groups == t.Now().groups
    ensures var ask := ShardsRequest(t.Now().groups[g].now.currentConfig.num, ids);
            Proposal(g, InsertShards(ShardsData(t.Now().groups[source].now, ask))) in t2.Now().msgs
  {
    hide Steps; hide Batch; hide ShardsData; hide Later; hide WorldOK;
    var now, seen := t.Now().groups[g].now, t.Now().groups[source].now;
    var ask := ShardsRequest(now.currentConfig.num, ids);
    SelfWas(t.Now().groups[g]);
    SelfWas(t.Now().groups[source]);
    var t1 := SendStep(w, t, AskPull(g, now, source, ids));
    var t3 := SendStep(w, t1, AnswerPull(source, seen, PullAsk(source, g, ask)));
    var answer := PullAnswer(g, source, ShardsData(seen, ask));
    assert answer in t3.Now().msgs;
    t2 := SendStep(w, t3, ProposeInsert(g, answer));
    LaterThrough(t.Now(), t1.Now(), t3.Now());
    LaterThrough(t.Now(), t3.Now(), t2.Now());
  }

  lemma DataWhole(w: World, n: nat, source: nat, g: nat, seen: GroupState, ids: seq<nat>)
    requires WellFormed(seen) && WholeBatch(w, n, source, g, ids) && Below(ids, N_SHARDS)
    ensures var data := ShardsData(seen, ShardsRequest(n, ids));
            && WholeBatchKeys(w, n, source, g, data.shards.Keys) && Insertable(data, ids) && data.configNum == n
            && forall s: nat :: s in ids ==> s in data.shards && data.shards[s] == seen.shards[s].kv
  {
    var data := ShardsData(seen, ShardsRequest(n, ids));
    forall s: nat ensures s in data.shards.Keys <==> s in ids {
      if s in ids {
        var i :| 0 <= i < |ids| && ids[i] == s;
      }
    }
    assert ids[0] in ids;
  }

  /** The monitor of group g pulls the batch of shard s: the shard is filled and can be served. */
  lemma PullBatch(w: World, t: Trace, g: nat, s: nat) returns (t2: Trace)
    requires Good(w, t) && g in t.Now().groups && s < N_SHARDS
    requires AllFrom(t.Now(), t.Now().groups[g].now.currentConfig.num)
    requires WellFormed(t.Now().groups[g].now) && t.Now().groups[g].now.shards[s].status == Pulling
    ensures Good(w, t2) && t.states <= t2.states && Later(t.Now(), t2.Now()) && g in t2.Now().groups
    ensures var was, now := t.Now().groups[g].now, t2.Now().groups[g].now;
            && WellFormed(now) && now.currentConfig == was.currentConfig && now.shards[s].status == GCing
  {
    GoodInv(w, t);
    var sys := t.Now();
    var now := sys.groups[g].now;
    hide Inv; hide Run; hide Steps; hide Shaped; hide Apply; hide WorldOK; hide Later; hide Batch; hide WholeBatch;
    hide WholeBatchKeys; hide Insertable; hide ShardsData; hide GroupOK; hide GateOK; hide StateOK;
    NowOK(w, sys.groups, g);
    var source := ComesFrom(w, sys, g, s);
    hide Base;
    var ids := BatchFound(now, Pulling, source, s);
    BatchIsWhole(w, g, now, Pulling, source, ids);
    var t1 := PullProposed(w, t, g, source, ids);
    var data := ShardsData(sys.groups[source].now, ShardsRequest(now.currentConfig.num, ids));
    DataWhole(w, now.currentConfig.num, source, g, sys.groups[source].now, ids);
    t2 := AppendStep(w, t1, g, InsertShards(data), ids);
    LaterThrough(t.Now(), t1.Now(), t2.Now());
    PulledState(w, g, now, source, data, ids, s);
  }

  // ----- Dropping a batch -----

  lemma DroppedState(w: World, g: nat, now: GroupState, source: nat, ask: ShardsRequest, s: nat)
    requires StateOK(w, g, now) && ask.configNum == now.currentConfig.num && s in ask.shardIds && s < N_SHARDS
    requires WholeBatch(w, ask.configNum, source, g, ask.shardIds) && Deletable(ask)
    requires now.shards[s].status == GCing
    ensures var st := Apply(now, DeleteShards(ask), []).0;
            && WellFormed(st) && st.currentConfig == now.currentConfig
            && st.shards[s] == Shard(now.shards[s].kv, Serving)
  {
    BatchAlike(w, g, now, ask, source, g);
    hide WholeBatch; hide StateOK; hide Alike;
    DeleteWhole(now.shards, ask.shardIds);
  }

  /** The source drops its copies, or has done so, and confirms it. */
  lemma DeletionConfirmed(w: World, t: Trace, g: nat, source: nat, ask: ShardsRequest) returns (t2: Trace)
    requires Good(w, t) && g in t.Now().groups && source in t.Now().groups && source != g && Deletable(ask)
    requires DeleteAsk(source, g, ask) in t.Now().msgs && t.Now().groups[source].now.currentConfig.num >= ask.configNum
    ensures Good(w, t2) && t.states <= t2.states && Later(t.Now(), t2.Now()) && g in t2.Now().groups
    ensures t2.Now().groups[g] == t.Now().groups[g] && DeleteDone(g, source, ask) in t2.Now().msgs
  {
    hide Steps; hide Later; hide WorldOK; hide Deletable; hide Apply; hide Shaped;
    var m := DeleteAsk(source, g, ask);
    var seen := t.Now().groups[source].now;
    SelfWas(t.Now().groups[source]);
    if seen.currentConfig.num > ask.configNum {
      AnswersEnabled(w, t.Now(), source, seen, m);
      t2 := SendStep(w, t, AnswerDelete(source, seen, m));
    } else {
      AnswersEnabled(w, t.Now(), source, seen, m);
      var t1 := SendStep(w, t, AnswerDelete(source, seen, m));
      var t3 := AppendStep(w, t1, source, DeleteShards(ask), []);
      ConfirmEnabled(w, t3.Now(), source, m);
      t2 := SendStep(w, t3, ConfirmDelete(source, m));
      LaterThrough(t.Now(), t1.Now(), t3.Now());
      LaterThrough(t.Now(), t3.Now(), t2.Now());
    }
  }

  lemma AnswersEnabled(w: World, sys: System, g: nat, seen: GroupState, m: Message)
    requires Shaped(sys) && g in sys.groups && Was(sys.groups[g], seen) && m in sys.msgs && m.DeleteAsk? && m.to == g
    ensures Enabled(w, sys, AnswerDelete(g, seen, m))
  {
    hide Shaped;
  }

  lemma ConfirmEnabled(w: World, sys: System, g: nat, m: Message)
    requires Shaped(sys) && g in sys.groups && m in sys.msgs && m.DeleteAsk? && m.to == g && DeleteShards(m.ask) in sys.groups[g].log
    ensures Enabled(w, sys, ConfirmDelete(g, m))
  {
    hide Shaped;
  }

  /** Ask, drop, confirm, propose: the taker may finish the move. */
  lemma DropProposed(w: World, t: Trace, g: nat, source: nat, ids: seq<nat>) returns (t2: Trace)
    requires Good(w, t) && g in t.Now().groups && source in t.Now().groups && source != g && Below(ids, N_SHARDS)
    requires WellFormed(t.Now().groups[g].now) && Batch(t.Now().groups[g].now, GCing, source, ids)
    requires t.Now().groups[source].now.currentConfig.num >= t.Now().groups[g].now.currentConfig.num
    ensures Good(w, t2) && t.states <= t2.states && Later(t.Now(), t2.Now()) && g in t2.Now().groups
    ensures t2.Now().groups[g] == t.Now().groups[g]
    ensures Proposal(g, DeleteShards(ShardsRequest(t.Now().groups[g].now.currentConfig.num, ids))) in t2.Now().msgs
  {
    hide Steps; hide Later; hide WorldOK; hide Batch; hide Deletable;
    var now := t.Now().groups[g].now;
    var ask := ShardsRequest(now.currentConfig.num, ids);
    BelowIsDeletable(ask);
    SelfWas(t.Now().groups[g]);
    var t1 := SendStep(w, t, AskDelete(g, now, source, ids));
    var t3 := DeletionConfirmed(w, t1, g, source, ask);
    t2 := SendStep(w, t3, ProposeDelete(g, DeleteDone(g, source, ask)));
    LaterThrough(t.Now(), t1.Now(), t3.Now());
    LaterThrough(t.Now(), t3.Now(), t2.Now());
  }

  /** The monitor of group g has the batch of shard s deleted at its source, and the shard is settled. */
  lemma DropBatch(w: World, t: Trace, g: nat, s: nat) returns (t2: Trace)
    requires Good(w, t) && g in t.Now().groups && s < N_SHARDS
    requires AllFrom(t.Now(), t.Now().groups[g].now.currentConfig.num)
    requires WellFormed(t.Now().groups[g].now) && t.Now().groups[g].now.shards[s].status == GCing
    ensures Good(w, t2) && t.states <= t2.states && Later(t.Now(), t2.Now()) && g in t2.Now().groups
    ensures var was, now := t.Now().groups[g].now, t2.Now().groups[g].now;
            && WellFormed(now) && now.currentConfig == was.currentConfig && now.shards[s].status == Serving
  {
    GoodInv(w, t);
    var sys := t.Now();
    var now := sys.groups[g].now;
    hide Inv; hide Run; hide Steps; hide Shaped; hide Apply; hide WorldOK; hide Later; hide Batch; hide WholeBatch;
    hide GroupOK; hide GateOK; hide StateOK; hide Deletable;
    NowOK(w, sys.groups, g);
    var source := ComesFrom(w, sys, g, s);
    hide Base;
    var ids := BatchFound(now, GCing, source, s);
    BatchIsWhole(w, g, now, GCing, source, ids);
    var ask := ShardsRequest(now.currentConfig.num, ids);
    BelowIsDeletable(ask);
    var t1 := DropProposed(w, t, g, source, ids);
    t2 := AppendStep(w, t1, g, DeleteShards(ask), []);
    LaterThrough(t.Now(), t1.Now(), t2.Now());
    DroppedState(w, g, now, source, ask, s);
  }

  lemma BelowIsDeletable(ask: ShardsRequest)
    requires Below(ask.shardIds, N_SHARDS)
    ensures Deletable(ask)
  {
  }

  // ----- Settling one configuration -----

  /** Both sides of the move of shard s in configuration n are done with it. */
  ghost predicate Settled(w: World, sys: System, n: nat, s: nat) {
    Moves(w, n, s) ==>
      && KeeperAt(w, n, s) in sys.groups && Done(sys.groups[KeeperAt(w, n, s)].now, n, s)
      && KeeperAt(w, n - 1, s) in sys.groups && Done(sys.groups[KeeperAt(w, n - 1, s)].now, n, s)
  }

  ghost predicate AllSettled(w: World, sys: System, n: nat) {
    forall s: nat :: s < N_SHARDS ==> Settled(w, sys, n, s)
  }

  lemma StaysSettled(w: World, t: Trace, t2: Trace, n: nat, s: nat)
    requires Good(w, t) && Good(w, t2) && Later(t.Now(), t2.Now()) && Settled(w, t.Now(), n, s)
    ensures Settled(w, t2.Now(), n, s)
  {
    hide Good; hide Later; hide Progress;
    if Moves(w, n, s) {
      var taker, source := KeeperAt(w, n, s), KeeperAt(w, n - 1, s);
      StaysAhead(w, t, t2, taker);
      StaysAhead(w, t, t2, source);
      DoneGrows(t.Now().groups[taker].now, t2.Now().groups[taker].now, n, s);
      DoneGrows(t.Now().groups[source].now, t2.Now().groups[source].now, n, s);
    }
  }

  /** If the taker is done the source is. */
  lemma TakerSettles(w: World, t: Trace, n: nat, s: nat)
    requires Good(w, t) && Moves(w, n, s)
    requires KeeperAt(w, n, s) in t.Now().groups && Done(t.Now().groups[KeeperAt(w, n, s)].now, n, s)
    ensures Settled(w, t.Now(), n, s)
  {
    GoodInv(w, t);
    hide Good; hide Inv; hide Run; hide Done; hide Reached;
    OwnerFacts(w, t.Now().groups, n, s);
    OwnerFacts(w, t.Now().groups, n - 1, s);
  }

  lemma SettleShard(w: World, t: Trace, n: nat, s: nat) returns (t2: Trace)
    requires Good(w, t) && AllFrom(t.Now(), n)
    ensures Good(w, t2) && t.states <= t2.states && Later(t.Now(), t2.Now()) && Settled(w, t2.Now(), n, s)
  {
    GoodInv(w, t);
    hide Good; hide Inv; hide Run; hide Later; hide Settled;
    t2 := t;
    LaterSelf(t.Now());
    if Moves(w, n, s) {
      OwnerFacts(w, t.Now().groups, n, s);
      var g := KeeperAt(w, n, s);
      NowOK(w, t.Now().groups, g);
      hide Base;
      var now := t.Now().groups[g].now;
      if now.currentConfig.num == n {
        ShardAt(w, g, now, s);
        hide StateOK;
        if now.shards[s].status == Pulling {
          t2 := PullBatch(w, t, g, s);
          StillFrom(w, t, t2, n);
        }
        if t2.Now().groups[g].now.shards[s].status == GCing {
          var t3 := DropBatch(w, t2, g, s);
          LaterThrough(t.Now(), t2.Now(), t3.Now());
          t2 := t3;
        }
      }
      TakerSettles(w, t2, n, s);
    } else {
      assert Settled(w, t2.Now(), n, s) by { NoMove(w, t2.Now(), n, s); }
    }
  }

  lemma NoMove(w: World, sys: System, n: nat, s: nat)
    requires !Moves(w, n, s)
    ensures Settled(w, sys, n, s)
  {
  }

  lemma LaterSelf(sys: System)
    ensures Later(sys, sys)
  {
  }

  lemma {:induction false} SettleAll(w: World, t: Trace, n: nat, k: nat) returns (t2: Trace)
    requires Good(w, t) && AllFrom(t.Now(), n)
    ensures Good(w, t2) && t.states <= t2.states && Later(t.Now(), t2.Now())
    ensures forall s: nat :: s < k ==> Settled(w, t2.Now(), n, s)
    decreases k
  {
    hide Good; hide Later; hide Settled; hide AllFrom;
    if k == 0 {
      t2 := t;
      LaterSelf(t.Now());
    } else {
      var t1 := SettleAll(w, t, n, k - 1);
      StillFrom(w, t, t1, n);
      t2 := SettleShard(w, t1, n, k - 1);
      LaterThrough(t.Now(), t1.Now(), t2.Now());
      forall s: nat | s < k ensures Settled(w, t2.Now(), n, s) {
        if s < k - 1 { StaysSettled(w, t1, t2, n, s); }
      }
    }
  }

  /** With every shard settled, a group at this configuration has nothing left to wait for. */
  lemma SettledIsServing(w: World, t: Trace, n: nat, g: nat)
    requires Good(w, t) && g in t.Now().groups && t.Now().groups[g].now.currentConfig.num == n
    requires AllSettled(w, t.Now(), n)
    ensures AllServing(t.Now().groups[g].now)
  {
    GoodInv(w, t);
    NowOK(w, t.Now().groups, g);
    hide Good; hide Inv; hide Run; hide Base;
    var now := t.Now().groups[g].now;
    forall s | 0 <= s < |now.shards| ensures now.shards[s].status == Serving {
      ShardAt(w, g, now, s);
      assert Settled(w, t.Now(), n, s);
    }
  }

  // ----- Every configuration -----

  /** The groups of `gids` that are at configuration n take the next one. */
  lemma {:induction false} AdvanceAll(w: World, t: Trace, n: nat, gids: set<nat>) returns (t2: Trace)
    requires Good(w, t) && AllFrom(t.Now(), n) && n + 1 < |w.cfgs| && gids <= t.Now().groups.Keys
    requires forall g :: g in gids && t.Now().groups[g].now.currentConfig.num == n ==> AllServing(t.Now().groups[g].now)
    ensures Good(w, t2) && t.states <= t2.states && Later(t.Now(), t2.Now()) && gids <= t2.Now().groups.Keys
    ensures forall g :: g in gids ==> t2.Now().groups[g].now.currentConfig.num > n
    ensures forall g :: g in t.Now().groups && g !in gids ==> g in t2.Now().groups && t2.Now().groups[g] == t.Now().groups[g]
    decreases gids
  {
    hide Steps; hide Shaped; hide Later; hide AllServing; hide Init;
    if gids == {} {
      t2 := t;
      LaterSelf(t.Now());
    } else {
      var g :| g in gids;
      var rest := gids - {g};
      var t1 := AdvanceAll(w, t, n, rest);
      assert t1.Now().groups[g] == t.Now().groups[g];
      if t1.Now().groups[g].now.currentConfig.num == n {
        t2 := AdvanceOne(w, t1, n, g);
        LaterThrough(t.Now(), t1.Now(), t2.Now());
      } else {
        t2 := t1;
      }
    }
  }

  lemma AdvanceOne(w: World, t: Trace, n: nat, g: nat) returns (t2: Trace)
    requires Good(w, t) && g in t.Now().groups && n + 1 < |w.cfgs|
    requires t.Now().groups[g].now.currentConfig.num == n && AllServing(t.Now().groups[g].now)
    ensures Good(w, t2) && t.states <= t2.states && Later(t.Now(), t2.Now()) && t2.Now().groups.Keys == t.Now().groups.Keys
    ensures g in t2.Now().groups && t2.Now().groups[g].now.currentConfig.num == n + 1
    ensures forall h :: h in t.Now().groups && h != g ==> t2.Now().groups[h] == t.Now().groups[h]
  {
    hide Steps; hide Shaped; hide Later; hide AllServing; hide OwnerOK;
    t2 := AdoptNext(w, t, g);
  }

  /** Every group is at the last configuration with all shards Serving. */
  ghost predicate AtRest(w: World, sys: System) {
    forall g :: g in sys.groups ==>
      && WellFormed(sys.groups[g].now) && sys.groups[g].now.gid == g && AllServing(sys.groups[g].now)
      && |w.cfgs| > 0 && sys.groups[g].now.currentConfig == w.cfgs[|w.cfgs| - 1]
  }

  lemma RestIsReached(w: World, t: Trace)
    requires Good(w, t) && |w.cfgs| > 0 && AllFrom(t.Now(), |w.cfgs| - 1)
    requires AllSettled(w, t.Now(), |w.cfgs| - 1)
    ensures AtRest(w, t.Now())
  {
    GoodInv(w, t);
    hide Good; hide Inv; hide Run; hide AllServing; hide Settled;
    forall g | g in t.Now().groups
      ensures var now := t.Now().groups[g].now;
              WellFormed(now) && now.gid == g && AllServing(now) && now.currentConfig == w.cfgs[|w.cfgs| - 1]
    {
      NowOK(w, t.Now().groups, g);
      SettledIsServing(w, t, |w.cfgs| - 1, g);
    }
  }

  lemma {:induction false} CompleteFrom(w: World, t: Trace, n: nat) returns (t2: Trace)
    requires Good(w, t) && AllFrom(t.Now(), n) && n < |w.cfgs|
    ensures Good(w, t2) && t.states <= t2.states && Later(t.Now(), t2.Now()) && AtRest(w, t2.Now())
    decreases |w.cfgs| - n
  {
    hide Good; hide Later; hide Settled; hide AtRest; hide AllServing;
    var t1 := SettleAll(w, t, n, N_SHARDS);
    StillFrom(w, t, t1, n);
    if n + 1 == |w.cfgs| {
      RestIsReached(w, t1);
      t2 := t1;
    } else {
      forall g | g in t1.Now().groups && t1.Now().groups[g].now.currentConfig.num == n
        ensures AllServing(t1.Now().groups[g].now)
      {
        SettledIsServing(w, t1, n, g);
      }
      var t3 := AdvanceAll(w, t1, n, t1.Now().groups.Keys);
      assert t3.Now().groups.Keys == t1.Now().groups.Keys by { SameGroups(t1.Now(), t3.Now()); }
      t2 := CompleteFrom(w, t3, n + 1);
      LaterThrough(t.Now(), t1.Now(), t3.Now());
      LaterThrough(t.Now(), t3.Now(), t2.Now());
    }
  }

  lemma SameGroups(sys: System, sys2: System)
    requires Later(sys, sys2)
    ensures sys2.groups.Keys == sys.groups.Keys
  {
  }

  /**
    * No deadlock: every reachable state, however far apart the groups are and whatever is in
    * flight, has a continuation in which every group comes to the last configuration and every
    * shard is served by its owner there, with the content it had.
    */
  lemma MigrationCompletes(w: World, states: seq<System>, actions: seq<Action>) returns (states2: seq<System>, actions2: seq<Action>)
    requires Run(w, states, actions) && |states| > 0
    ensures Run(w, states2, actions2) && states <= states2 && |states2| > 0
    ensures var sys, sys2 := states[|states| - 1], states2[|states2| - 1];
            && AtRest(w, sys2) && sys2.groups.Keys == sys.groups.Keys
            && forall s: nat :: s < N_SHARDS ==> ServedAsBefore(w, sys, sys2, s)
  {
    var t := Trace(states, actions);
    RunInv(w, states, actions, |states| - 1);
    assert |w.cfgs| > 0;
    hide Inv; hide Steps; hide Shaped; hide AtRest; hide Later;
    var t2 := CompleteFrom(w, t, 0);
    states2, actions2 := t2.states, t2.actions;
    SameGroups(t.Now(), t2.Now());
    hide ServedAsBefore;
    forall s: nat | s < N_SHARDS ensures ServedAsBefore(w, t.Now(), t2.Now(), s) {
      RestServes(w, t, t2, s);
    }
  }

  /** The shard's owner under the last configuration, if it has one, serves the content the shard had. */
  ghost predicate ServedAsBefore(w: World, sys: System, sys2: System, s: nat) {
    var g := OwnerAt(w, |w.cfgs| - 1, s);
    g != NO_GROUP && s < N_SHARDS ==>
      && g in sys2.groups && WellFormed(sys2.groups[g].now) && CanServe(sys2.groups[g].now, s)
      && sys2.groups[g].now.shards[s].kv == Content(w, sys.groups, s)
  }

  lemma RestServes(w: World, t: Trace, t2: Trace, s: nat)
    requires Good(w, t) && Good(w, t2) && Later(t.Now(), t2.Now()) && AtRest(w, t2.Now()) && s < N_SHARDS && |w.cfgs| > 0
    ensures ServedAsBefore(w, t.Now(), t2.Now(), s)
  {
    var g := OwnerAt(w, |w.cfgs| - 1, s);
    if g != NO_GROUP {
      GoodInv(w, t);
      GoodInv(w, t2);
      hide Good; hide Inv; hide Run; hide Content;
      assert KeeperAt(w, |w.cfgs| - 1, s) == g;
      OwnerFacts(w, t2.Now().groups, |w.cfgs| - 1, s);
      hide Base;
      ContentIsStore(w, t.Now(), s);
      InvParts(w, t2.Now());
      ServesTop(w, t2.Now().groups, g, s);
      assert HolderOK(w, t2.Now(), |w.cfgs| - 1, s);
    }
  }
}
