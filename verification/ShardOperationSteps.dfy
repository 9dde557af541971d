/**
  * Appending a client operation keeps the invariant; a write acts on the one map. Operations
  * that find their shard elsewhere, gets and repeated writes leave everything as it is. A write
  * that takes effect changes one shard at its only holder and the map alike, and the client
  * table covers it from then on.
  */
module ShardOperationSteps {
  import opened ShardTypes
  import opened ShardApply
  import opened ShardSystem
  import opened ShardInvariant
  import opened ShardMessageSteps
  import opened ShardGrowth

  // ----- Appends that leave the map alone -----

  lemma SameShardSelf(w: World, sys: System, sys2: System, s: nat)
    requires sys2.store == sys.store && sys2.effects == sys.effects && s < |sys.store|
    ensures SameShard(w, sys, sys2, s)
  {
  }

  /** An append that writes nothing only has to say what happened to its own group. */
  lemma QuietAppendOK(w: World, sys: System, g: nat, c: Command, st: GroupState, sys2: System)
    requires Inv(w, sys) && g in sys.groups && Advances(w, sys.groups, g, st)
    requires sys2.groups == sys.groups[g := Grown(sys.groups[g], c, st)] && sys2.msgs == sys.msgs
    requires sys2.store == sys.store && sys2.effects == sys.effects
    requires forall order :: SameResult(sys.groups[g].now, c, order, st)
    ensures AppendOK(w, sys, g, c, st, sys2)
  {
    hide Base; hide ClientsOK; hide MessagesOK; hide LogsOK; hide ReplaysOK; hide Advances; hide SameResult;
    hide Has; hide HolderOK; hide FrozenOK; hide UnbornOK; hide SameShard; hide Unborn;
    forall s: nat | s < N_SHARDS ensures SameShard(w, sys, sys2, s) { SameShardSelf(w, sys, sys2, s); }
  }

  lemma SelfAdvances(w: World, groups: map<nat, Group>, g: nat)
    requires Base(w, groups) && g in groups
    ensures Advances(w, groups, g, groups[g].now)
  {
    NowOK(w, groups, g);
    hide Base; hide StateOK; hide Reached; hide Done;
    SelfProgress(groups[g].now);
    hide Progress;
  }

  /** The state stays as it is. */
  lemma UnchangedKeepsInv(w: World, sys: System, g: nat, c: Command, sys2: System)
    requires Inv(w, sys) && g in sys.groups
    requires sys2.groups == sys.groups[g := Grown(sys.groups[g], c, sys.groups[g].now)] && sys2.msgs == sys.msgs
    requires sys2.store == sys.store && sys2.effects == sys.effects && sys2.answered <= sys.effects
    requires forall order :: SameResult(sys.groups[g].now, c, order, sys.groups[g].now)
    requires forall ask, taker :: c == DeleteShards(ask) && WholeBatch(w, ask.configNum, g, taker, ask.shardIds) ==>
               forall s: nat :: s in ask.shardIds ==> Done(sys.groups[g].now, ask.configNum, s)
    ensures Inv(w, sys2)
  {
    var now := sys.groups[g].now;
    hide Inv; hide SameResult; hide Done; hide WholeBatch; hide AppendOK; hide Advances; hide Earlier; hide OpsSound;
    hide Has; hide Holds;
    InvParts(w, sys);
    SelfAdvances(w, sys.groups, g);
    QuietAppendOK(w, sys, g, c, now, sys2);
    forall m: nat, s: nat ensures HolderOK(w, sys2, m, s) { HolderUnchanged(w, sys, g, c, sys2, m, s); }
    ClientFacts(w, sys, g);
    AppendKeepsInv(w, sys, g, c, now, sys2);
  }

  lemma InvParts(w: World, sys: System)
    requires Inv(w, sys)
    ensures Base(w, sys.groups) && StoreOK(w, sys) && ClientsOK(w, sys)
    ensures MessagesOK(w, sys) && LogsOK(w, sys.groups) && ReplaysOK(sys.groups)
  {
  }

  lemma HolderUnchanged(w: World, sys: System, g: nat, c: Command, sys2: System, m: nat, s: nat)
    requires StoreOK(w, sys) && g in sys.groups
    requires sys2.groups == sys.groups[g := Grown(sys.groups[g], c, sys.groups[g].now)]
    requires sys2.store == sys.store && sys2.effects == sys.effects
    ensures HolderOK(w, sys2, m, s)
  {
    assert HolderOK(w, sys, m, s);
    hide FrozenOK; hide UnbornOK; hide Covers; hide Reached;
  }

  lemma ClientFacts(w: World, sys: System, g: nat)
    requires ClientsOK(w, sys) && g in sys.groups
    ensures OpsSound(sys.effects, sys.groups[g].now.lastOperations)
    ensures sys.answered <= sys.effects && forall e :: e in sys.effects ==> Earlier(w, sys.effects, e)
  {
    hide Earlier; hide OpsSound;
    assert Was(sys.groups[g], sys.groups[g].now);
  }

  // ----- A write that takes effect -----

  ghost predicate Written(w: World, sys: System, g: nat, r: Request, st: GroupState, sys2: System) {
    && |sys.store| == N_SHARDS && g in sys.groups && WellFormed(sys.groups[g].now) && r in w.issued
    && TakesEffect(sys.groups[g].now, Operation(r))
    && st == ApplyOperation(sys.groups[g].now, r).0
    && sys2 == NextAppend(sys, g, Operation(r), [])
  }

  lemma WrittenState(now: GroupState, r: Request)
    requires WellFormed(now) && TakesEffect(now, Operation(r))
    ensures var st := ApplyOperation(now, r).0; var k := Key2Shard(r.key);
            && WellFormed(st) && st.gid == now.gid && st.currentConfig == now.currentConfig && st.lastConfig == now.lastConfig
            && st.shards == now.shards[k := Shard(Update(now.shards[k].kv, r), now.shards[k].status)]
            && st.lastOperations == now.lastOperations[r.clientId := Context(r.commandId, Reply(OK, []))]
            && OpsGrow(now.lastOperations, st.lastOperations)
  {
  }

  lemma WrittenStateOK(w: World, g: nat, now: GroupState, st: GroupState, r: Request)
    requires StateOK(w, g, now) && TakesEffect(now, Operation(r)) && st == ApplyOperation(now, r).0 && g != NO_GROUP
    ensures StateOK(w, g, st) && Progress(now, st)
  {
    WrittenState(now, r);
    var k := Key2Shard(r.key);
    assert OwnerAt(w, now.currentConfig.num, k) == g == KeeperAt(w, now.currentConfig.num, k);
    hide ApplyOperation; hide OpsGrow; hide Moves;
    forall s: nat | s < N_SHARDS ensures ShardOK(w, g, st.currentConfig.num, s, st.shards[s]) {
      assert ShardOK(w, g, now.currentConfig.num, s, now.shards[s]);
    }
    assert forall s :: 0 <= s < N_SHARDS ==> st.shards[s].status == now.shards[s].status;
  }

  lemma WrittenAdvances(w: World, groups: map<nat, Group>, g: nat, st: GroupState, r: Request)
    requires Base(w, groups) && g in groups && WellFormed(groups[g].now)
    requires TakesEffect(groups[g].now, Operation(r)) && st == ApplyOperation(groups[g].now, r).0
    ensures Advances(w, groups, g, st)
  {
    NowOK(w, groups, g);
    WrittenStateOK(w, g, groups[g].now, st, r);
    WrittenState(groups[g].now, r);
    hide Base; hide StateOK; hide Progress; hide ApplyOperation; hide OpsGrow;
    assert forall n: nat, s: nat :: Reached(st, n, s) == Reached(groups[g].now, n, s);
    assert forall n: nat, s: nat :: Done(st, n, s) == Done(groups[g].now, n, s);
  }

  /** Other shards are not concerned: the write's name is its own. */
  lemma OtherShard(w: World, sys: System, g: nat, r: Request, st: GroupState, sys2: System, s: nat)
    requires WorldOK(w) && |sys.store| == N_SHARDS && Written(w, sys, g, r, st, sys2)
    requires s < N_SHARDS && s != Key2Shard(r.key)
    ensures SameShard(w, sys, sys2, s)
  {
    hide OwnerOK; hide ApplyOperation;
    forall q | q in w.issued && q.op != OpGet && Key2Shard(q.key) == s && Name(q) in sys2.effects
      ensures Name(q) in sys.effects
    {
      assert SameName(q, r) ==> q == r;
    }
  }

  lemma WrittenContent(w: World, sys: System, g: nat, r: Request, st: GroupState, sys2: System, m: nat, s: nat)
    requires Base(w, sys.groups) && StoreOK(w, sys) && Written(w, sys, g, r, st, sys2)
    ensures HolderOK(w, sys2, m, s)
  {
    var now := sys.groups[g].now;
    var k := Key2Shard(r.key);
    WrittenState(now, r);
    ServesTop(w, sys.groups, g, k);
    OwnerFacts(w, sys.groups, m, s);
    assert HolderOK(w, sys, m, s);
    hide StoreOK; hide ApplyOperation; hide Covers; hide SameShard;
    assert Has(w, sys2.groups, m, s) == Has(w, sys.groups, m, s);
    assert Has(w, sys2.groups, m + 1, s) == Has(w, sys.groups, m + 1, s);
    if Has(w, sys.groups, m, s) && !Has(w, sys.groups, m + 1, s) {
      if s == k {
        TopUnique(w, sys.groups, now.currentConfig.num, m, s);
        WrittenCovered(w, sys, g, r, st, sys2);
      } else {
        OtherShard(w, sys, g, r, st, sys2, s);
        SelfProgress(now);
        var h := KeeperAt(w, m, s);
        OpsGrowSelf(sys.groups[h].now.lastOperations);
        HoldsKept(w, sys, sys2, sys.groups[h].now, sys2.groups[h].now, s);
      }
    }
  }

  lemma OpsGrowSelf(ops: Dedup)
    ensures OpsGrow(ops, ops)
  {
  }

  lemma WrittenCovered(w: World, sys: System, g: nat, r: Request, st: GroupState, sys2: System)
    requires |sys.store| == N_SHARDS && Written(w, sys, g, r, st, sys2)
    requires Covers(w, sys.effects, Key2Shard(r.key), sys.groups[g].now.lastOperations)
    ensures Covers(w, sys2.effects, Key2Shard(r.key), st.lastOperations)
  {
    WrittenState(sys.groups[g].now, r);
    hide ApplyOperation;
  }

  lemma WrittenAppendOK(w: World, sys: System, g: nat, r: Request, st: GroupState, sys2: System)
    requires Inv(w, sys) && Written(w, sys, g, r, st, sys2)
    ensures AppendOK(w, sys, g, Operation(r), st, sys2)
  {
    var k := Key2Shard(r.key);
    hide ClientsOK; hide MessagesOK; hide LogsOK; hide ReplaysOK; hide SameShard; hide StateOK; hide Progress;
    hide HolderOK; hide FrozenOK; hide UnbornOK; hide JustifiedAt; hide GateOK; hide GroupOK; hide Has;
    hide ApplyOperation; hide Reached;
    WrittenAdvances(w, sys.groups, g, st, r);
    hide Advances;
    ServesTop(w, sys.groups, g, k);
    forall s: nat | s < N_SHARDS && s != k ensures SameShard(w, sys, sys2, s) {
      OtherShard(w, sys, g, r, st, sys2, s);
    }
    forall n: nat, s: nat ensures FrozenStays(w, sys, sys2, n, s) {
      if s == k && Moves(w, n, s) && !Has(w, sys.groups, n, s) && KeeperAt(w, n - 1, s) in sys.groups
         && sys.groups[KeeperAt(w, n - 1, s)].now.currentConfig.num >= n {
        FrozenExcludes(w, sys.groups, n, s, g);
      }
    }
  }

  lemma WrittenContentOK(w: World, sys: System, g: nat, r: Request, st: GroupState, sys2: System)
    requires Inv(w, sys) && Written(w, sys, g, r, st, sys2) && Earlier(w, sys.effects, Name(r))
    ensures ContentOK(w, sys, g, Operation(r), st, sys2)
  {
    WrittenState(sys.groups[g].now, r);
    hide Base; hide StoreOK; hide MessagesOK; hide LogsOK; hide ReplaysOK; hide HolderOK; hide FrozenOK;
    hide ApplyOperation; hide WholeBatch; hide Done;
    forall m: nat, s: nat ensures HolderOK(w, sys2, m, s) {
      WrittenContent(w, sys, g, r, st, sys2, m, s);
    }
    ClientFacts(w, sys, g);
    hide ClientsOK;
  }

  /** Only a write with a fresh name, served here, changes the state. */
  lemma OperationUnchanged(now: GroupState, r: Request)
    requires WellFormed(now) && !TakesEffect(now, Operation(r))
    ensures ApplyOperation(now, r).0 == now
  {
    var k := Key2Shard(r.key);
    assert now.shards[k := Shard(now.shards[k].kv, now.shards[k].status)] == now.shards;
  }

  lemma OperationKeepsInv(w: World, sys: System, g: nat, r: Request, order: seq<nat>)
    requires Inv(w, sys) && Shaped(sys) && g in sys.groups && CommandOK(w, sys, g, Operation(r))
    ensures Inv(w, NextAppend(sys, g, Operation(r), order))
  {
    hide Inv; hide Was; hide Earlier;
    var now := sys.groups[g].now;
    var sys2 := NextAppend(sys, g, Operation(r), order);
    var st := ApplyOperation(now, r).0;
    if TakesEffect(now, Operation(r)) {
      WrittenAppendOK(w, sys, g, r, st, sys2);
      WrittenContentOK(w, sys, g, r, st, sys2);
      hide AppendOK; hide ContentOK;
      AppendKeepsInv(w, sys, g, Operation(r), st, sys2);
    } else {
      OperationUnchanged(now, r);
      InvParts(w, sys);
      if ServesWrite(now, Operation(r)) {
        AssertWas(sys.groups[g]);
        DuplicateTookEffect(w, sys, g, now, r);
      }
      ClientFacts(w, sys, g);
      hide ApplyOperation;
      UnchangedKeepsInv(w, sys, g, Operation(r), sys2);
    }
  }

  lemma AssertWas(group: Group)
    ensures Was(group, group.now)
  {
  }
}
