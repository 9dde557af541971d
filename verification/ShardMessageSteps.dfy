/**
  * Steps that only send a message or answer a client: what a monitor proposes or a peer
  * answers is true of the system although it may be based on an old state. A collected batch
  * is all that moves between two groups, an answered copy is the frozen one or is no longer
  * needed, and a write in any table of the group's past has taken effect.
  */
module ShardMessageSteps {
  import opened ShardTypes
  import opened ShardApply
  import opened ShardSystem
  import opened ShardInvariant

  // ----- Nothing but the messages changes -----

  ghost predicate SameContent(sys: System, sys2: System) {
    sys2.groups == sys.groups && sys2.store == sys.store && sys2.effects == sys.effects
  }

  lemma MessageSame(w: World, sys: System, sys2: System, m: Message)
    requires SameContent(sys, sys2) && MessageOK(w, sys, m)
    ensures MessageOK(w, sys2, m)
  {
    hide WholeBatch; hide WholeBatchKeys; hide Has; hide Covers; hide OpsSound; hide Earlier; hide Done;
    if m.PullAnswer? {
      DataSame(w, sys, sys2, m.from, m.to, m.data);
    } else if m.Proposal? && m.command.InsertShards? {
      var source :| DataOK(w, sys, source, m.to, m.command.reply);
      DataSame(w, sys, sys2, source, m.to, m.command.reply);
    }
  }

  lemma DataSame(w: World, sys: System, sys2: System, source: nat, taker: nat, data: ShardsReply)
    requires SameContent(sys, sys2) && DataOK(w, sys, source, taker, data)
    ensures DataOK(w, sys2, source, taker, data)
  {
    hide WholeBatchKeys; hide Has; hide Covers; hide OpsSound;
    forall s: nat | s in data.shards ensures DataAt(w, sys2, data, s) {
      assert DataAt(w, sys, data, s);
    }
  }

  lemma StoreSame(w: World, sys: System, sys2: System)
    requires SameContent(sys, sys2) && StoreOK(w, sys)
    ensures StoreOK(w, sys2)
  {
    hide Has; hide Covers; hide Was; hide Unborn; hide Moves;
    forall m: nat, s: nat ensures HolderOK(w, sys2, m, s) { assert HolderOK(w, sys, m, s); }
    forall g, st, s: nat ensures FrozenOK(w, sys2, g, st, s) { assert FrozenOK(w, sys, g, st, s); }
    forall s: nat ensures UnbornOK(w, sys2, s) { assert UnbornOK(w, sys, s); }
  }

  lemma SendKeepsInv(w: World, sys: System, m: Message)
    requires Inv(w, sys) && MessageOK(w, sys, m)
    ensures Inv(w, Send(sys, m))
  {
    hide Base; hide StoreOK; hide LogsOK; hide ReplaysOK; hide MessageOK; hide OpsSound; hide Earlier;
    var sys2 := Send(sys, m);
    StoreSame(w, sys, sys2);
    forall x | x in sys2.msgs ensures MessageOK(w, sys2, x) {
      MessageSame(w, sys, sys2, x);
    }
  }

  // ----- Batches -----

  /** What a monitor collects is the whole batch that moves between the two groups. */
  lemma BatchIsWhole(w: World, g: nat, st: GroupState, status: Status, source: nat, ids: seq<nat>)
    requires WorldOK(w) && g != NO_GROUP && StateOK(w, g, st)
    requires status == Pulling || status == GCing
    requires Batch(st, status, source, ids)
    ensures WholeBatch(w, st.currentConfig.num, source, g, ids)
  {
    hide Distinct; hide OwnerOK;
    var n := st.currentConfig.num;
    forall s: nat | InBatch(st, status, source, s) ensures Between(w, n, source, g, s) {
      CollectedMoves(w, g, st, status, source, s);
    }
    assert ids[0] in ids;
    forall s: nat | Between(w, n, source, g, s) ensures InBatch(st, status, source, s) {
      MoveOwners(w, n, s);
      assert Between(w, n, source, g, ids[0]);
    }
  }

  lemma CollectedMoves(w: World, g: nat, st: GroupState, status: Status, source: nat, s: nat)
    requires WorldOK(w) && g != NO_GROUP && StateOK(w, g, st) && source != NO_GROUP
    requires status == Pulling || status == GCing
    requires InBatch(st, status, source, s)
    ensures Between(w, st.currentConfig.num, source, g, s)
  {
    hide Lockstep;
    assert ShardOK(w, g, st.currentConfig.num, s, st.shards[s]);
  }

  lemma ShardAt(w: World, g: nat, st: GroupState, s: nat)
    requires StateOK(w, g, st) && s < N_SHARDS
    ensures |st.shards| == N_SHARDS && ShardOK(w, g, st.currentConfig.num, s, st.shards[s])
  {
  }

  /** An old state in which the taker had the data still says so. */
  lemma HadMeansHas(w: World, groups: map<nat, Group>, g: nat, seen: GroupState, s: nat)
    requires Base(w, groups) && g in groups && Was(groups[g], seen)
    requires KeeperAt(w, seen.currentConfig.num, s) == g && Reached(seen, seen.currentConfig.num, s)
    ensures Has(w, groups, seen.currentConfig.num, s)
  {
    var n := seen.currentConfig.num;
    WasOK(w, groups, g, seen);
    NowOK(w, groups, g);
    OwnerFacts(w, groups, n, s);
    hide Base;
    var now := groups[g].now;
    if now.currentConfig.num == n {
      ShardAt(w, g, seen, s);
      ShardAt(w, g, now, s);
      assert ShardLater(seen.shards[s], now.shards[s]);
    }
  }

  // ----- What the steps send -----

  lemma FetchOK(w: World, sys: System, g: nat, seen: GroupState)
    requires Inv(w, sys) && g in sys.groups && Was(sys.groups[g], seen)
    requires AllServing(seen) && seen.currentConfig.num + 1 < |w.cfgs|
    ensures MessageOK(w, sys, Proposal(g, Configuration(w.cfgs[seen.currentConfig.num + 1])))
  {
    hide StoreOK; hide LogsOK; hide ReplaysOK; hide ClientsOK; hide MessagesOK;
    WasOK(w, sys.groups, g, seen);
    var now := sys.groups[g].now;
    if now.currentConfig.num == seen.currentConfig.num {
      forall s | 0 <= s < |now.shards| ensures now.shards[s].status == Serving {
        assert ShardLater(seen.shards[s], now.shards[s]);
      }
    }
  }

  lemma AskPullOK(w: World, sys: System, g: nat, seen: GroupState, source: nat, ids: seq<nat>)
    requires Inv(w, sys) && g in sys.groups && Was(sys.groups[g], seen) && WellFormed(seen)
    requires Batch(seen, Pulling, source, ids)
    ensures MessageOK(w, sys, PullAsk(source, g, ShardsRequest(seen.currentConfig.num, ids)))
  {
    hide StoreOK; hide LogsOK; hide ReplaysOK; hide ClientsOK; hide MessagesOK; hide Batch;
    WasOK(w, sys.groups, g, seen);
    NowOK(w, sys.groups, g);
    BatchIsWhole(w, g, seen, Pulling, source, ids);
  }

  lemma AskDeleteOK(w: World, sys: System, g: nat, seen: GroupState, source: nat, ids: seq<nat>)
    requires Inv(w, sys) && g in sys.groups && Was(sys.groups[g], seen) && WellFormed(seen)
    requires Batch(seen, GCing, source, ids)
    ensures MessageOK(w, sys, DeleteAsk(source, g, ShardsRequest(seen.currentConfig.num, ids)))
  {
    hide StoreOK; hide LogsOK; hide ReplaysOK; hide ClientsOK; hide MessagesOK; hide GroupOK;
    WasOK(w, sys.groups, g, seen);
    NowOK(w, sys.groups, g);
    BatchIsWhole(w, g, seen, GCing, source, ids);
    forall s: nat | s in ids ensures Has(w, sys.groups, seen.currentConfig.num, s) {
      assert InBatch(seen, GCing, source, s);
      assert Between(w, seen.currentConfig.num, source, g, s);
      HadMeansHas(w, sys.groups, g, seen, s);
    }
  }

  /** A shard in an answer: either the taker has it by now, or the copy is the frozen one. */
  lemma AnsweredShard(w: World, sys: System, g: nat, seen: GroupState, taker: nat, n: nat, s: nat)
    requires Base(w, sys.groups) && StoreOK(w, sys) && g in sys.groups && Was(sys.groups[g], seen)
    requires Between(w, n, g, taker, s) && seen.currentConfig.num >= n
    ensures |seen.shards| == N_SHARDS
    ensures Has(w, sys.groups, n, s) || Holds(w, sys, seen, s)
  {
    hide Holds; hide Lockstep;
    WasOK(w, sys.groups, g, seen);
    NowOK(w, sys.groups, g);
    OwnerFacts(w, sys.groups, n, s);
    var now := sys.groups[g].now;
    ShardAt(w, g, seen, s);
    ShardAt(w, g, now, s);
    if !Has(w, sys.groups, n, s) {
      assert now.currentConfig.num == n == seen.currentConfig.num;
      assert ShardLater(seen.shards[s], now.shards[s]);
      assert FrozenOK(w, sys, g, seen, s);
    }
  }

  lemma AnswerPullOK(w: World, sys: System, g: nat, seen: GroupState, m: Message)
    requires Inv(w, sys) && g in sys.groups && Was(sys.groups[g], seen) && WellFormed(seen)
    requires m in sys.msgs && m.PullAsk? && m.to == g && Deletable(m.ask) && seen.currentConfig.num >= m.ask.configNum
    ensures MessageOK(w, sys, PullAnswer(m.from, g, ShardsData(seen, m.ask)))
  {
    hide StoreOK; hide LogsOK; hide ReplaysOK; hide Has; hide Covers; hide Between; hide Base; hide OpsSound;
    assert MessageOK(w, sys, m);
    var data := ShardsData(seen, m.ask);
    var n := m.ask.configNum;
    assert m.ask.shardIds[0] in m.ask.shardIds && m.ask.shardIds[0] in data.shards;
    WasOK(w, sys.groups, g, seen);
    forall s: nat ensures s in data.shards.Keys <==> Between(w, n, g, m.from, s) {
      if s in m.ask.shardIds {
        assert s < N_SHARDS;
      }
    }
    forall s: nat | s in data.shards ensures DataAt(w, sys, data, s) {
      AnsweredShard(w, sys, g, seen, m.from, n, s);
    }
  }

  lemma AnswerDeleteOK(w: World, sys: System, g: nat, seen: GroupState, m: Message)
    requires Inv(w, sys) && g in sys.groups && Was(sys.groups[g], seen)
    requires m in sys.msgs && m.DeleteAsk? && m.to == g
    ensures if seen.currentConfig.num > m.ask.configNum then MessageOK(w, sys, DeleteDone(m.from, g, m.ask))
            else MessageOK(w, sys, Proposal(g, DeleteShards(m.ask)))
  {
    hide StoreOK; hide LogsOK; hide ReplaysOK; hide ClientsOK; hide WholeBatch; hide Has;
    assert MessageOK(w, sys, m);
    WasOK(w, sys.groups, g, seen);
    assert TakenOK(w, sys.groups, g, m.from, m.ask);
  }

  lemma ConfirmDeleteOK(w: World, sys: System, g: nat, m: Message)
    requires Inv(w, sys) && g in sys.groups
    requires m in sys.msgs && m.DeleteAsk? && m.to == g && DeleteShards(m.ask) in sys.groups[g].log
    ensures MessageOK(w, sys, DeleteDone(m.from, g, m.ask))
  {
    hide StoreOK; hide Base; hide ReplaysOK; hide ClientsOK; hide WholeBatch; hide Has;
    assert MessageOK(w, sys, m);
    assert LogOK(w, g, sys.groups[g]);
  }

  lemma SentOK(w: World, sys: System, a: Action)
    requires Inv(w, sys) && Shaped(sys) && Enabled(w, sys, a) && !a.Append? && !a.AnswerDuplicate?
    ensures MessageOK(w, sys, Sent(w, a))
  {
    hide StoreOK; hide LogsOK; hide ReplaysOK; hide Base; hide ShardsData; hide Batch; hide AllServing; hide DataOK;
    hide DroppedOK; hide TakenOK;
    match a
    case Submit(g, r) =>
    case FetchConfig(g, seen) => FetchOK(w, sys, g, seen);
    case AskPull(g, seen, source, ids) => AskPullOK(w, sys, g, seen, source, ids);
    case AnswerPull(g, seen, m) => AnswerPullOK(w, sys, g, seen, m);
    case ProposeInsert(g, m) => assert MessageOK(w, sys, m);
    case AskDelete(g, seen, source, ids) => AskDeleteOK(w, sys, g, seen, source, ids);
    case AnswerDelete(g, seen, m) => AnswerDeleteOK(w, sys, g, seen, m);
    case ConfirmDelete(g, m) => ConfirmDeleteOK(w, sys, g, m);
    case ProposeDelete(g, m) =>
      assert MessageOK(w, sys, m);
      assert DroppedOK(w, sys.groups, m.from, g, m.ask);
    case ProposeEmpty(g) =>
  }

  // ----- Answering a repeated write -----

  /** A write the table covers took effect. */
  lemma DuplicateTookEffect(w: World, sys: System, g: nat, seen: GroupState, r: Request)
    requires ClientsOK(w, sys) && g in sys.groups && Was(sys.groups[g], seen)
    requires r in w.issued && r.op != OpGet && IsDuplicate(seen.lastOperations, r.clientId, r.commandId)
    ensures Name(r) in sys.effects && seen.lastOperations[r.clientId].lastReply == Reply(OK, [])
  {
    hide Was;
    assert OpsSound(sys.effects, seen.lastOperations);
    var last := Write(r.clientId, seen.lastOperations[r.clientId].maxCommandId);
    assert last in sys.effects;
    assert Earlier(w, sys.effects, last);
  }

  lemma AnswerDuplicateKeepsInv(w: World, sys: System, g: nat, seen: GroupState, r: Request)
    requires Inv(w, sys) && g in sys.groups && Was(sys.groups[g], seen)
    requires r in w.issued && r.op != OpGet && IsDuplicate(seen.lastOperations, r.clientId, r.commandId)
    ensures Inv(w, sys.(answered := sys.answered + {Name(r)}))
  {
    hide Base; hide StoreOK; hide LogsOK; hide ReplaysOK; hide MessageOK; hide OpsSound; hide Earlier;
    var sys2 := sys.(answered := sys.answered + {Name(r)});
    DuplicateTookEffect(w, sys, g, seen, r);
    StoreSame(w, sys, sys2);
    forall x | x in sys2.msgs ensures MessageOK(w, sys2, x) {
      MessageSame(w, sys, sys2, x);
    }
  }
}
