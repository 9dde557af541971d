/** The theorems about all runs of the groups. */
module ShardSafety {
  import opened ShardTypes
  import opened ShardApply
  import opened ShardSystem
  import opened ShardInvariant
  import opened ShardMessageSteps
  import opened ShardGrowth
  import opened ShardOperationSteps
  import opened ShardConfigSteps
  import opened ShardInsertSteps
  import opened ShardDeleteSteps

  // Exclusive serving, one key-value map, writes that take effect once, and replicas that agree.

  // ----- Every reachable state is good -----

  lemma InitialStateOK(w: World, g: nat)
    requires WorldOK(w)
    ensures StateOK(w, g, InitialState(g)) && Progress(InitialState(g), InitialState(g))
  {
    hide OwnerOK;
    forall s: nat | s < N_SHARDS ensures KeeperAt(w, 0, s) == NO_GROUP {
      assert w.cfgs[0].shards[s] == NO_GROUP;
    }
  }

  lemma InitBase(w: World)
    requires WorldOK(w)
    ensures Base(w, Init(w).groups)
    ensures forall n: nat, s: nat :: !Has(w, Init(w).groups, n, s)
  {
    var groups := Init(w).groups;
    forall g | g in groups ensures GroupOK(w, g, groups[g]) { InitialStateOK(w, g); }
    forall n: nat, s: nat ensures !Has(w, groups, n, s) && GateOK(w, groups, n, s) {
      if n == 0 && s < N_SHARDS { assert w.cfgs[0].shards[s] == NO_GROUP; }
    }
  }

  lemma InitInv(w: World)
    requires WorldOK(w)
    ensures Inv(w, Init(w)) && Shaped(Init(w))
  {
    var sys := Init(w);
    InitBase(w);
    hide WorldOK; hide Base; hide Has;
    assert forall g :: g in sys.groups ==> ReplayOK(g, sys.groups[g]);
    assert forall g, st, s: nat :: FrozenOK(w, sys, g, st, s);
  }

  lemma InvShaped(w: World, sys: System)
    requires Inv(w, sys)
    ensures Shaped(sys)
  {
    hide ClientsOK; hide MessagesOK; hide LogsOK; hide ReplaysOK; hide Lockstep; hide ShardOK; hide Progress;
    hide GateOK; hide ConfigsOK; hide WorldOK; hide HolderOK; hide FrozenOK; hide UnbornOK;
    forall g, st | g in sys.groups && Was(sys.groups[g], st) ensures WellFormed(st) {
      WasOK(w, sys.groups, g, st);
    }
    forall g | g in sys.groups ensures WellFormed(sys.groups[g].now) {
      NowOK(w, sys.groups, g);
    }
  }

  lemma AppendStepKeepsInv(w: World, sys: System, g: nat, c: Command, order: seq<nat>)
    requires Inv(w, sys) && Shaped(sys) && g in sys.groups && Proposal(g, c) in sys.msgs && Applicable(c, order)
    ensures Inv(w, NextAppend(sys, g, c, order))
  {
    assert MessageOK(w, sys, Proposal(g, c));
    InvParts(w, sys);
    ClientFacts(w, sys, g);
    hide Inv; hide Was; hide CommandOK; hide NextAppend; hide Base; hide StoreOK; hide LogsOK; hide ReplaysOK;
    hide MessagesOK; hide ClientsOK; hide OpsSound; hide Earlier; hide Insertable;
    match c
    case Operation(r) => OperationKeepsInv(w, sys, g, r, order);
    case Configuration(config) => ConfigurationKeepsInv(w, sys, g, config, order);
    case InsertShards(data) => InsertKeepsInv(w, sys, g, data, order);
    case DeleteShards(ask) => DeleteKeepsInv(w, sys, g, ask, order);
    case EmptyEntry => EmptyKeepsInv(w, sys, g, order);
  }

  lemma EmptyKeepsInv(w: World, sys: System, g: nat, order: seq<nat>)
    requires Inv(w, sys) && Shaped(sys) && g in sys.groups
    ensures Inv(w, NextAppend(sys, g, EmptyEntry, order))
  {
    InvParts(w, sys);
    ClientFacts(w, sys, g);
    hide Inv; hide Was; hide Base; hide StoreOK; hide LogsOK; hide ReplaysOK; hide MessagesOK; hide ClientsOK;
    hide OpsSound; hide Earlier;
    UnchangedKeepsInv(w, sys, g, EmptyEntry, NextAppend(sys, g, EmptyEntry, order));
  }

  /** Every step keeps the invariant. */
  lemma NextKeepsInv(w: World, sys: System, a: Action)
    requires Inv(w, sys) && Shaped(sys) && Enabled(w, sys, a)
    ensures Inv(w, Next(w, sys, a))
  {
    hide Inv; hide Was; hide NextAppend; hide Sent; hide Batch; hide AllServing; hide Applicable; hide Outstanding;
    hide Deletable;
    match a
    case Append(g, c, order) => AppendStepKeepsInv(w, sys, g, c, order);
    case AnswerDuplicate(g, seen, r) => AnswerDuplicateKeepsInv(w, sys, g, seen, r);
    case _ =>
      SentOK(w, sys, a);
      SendKeepsInv(w, sys, Sent(w, a));
  }

  ghost predicate Goes(w: World, sys: System, a: Action, sys2: System) {
    Shaped(sys) && Enabled(w, sys, a) && sys2 == Next(w, sys, a)
  }

  /** Any enabled steps, one after the other, from the initial state. */
  ghost predicate Steps(w: World, states: seq<System>, actions: seq<Action>) {
    && |states| == |actions| + 1 && states[0] == Init(w)
    && forall k :: 0 <= k < |actions| ==> Goes(w, states[k], actions[k], states[k + 1])
  }

  /** A run: such steps in a world whose configurations are as the migration needs them. */
  ghost predicate Run(w: World, states: seq<System>, actions: seq<Action>) {
    WorldOK(w) && Steps(w, states, actions)
  }

  lemma {:induction false} RunInv(w: World, states: seq<System>, actions: seq<Action>, k: nat)
    requires Run(w, states, actions) && k < |states|
    ensures Inv(w, states[k]) && Shaped(states[k])
    decreases k
  {
    hide Inv; hide Init; hide WorldOK;
    if k == 0 {
      InitInv(w);
    } else {
      RunInv(w, states, actions, k - 1);
      assert Goes(w, states[k - 1], actions[k - 1], states[k]);
      NextKeepsInv(w, states[k - 1], actions[k - 1]);
      InvShaped(w, states[k]);
    }
  }

  // ----- Exclusive serving -----

  /** At most one group can serve a shard, however far apart the groups' configurations are. */
  lemma ExclusiveServing(w: World, states: seq<System>, actions: seq<Action>, k: nat, g: nat, h: nat, s: nat)
    requires Run(w, states, actions) && k < |states| && s < N_SHARDS
    requires g in states[k].groups && h in states[k].groups
    requires WellFormed(states[k].groups[g].now) && CanServe(states[k].groups[g].now, s)
    requires WellFormed(states[k].groups[h].now) && CanServe(states[k].groups[h].now, s)
    ensures g == h
  {
    RunInv(w, states, actions, k);
    var groups := states[k].groups;
    hide Run; hide Has; hide Base; hide StoreOK; hide ClientsOK; hide MessagesOK; hide LogsOK; hide ReplaysOK;
    hide CanServe;
    ServesTop(w, groups, g, s);
    ServesTop(w, groups, h, s);
    TopUnique(w, groups, groups[g].now.currentConfig.num, groups[h].now.currentConfig.num, s);
  }

  // ----- One map -----

  /** The last configuration whose owner of s has the shard's data. */
  ghost predicate IsTop(w: World, groups: map<nat, Group>, m: nat, s: nat) {
    Has(w, groups, m, s) && !Has(w, groups, m + 1, s)
  }

  /**
    * The content of shard s, read off the groups: from its new owner once that owner is
    * past Pulling, from the previous owner before that and while gid 0 has the shard, empty
    * while it never had an owner.
    */
  ghost function Content(w: World, groups: map<nat, Group>, s: nat): Store {
    if m: nat :| IsTop(w, groups, m, s) && s < |groups[KeeperAt(w, m, s)].now.shards| then
      groups[KeeperAt(w, m, s)].now.shards[s].kv
    else map[]
  }

  lemma {:induction false} TopExists(w: World, groups: map<nat, Group>, m: nat, s: nat) returns (top: nat)
    requires Base(w, groups) && Has(w, groups, m, s)
    ensures IsTop(w, groups, top, s) && top >= m
    decreases |w.cfgs| - m
  {
    OwnerFacts(w, groups, m, s);
    hide Base; hide Reached;
    if Has(w, groups, m + 1, s) {
      top := TopExists(w, groups, m + 1, s);
    } else {
      top := m;
    }
  }

  /** Someone holds every shard that ever had an owner: one group, in one of three situations. */
  lemma SomeoneHolds(w: World, states: seq<System>, actions: seq<Action>, k: nat, m: nat, s: nat) returns (top: nat)
    requires Run(w, states, actions) && k < |states| && Has(w, states[k].groups, m, s)
    ensures top >= m && IsTop(w, states[k].groups, top, s) && s < N_SHARDS
    ensures var st := states[k].groups[KeeperAt(w, top, s)].now; WellFormed(st) && Keeps(w, st, top, s)
  {
    RunInv(w, states, actions, k);
    hide Run; hide Base; hide StoreOK; hide ClientsOK; hide MessagesOK; hide LogsOK; hide ReplaysOK; hide CanServe;
    hide Moves; hide Has; hide Keeps;
    top := TopExists(w, states[k].groups, m, s);
    TopShape(w, states[k].groups, top, s);
  }

  lemma ContentIsStore(w: World, sys: System, s: nat)
    requires Inv(w, sys) && s < N_SHARDS
    ensures |sys.store| == N_SHARDS && Content(w, sys.groups, s) == sys.store[s]
  {
    InvParts(w, sys);
    hide Inv; hide Base; hide ClientsOK; hide Has; hide FrozenOK; hide Covers;
    if m: nat :| Has(w, sys.groups, m, s) {
      var top := TopExists(w, sys.groups, m, s);
      TopShape(w, sys.groups, top, s);
      forall n: nat | IsTop(w, sys.groups, n, s) ensures n == top {
        TopUnique(w, sys.groups, n, top, s);
      }
      assert HolderOK(w, sys, top, s);
    } else {
      assert UnbornOK(w, sys, s);
    }
  }

  /** The content a step leaves behind, seen as a step of one map. */
  ghost function OneMap(sys: System, a: Action, s: nat, content: Store): Store
    requires Shaped(sys) && a.g in sys.groups
  {
    if a.Append? && TakesEffect(sys.groups[a.g].now, a.command) && Key2Shard(a.command.request.key) == s then
      Update(content, a.command.request)
    else content
  }

  /**
    * The groups refine one key-value map: configurations, pulls, insertions and deletions
    * leave every shard's content alone, and a write acts on it once, where it is served.
    */
  lemma StepsRefineOneMap(w: World, states: seq<System>, actions: seq<Action>, k: nat, s: nat)
    requires Run(w, states, actions) && k < |actions| && s < N_SHARDS
    ensures Shaped(states[k]) && actions[k].g in states[k].groups
    ensures Content(w, states[k + 1].groups, s) == OneMap(states[k], actions[k], s, Content(w, states[k].groups, s))
  {
    RunInv(w, states, actions, k);
    RunInv(w, states, actions, k + 1);
    assert Goes(w, states[k], actions[k], states[k + 1]);
    hide Inv; hide Run; hide Content; hide Shaped; hide Sent;
    ContentIsStore(w, states[k], s);
    ContentIsStore(w, states[k + 1], s);
    hide Apply; hide Applicable; hide Was;
  }

  /** Nothing is stored at the start. */
  lemma ContentStartsEmpty(w: World, s: nat)
    requires WorldOK(w) && s < N_SHARDS
    ensures Content(w, Init(w).groups, s) == map[]
  {
    InitBase(w);
    hide Base; hide Has; hide WorldOK;
  }

  /** A served request is answered as on the one map. */
  lemma ServedFromOneMap(w: World, states: seq<System>, actions: seq<Action>, k: nat, r: Request)
    requires Run(w, states, actions) && k < |actions|
    requires actions[k].Append? && actions[k].command == Operation(r)
    requires Shaped(states[k]) && actions[k].g in states[k].groups
    requires CanServe(states[k].groups[actions[k].g].now, Key2Shard(r.key))
    ensures ApplyOperation(states[k].groups[actions[k].g].now, r).1 == Answer(Content(w, states[k].groups, Key2Shard(r.key)), r)
  {
    var sys, g, s := states[k], actions[k].g, Key2Shard(r.key);
    var now := sys.groups[g].now;
    RunInv(w, states, actions, k);
    InvParts(w, sys);
    hide Run; hide Inv; hide Base; hide Content; hide Covers; hide Has; hide FrozenOK; hide UnbornOK; hide Shaped;
    ContentIsStore(w, sys, s);
    ServesTop(w, sys.groups, g, s);
    assert HolderOK(w, sys, now.currentConfig.num, s);
    hide StoreOK;
    ClientFacts(w, sys, g);
    hide ClientsOK;
  }

  // ----- Writes take effect once -----

  /** A write that takes effect never did before: the table moves with the shard. */
  lemma EffectIsFresh(w: World, sys: System, g: nat, r: Request)
    requires Inv(w, sys) && g in sys.groups && WellFormed(sys.groups[g].now) && r in w.issued
    requires TakesEffect(sys.groups[g].now, Operation(r))
    ensures Name(r) !in sys.effects
  {
    InvParts(w, sys);
    hide Inv; hide Base; hide FrozenOK; hide UnbornOK; hide Has;
    ServesTop(w, sys.groups, g, Key2Shard(r.key));
    assert HolderOK(w, sys, sys.groups[g].now.currentConfig.num, Key2Shard(r.key));
  }

  /** Step k makes write r effective. */
  ghost predicate Effective(w: World, states: seq<System>, actions: seq<Action>, k: nat, r: Request) {
    && k < |actions| && k < |states| && Shaped(states[k])
    && actions[k].Append? && actions[k].g in states[k].groups && actions[k].command == Operation(r)
    && TakesEffect(states[k].groups[actions[k].g].now, Operation(r))
  }

  lemma {:induction false} EffectsGrow(w: World, states: seq<System>, actions: seq<Action>, j: nat, k: nat)
    requires Run(w, states, actions) && j <= k < |states|
    ensures states[j].effects <= states[k].effects
    decreases k - j
  {
    if j < k {
      EffectsGrow(w, states, actions, j, k - 1);
      assert Goes(w, states[k - 1], actions[k - 1], states[k]);
    }
  }

  lemma EffectiveIssued(w: World, states: seq<System>, actions: seq<Action>, k: nat, r: Request)
    requires Run(w, states, actions) && Effective(w, states, actions, k, r)
    ensures Inv(w, states[k]) && r in w.issued
    ensures Name(r) in states[k + 1].effects && Name(r) !in states[k].effects
  {
    RunInv(w, states, actions, k);
    assert Goes(w, states[k], actions[k], states[k + 1]);
    assert Proposal(actions[k].g, Operation(r)) in states[k].msgs;
    assert MessageOK(w, states[k], Proposal(actions[k].g, Operation(r)));
    hide Run; hide Inv; hide Apply; hide Earlier;
    EffectIsFresh(w, states[k], actions[k].g, r);
  }

  /** At most once, across retries, duplicate log entries and shard moves. */
  lemma AtMostOnce(w: World, states: seq<System>, actions: seq<Action>, j: nat, k: nat, r: Request, q: Request)
    requires Run(w, states, actions) && Effective(w, states, actions, j, r) && Effective(w, states, actions, k, q)
    requires Name(r) == Name(q)
    ensures j == k
  {
    hide Run; hide Inv; hide Effective;
    EffectiveIssued(w, states, actions, j, r);
    EffectiveIssued(w, states, actions, k, q);
    hide Next;
    if j < k {
      EffectiveInRange(w, states, actions, k, q);
      EffectsGrow(w, states, actions, j + 1, k);
    } else if k < j {
      EffectiveInRange(w, states, actions, j, r);
      EffectsGrow(w, states, actions, k + 1, j);
    }
  }

  lemma EffectiveInRange(w: World, states: seq<System>, actions: seq<Action>, k: nat, r: Request)
    requires Effective(w, states, actions, k, r)
    ensures k < |actions| && k < |states|
  {
    hide Shaped; hide TakesEffect;
  }

  /** An effect stems from a step. */
  lemma {:induction false} EffectHasStep(w: World, states: seq<System>, actions: seq<Action>, k: nat, name: Write)
    returns (j: nat, r: Request)
    requires Run(w, states, actions) && k < |states| && name in states[k].effects
    ensures j < k && Effective(w, states, actions, j, r) && Name(r) == name
    decreases k
  {
    hide WorldOK; hide Apply; hide Shaped; hide Was; hide Applicable;
    assert k > 0;
    assert Goes(w, states[k - 1], actions[k - 1], states[k]);
    if name in states[k - 1].effects {
      j, r := EffectHasStep(w, states, actions, k - 1, name);
    } else {
      j, r := k - 1, actions[k - 1].command.request;
    }
  }

  /**
    * Exactly once: whatever replica answered a write, from its log or from its table, that
    * very write took effect in some earlier step (and by AtMostOnce in no other).
    */
  lemma AnsweredTookEffect(w: World, states: seq<System>, actions: seq<Action>, k: nat, name: Write)
    returns (j: nat, r: Request)
    requires Run(w, states, actions) && k < |states| && name in states[k].answered
    ensures j < k && Effective(w, states, actions, j, r) && Name(r) == name
  {
    RunInv(w, states, actions, k);
    InvParts(w, states[k]);
    hide Inv; hide Run; hide Effective; hide Base; hide StoreOK; hide Earlier;
    j, r := EffectHasStep(w, states, actions, k, name);
  }

  // ----- Configurations and batches -----

  /** A configuration entry only takes effect while all shards are Serving, whoever proposed it and when. */
  lemma ConfigurationFindsAllServing(w: World, states: seq<System>, actions: seq<Action>, k: nat, config: Config)
    requires Run(w, states, actions) && k < |actions| && actions[k].Append? && actions[k].command == Configuration(config)
    requires actions[k].g in states[k].groups
    requires ApplyConfigurationAccepts(states[k].groups[actions[k].g].now, config)
    ensures AllServing(states[k].groups[actions[k].g].now) && config.num < |w.cfgs| && config == w.cfgs[config.num]
  {
    RunInv(w, states, actions, k);
    assert Goes(w, states[k], actions[k], states[k + 1]);
    hide Run; hide Base; hide StoreOK; hide ClientsOK; hide LogsOK; hide ReplaysOK; hide AllServing;
    assert MessageOK(w, states[k], Proposal(actions[k].g, Configuration(config)));
  }

  predicate ApplyConfigurationAccepts(st: GroupState, config: Config) {
    config.num == st.currentConfig.num + 1
  }

  /** Shards that go from one group to another in one configuration always share a status on each side. */
  lemma BatchLockstep(w: World, states: seq<System>, actions: seq<Action>, k: nat, g: nat, st: GroupState, source: nat, taker: nat, s: nat, t: nat)
    requires Run(w, states, actions) && k < |states| && g in states[k].groups && Was(states[k].groups[g], st)
    requires Between(w, st.currentConfig.num, source, taker, s) && Between(w, st.currentConfig.num, source, taker, t)
    ensures |st.shards| == N_SHARDS && st.shards[s].status == st.shards[t].status
  {
    RunInv(w, states, actions, k);
    hide Run; hide StoreOK; hide ClientsOK; hide MessagesOK; hide LogsOK; hide ReplaysOK; hide ShardOK;
    hide Progress; hide ConfigsOK;
    WasOK(w, states[k].groups, g, st);
  }

  // ----- Replicas agree -----

  /** What a replica holds after applying `log`, its loops taking the given orders. */
  ghost function Replay(g: nat, log: seq<Command>, orders: seq<seq<nat>>): (st: GroupState)
    requires |orders| == |log| && forall j :: 0 <= j < |log| ==> Applicable(log[j], orders[j])
    ensures WellFormed(st)
  {
    if log == [] then InitialState(g)
    else
      var n := |log| - 1;
      AfterApply(Replay(g, log[..n], orders[..n]), log[n], orders[n]);
      Apply(Replay(g, log[..n], orders[..n]), log[n], orders[n]).0
  }

  lemma AfterApply(st: GroupState, c: Command, order: seq<nat>)
    requires WellFormed(st) && Applicable(c, order)
    ensures WellFormed(Apply(st, c, order).0)
  {
  }

  /** Two replicas with the same log prefix have the same state, whatever order their map loops took. */
  lemma {:induction false} ReplicasAgree(w: World, states: seq<System>, actions: seq<Action>, k: nat, g: nat, j: nat, orders: seq<seq<nat>>)
    requires Run(w, states, actions) && k < |states| && g in states[k].groups
    requires j <= |states[k].groups[g].log| && |orders| == j
    requires forall i :: 0 <= i < j ==> Applicable(states[k].groups[g].log[i], orders[i])
    ensures Replay(g, states[k].groups[g].log[..j], orders) == StateAt(states[k].groups[g], j)
    decreases j
  {
    RunInv(w, states, actions, k);
    InvParts(w, states[k]);
    hide Inv; hide Run; hide Base; hide StoreOK; hide ClientsOK; hide Apply; hide Applicable; hide WellFormed;
    hide InitialState;
    var group := states[k].groups[g];
    assert ReplayOK(g, group);
    if j > 0 {
      ReplicasAgree(w, states, actions, k, g, j - 1, orders[..j - 1]);
      assert group.log[..j][..j - 1] == group.log[..j - 1];
      assert ReplayStep(group, j - 1, orders[j - 1]);
    }
  }

  /** Every proposal can be applied, for every order in which the loops may run. */
  lemma ProposalsApplicable(w: World, states: seq<System>, actions: seq<Action>, k: nat, g: nat, c: Command, order: seq<nat>)
    requires Run(w, states, actions) && k < |states| && Proposal(g, c) in states[k].msgs
    requires c.InsertShards? ==> Enumerates(order, c.reply.shards.Keys)
    ensures Applicable(c, order)
  {
    RunInv(w, states, actions, k);
    var sys := states[k];
    assert MessageOK(w, sys, Proposal(g, c));
    hide Run; hide StoreOK; hide ClientsOK; hide MessagesOK; hide LogsOK; hide ReplaysOK; hide GroupOK; hide GateOK;
    hide Has; hide DataAt; hide OpsSound; hide Enumerates; hide Earlier;
    if c.DeleteShards? {
      var source, taker := AllowedBy(w, sys, g, c.delete);
      var ids := c.delete.shardIds;
      assert WholeBatch(w, c.delete.configNum, source, taker, ids);
      forall i | 0 <= i < |ids| ensures ids[i] < N_SHARDS {
        assert ids[i] in ids;
      }
    } else if c.InsertShards? {
      var source :| DataOK(w, sys, source, g, c.reply);
      forall s | s in c.reply.shards ensures s < N_SHARDS {
        assert s in c.reply.shards.Keys;
        assert Between(w, c.reply.configNum, source, g, s);
      }
    }
  }
}
