/** What holds in every reachable state of the groups. */
module ShardInvariant {
  import opened ShardTypes
  import opened ShardApply
  import opened ShardSystem

  // The heart is a pair of gates per moving shard: the taker has the data only after the source
  // has reached the configuration, and the source drops its copy only after the taker has it.

  // ----- Moves between groups -----

  /** Shard s changes hands in configuration n. Time with gid 0 in between is no change of hands. */
  predicate Moves(w: World, n: nat, s: nat) {
    && 0 < n < |w.cfgs| && s < N_SHARDS
    && KeeperAt(w, n - 1, s) != NO_GROUP && KeeperAt(w, n, s) != NO_GROUP
    && KeeperAt(w, n - 1, s) != KeeperAt(w, n, s)
  }

  predicate Between(w: World, n: nat, source: nat, taker: nat, s: nat) {
    Moves(w, n, s) && KeeperAt(w, n - 1, s) == source && KeeperAt(w, n, s) == taker
  }

  /** All shards that go from `source` to `taker` in configuration n, each named once. */
  ghost predicate WholeBatch(w: World, n: nat, source: nat, taker: nat, ids: seq<nat>) {
    ids != [] && Distinct(ids) && forall s: nat :: s in ids <==> Between(w, n, source, taker, s)
  }

  ghost predicate WholeBatchKeys(w: World, n: nat, source: nat, taker: nat, keys: set<nat>) {
    keys != {} && forall s: nat :: s in keys <==> Between(w, n, source, taker, s)
  }

  // ----- One group -----

  /** The statuses a shard can have under configuration n, and when its copy is empty. */
  predicate ShardOK(w: World, g: nat, n: nat, s: nat, shard: Shard) {
    if Moves(w, n, s) && KeeperAt(w, n, s) == g then
      shard.status != BePulling && (shard.status == Pulling ==> shard.kv == map[])
    else if Moves(w, n, s) && KeeperAt(w, n - 1, s) == g then
      && (shard.status == BePulling || shard.status == Serving)
      && (shard.status == Serving ==> shard.kv == map[])
    else
      shard.status == Serving && (KeeperAt(w, n, s) != g ==> shard.kv == map[])
  }

  /** Shards that move between the same groups share a status. */
  ghost predicate Lockstep(w: World, n: nat, shards: seq<Shard>) {
    forall source: nat, taker: nat, s: nat, t: nat ::
      Between(w, n, source, taker, s) && Between(w, n, source, taker, t) && s < |shards| && t < |shards| ==>
        shards[s].status == shards[t].status
  }

  predicate ConfigsOK(w: World, st: GroupState) {
    && st.currentConfig.num < |w.cfgs| && st.currentConfig == w.cfgs[st.currentConfig.num]
    && st.lastConfig == w.cfgs[if st.currentConfig.num == 0 then 0 else st.currentConfig.num - 1]
  }

  ghost predicate StateOK(w: World, g: nat, st: GroupState) {
    && WellFormed(st) && st.gid == g && ConfigsOK(w, st)
    && (forall s: nat :: s < N_SHARDS ==> ShardOK(w, g, st.currentConfig.num, s, st.shards[s]))
    && Lockstep(w, st.currentConfig.num, st.shards)
  }

  function Rank(status: Status): nat {
    match status
    case Pulling => 0
    case GCing => 1
    case BePulling => 1
    case Serving => 2
  }

  /** Within one configuration a status only advances, and a copy to be pulled is frozen. */
  predicate ShardLater(a: Shard, b: Shard) {
    Rank(a.status) <= Rank(b.status) && (b.status == BePulling ==> a == b)
  }

  ghost predicate OpsGrow(a: Dedup, b: Dedup) {
    forall c :: c in a ==> c in b && a[c].maxCommandId <= b[c].maxCommandId
  }

  ghost predicate Progress(a: GroupState, b: GroupState) {
    && a.currentConfig.num <= b.currentConfig.num
    && OpsGrow(a.lastOperations, b.lastOperations)
    && (a.currentConfig.num == b.currentConfig.num ==>
          |a.shards| == |b.shards| && forall s :: 0 <= s < |a.shards| ==> ShardLater(a.shards[s], b.shards[s]))
  }

  ghost predicate GroupOK(w: World, g: nat, group: Group) {
    forall st :: Was(group, st) ==> StateOK(w, g, st) && Progress(st, group.now)
  }

  // ----- Gates -----

  /** The owner of s under configuration n has the data. */
  predicate Reached(st: GroupState, n: nat, s: nat) {
    || st.currentConfig.num > n
    || (st.currentConfig.num == n && s < |st.shards| && (st.shards[s].status == GCing || st.shards[s].status == Serving))
  }

  /** The group has nothing more to do for s under configuration n. */
  predicate Done(st: GroupState, n: nat, s: nat) {
    st.currentConfig.num > n || (st.currentConfig.num == n && s < |st.shards| && st.shards[s].status == Serving)
  }

  predicate Has(w: World, groups: map<nat, Group>, n: nat, s: nat) {
    KeeperAt(w, n, s) in groups && Reached(groups[KeeperAt(w, n, s)].now, n, s)
  }

  predicate GateOK(w: World, groups: map<nat, Group>, n: nat, s: nat) {
    Moves(w, n, s) && KeeperAt(w, n - 1, s) in groups && KeeperAt(w, n, s) in groups ==>
      var source, taker := groups[KeeperAt(w, n - 1, s)].now, groups[KeeperAt(w, n, s)].now;
      && (Reached(taker, n, s) ==> source.currentConfig.num >= n)
      && (Done(source, n, s) ==> Reached(taker, n, s))
      && (Done(taker, n, s) ==> Done(source, n, s))
  }

  ghost predicate Base(w: World, groups: map<nat, Group>) {
    && WorldOK(w) && groups.Keys == w.gids
    && (forall g :: g in groups ==> GroupOK(w, g, groups[g]))
    && (forall n: nat, s: nat :: GateOK(w, groups, n, s))
  }

  // ----- Consequences: exactly one group holds a shard -----

  lemma NowOK(w: World, groups: map<nat, Group>, g: nat)
    requires Base(w, groups) && g in groups
    ensures StateOK(w, g, groups[g].now) && g != NO_GROUP
  {
    assert Was(groups[g], groups[g].now);
  }

  lemma WasOK(w: World, groups: map<nat, Group>, g: nat, st: GroupState)
    requires Base(w, groups) && g in groups && Was(groups[g], st)
    ensures StateOK(w, g, st) && Progress(st, groups[g].now)
  {
  }

  lemma {:induction false} KeeperFacts(w: World, n: nat, s: nat)
    requires WorldOK(w)
    ensures KeeperAt(w, n, s) != NO_GROUP ==> KeeperAt(w, n, s) in w.gids && n < |w.cfgs| && s < N_SHARDS
    decreases n
  {
    assert OwnerOK(w, n, s);
    if n > 0 && n < |w.cfgs| { KeeperFacts(w, n - 1, s); }
  }

  /** A kept shard stays kept, and it changes hands directly from owner to owner. */
  lemma KeeperStep(w: World, n: nat, s: nat)
    requires WorldOK(w)
    ensures n + 1 < |w.cfgs| && KeeperAt(w, n, s) != NO_GROUP ==> KeeperAt(w, n + 1, s) != NO_GROUP
    ensures Moves(w, n + 1, s) ==> OwnerAt(w, n, s) == KeeperAt(w, n, s) && OwnerAt(w, n + 1, s) == KeeperAt(w, n + 1, s)
  {
    assert OwnerOK(w, n, s);
  }

  lemma MoveOwners(w: World, n: nat, s: nat)
    requires WorldOK(w) && Moves(w, n, s)
    ensures OwnerAt(w, n - 1, s) == KeeperAt(w, n - 1, s) && OwnerAt(w, n, s) == KeeperAt(w, n, s)
  {
    KeeperStep(w, n - 1, s);
  }

  lemma OwnerFacts(w: World, groups: map<nat, Group>, n: nat, s: nat)
    requires Base(w, groups)
    ensures GateOK(w, groups, n, s)
    ensures n + 1 < |w.cfgs| && KeeperAt(w, n, s) != NO_GROUP ==> KeeperAt(w, n + 1, s) != NO_GROUP
    ensures KeeperAt(w, n, s) != NO_GROUP ==> KeeperAt(w, n, s) in groups && n < |w.cfgs| && s < N_SHARDS
    ensures KeeperAt(w, n, s) in groups ==> KeeperAt(w, n, s) != NO_GROUP
  {
    KeeperFacts(w, n, s);
    KeeperStep(w, n, s);
  }

  /** Whoever had to have the data before has had it. */
  lemma {:induction false} ChainDown(w: World, groups: map<nat, Group>, m: nat, k: nat, s: nat)
    requires Base(w, groups) && Has(w, groups, m, s) && k <= m && KeeperAt(w, k, s) != NO_GROUP
    ensures Has(w, groups, k, s)
    decreases m - k
  {
    hide Base;
    OwnerFacts(w, groups, k, s);
    if k < m {
      OwnerFacts(w, groups, m, s);
      OwnerFacts(w, groups, k + 1, s);
      ChainDown(w, groups, m, k + 1, s);
    }
  }

  lemma TopUnique(w: World, groups: map<nat, Group>, m: nat, k: nat, s: nat)
    requires Base(w, groups)
    requires Has(w, groups, m, s) && !Has(w, groups, m + 1, s)
    requires Has(w, groups, k, s) && !Has(w, groups, k + 1, s)
    ensures m == k
  {
    hide Base; hide Reached;
    OwnerFacts(w, groups, m, s);
    OwnerFacts(w, groups, k, s);
    OwnerFacts(w, groups, m + 1, s);
    OwnerFacts(w, groups, k + 1, s);
    if m < k {
      ChainDown(w, groups, k, m + 1, s);
    } else if k < m {
      ChainDown(w, groups, m, k + 1, s);
    }
  }

  /** A serving group is the last one on the chain. */
  lemma ServesTop(w: World, groups: map<nat, Group>, g: nat, s: nat)
    requires Base(w, groups) && g in groups && s < N_SHARDS
    requires WellFormed(groups[g].now) && CanServe(groups[g].now, s)
    ensures var n := groups[g].now.currentConfig.num;
            KeeperAt(w, n, s) == g && Has(w, groups, n, s) && !Has(w, groups, n + 1, s)
  {
    var n := groups[g].now.currentConfig.num;
    NowOK(w, groups, g);
    OwnerFacts(w, groups, n, s);
    OwnerFacts(w, groups, n + 1, s);
  }

  /** The group serves shard s, keeps the copy its taker still needs, or waits while gid 0 has the shard. */
  predicate Keeps(w: World, st: GroupState, m: nat, s: nat)
    requires WellFormed(st) && s < N_SHARDS
  {
    || (CanServe(st, s) && st.currentConfig.num == m)
    || (st.currentConfig.num == m + 1 && Moves(w, m + 1, s) && st.shards[s].status == BePulling)
    || (st.currentConfig.num == m && OwnerAt(w, m, s) == NO_GROUP && st.shards[s].status == Serving)
  }

  /** The last group on the chain is in one of these three situations. */
  lemma TopShape(w: World, groups: map<nat, Group>, m: nat, s: nat)
    requires Base(w, groups) && Has(w, groups, m, s) && !Has(w, groups, m + 1, s)
    ensures s < N_SHARDS
    ensures var st := groups[KeeperAt(w, m, s)].now; WellFormed(st) && Keeps(w, st, m, s)
  {
    var g := KeeperAt(w, m, s);
    NowOK(w, groups, g);
    OwnerFacts(w, groups, m, s);
    OwnerFacts(w, groups, m + 1, s);
    var st := groups[g].now;
    assert ShardOK(w, g, st.currentConfig.num, s, st.shards[s]);
  }

  /** While the taker waits and the source is frozen, nobody serves the shard. */
  lemma FrozenExcludes(w: World, groups: map<nat, Group>, n: nat, s: nat, g: nat)
    requires Base(w, groups) && Moves(w, n, s) && !Has(w, groups, n, s)
    requires KeeperAt(w, n - 1, s) in groups && groups[KeeperAt(w, n - 1, s)].now.currentConfig.num >= n
    requires g in groups && WellFormed(groups[g].now)
    ensures !CanServe(groups[g].now, s)
  {
    hide Base;
    if CanServe(groups[g].now, s) {
      ServesTop(w, groups, g, s);
      assert Has(w, groups, n - 1, s);
      TopUnique(w, groups, groups[g].now.currentConfig.num, n - 1, s);
    }
  }

  // ----- The map the system stands for -----

  /** Every write of shard s that took effect is covered by the table. */
  ghost predicate Covers(w: World, effects: set<Write>, s: nat, ops: Dedup) {
    forall r :: r in w.issued && r.op != OpGet && Key2Shard(r.key) == s && Name(r) in effects ==>
      r.clientId in ops && r.commandId <= ops[r.clientId].maxCommandId
  }

  /** Table entries stem from writes that took effect. */
  ghost predicate OpsSound(effects: set<Write>, ops: Dedup) {
    forall c :: c in ops ==> Write(c, ops[c].maxCommandId) in effects && ops[c].lastReply == Reply(OK, [])
  }

  /** The copy of s in `st` is what shard s contains. */
  ghost predicate Holds(w: World, sys: System, st: GroupState, s: nat) {
    && s < |st.shards| && s < |sys.store| && st.shards[s].kv == sys.store[s]
    && Covers(w, sys.effects, s, st.lastOperations)
  }

  ghost predicate HolderOK(w: World, sys: System, m: nat, s: nat) {
    Has(w, sys.groups, m, s) && !Has(w, sys.groups, m + 1, s) ==> Holds(w, sys, sys.groups[KeeperAt(w, m, s)].now, s)
  }

  /** A frozen copy, also one a lagging replica still shows, is good until the taker has it. */
  ghost predicate FrozenOK(w: World, sys: System, g: nat, st: GroupState, s: nat) {
    var n := st.currentConfig.num;
    g in sys.groups && Was(sys.groups[g], st) && Moves(w, n, s) && KeeperAt(w, n - 1, s) == g
      && s < |st.shards| && st.shards[s].status == BePulling && !Has(w, sys.groups, n, s) ==>
      Holds(w, sys, st, s)
  }

  ghost predicate Unborn(w: World, groups: map<nat, Group>, s: nat) {
    forall m: nat :: !Has(w, groups, m, s)
  }

  ghost predicate UnbornOK(w: World, sys: System, s: nat) {
    s < |sys.store| && Unborn(w, sys.groups, s) ==> sys.store[s] == map[] && Covers(w, sys.effects, s, map[])
  }

  ghost predicate StoreOK(w: World, sys: System) {
    && |sys.store| == N_SHARDS
    && (forall m: nat, s: nat :: HolderOK(w, sys, m, s))
    && (forall g, st, s: nat :: FrozenOK(w, sys, g, st, s))
    && (forall s: nat :: UnbornOK(w, sys, s))
  }

  // ----- Clients -----

  /** Every earlier write of the client took effect. */
  ghost predicate Earlier(w: World, effects: set<Write>, name: Write) {
    forall q :: q in w.issued && q.op != OpGet && q.clientId == name.clientId && q.commandId < name.commandId ==>
      Name(q) in effects
  }

  ghost predicate ClientsOK(w: World, sys: System) {
    && sys.answered <= sys.effects
    && (forall e :: e in sys.effects ==> Earlier(w, sys.effects, e))
    && (forall g, st :: g in sys.groups && Was(sys.groups[g], st) ==> OpsSound(sys.effects, st.lastOperations))
  }

  // ----- Messages -----

  ghost predicate ConfigurationOK(w: World, st: GroupState, c: Config) {
    && 0 < c.num < |w.cfgs| && c == w.cfgs[c.num]
    && (st.currentConfig.num >= c.num || (st.currentConfig.num == c.num - 1 && AllServing(st)))
  }

  ghost predicate DataAt(w: World, sys: System, data: ShardsReply, s: nat) {
    || Has(w, sys.groups, data.configNum, s)
    || (s in data.shards && s < |sys.store| && data.shards[s] == sys.store[s]
        && Covers(w, sys.effects, s, data.lastOperations))
  }

  /** The data of a batch, good for every shard the taker does not have yet. */
  ghost predicate DataOK(w: World, sys: System, source: nat, taker: nat, data: ShardsReply) {
    && WholeBatchKeys(w, data.configNum, source, taker, data.shards.Keys)
    && source in sys.groups && sys.groups[source].now.currentConfig.num >= data.configNum
    && OpsSound(sys.effects, data.lastOperations)
    && forall s: nat :: s in data.shards ==> DataAt(w, sys, data, s)
  }

  /** A batch the taker has in full. */
  ghost predicate TakenOK(w: World, groups: map<nat, Group>, source: nat, taker: nat, ask: ShardsRequest) {
    && WholeBatch(w, ask.configNum, source, taker, ask.shardIds)
    && forall s: nat :: s in ask.shardIds ==> Has(w, groups, ask.configNum, s)
  }

  /** A batch the source has dropped in full. */
  ghost predicate DroppedOK(w: World, groups: map<nat, Group>, source: nat, taker: nat, ask: ShardsRequest) {
    && WholeBatch(w, ask.configNum, source, taker, ask.shardIds) && source in groups
    && forall s: nat :: s in ask.shardIds ==> Done(groups[source].now, ask.configNum, s)
  }

  ghost predicate CommandOK(w: World, sys: System, g: nat, c: Command)
    requires g in sys.groups
  {
    match c
    case Operation(r) => r in w.issued && (r.op != OpGet ==> Earlier(w, sys.effects, Name(r)))
    case Configuration(config) => ConfigurationOK(w, sys.groups[g].now, config)
    case InsertShards(data) => exists source :: DataOK(w, sys, source, g, data)
    case DeleteShards(ask) =>
      exists peer :: TakenOK(w, sys.groups, g, peer, ask) || DroppedOK(w, sys.groups, peer, g, ask)
    case EmptyEntry => true
  }

  ghost predicate MessageOK(w: World, sys: System, m: Message) {
    match m
    case Proposal(to, c) => to in sys.groups && CommandOK(w, sys, to, c)
    case PullAsk(to, from, ask) => WholeBatch(w, ask.configNum, to, from, ask.shardIds)
    case PullAnswer(to, from, data) => DataOK(w, sys, from, to, data)
    case DeleteAsk(to, from, ask) => TakenOK(w, sys.groups, to, from, ask)
    case DeleteDone(to, from, ask) => DroppedOK(w, sys.groups, from, to, ask)
  }

  /** A deletion in the source's log has been carried out. */
  ghost predicate LogOK(w: World, g: nat, group: Group) {
    forall ask, taker ::
      DeleteShards(ask) in group.log && WholeBatch(w, ask.configNum, g, taker, ask.shardIds) ==>
        forall s: nat :: s in ask.shardIds ==> Done(group.now, ask.configNum, s)
  }

  ghost predicate LogsOK(w: World, groups: map<nat, Group>) {
    forall g :: g in groups ==> LogOK(w, g, groups[g])
  }

  /** The state before entry j, or after the whole log. */
  function StateAt(group: Group, j: nat): GroupState {
    if j < |group.past| then group.past[j] else group.now
  }

  /** Each state follows from the one before, whatever order the loops took. */
  ghost predicate ReplayStep(group: Group, j: nat, order: seq<nat>) {
    j < |group.log| && WellFormed(StateAt(group, j)) && Applicable(group.log[j], order) ==>
      Apply(StateAt(group, j), group.log[j], order).0 == StateAt(group, j + 1)
  }

  ghost predicate ReplayOK(g: nat, group: Group) {
    && |group.past| == |group.log| && StateAt(group, 0) == InitialState(g)
    && forall j: nat, order :: ReplayStep(group, j, order)
  }

  ghost predicate ReplaysOK(groups: map<nat, Group>) {
    forall g :: g in groups ==> ReplayOK(g, groups[g])
  }

  ghost predicate MessagesOK(w: World, sys: System) {
    forall m :: m in sys.msgs ==> MessageOK(w, sys, m)
  }

  ghost predicate Inv(w: World, sys: System) {
    && Base(w, sys.groups) && StoreOK(w, sys) && ClientsOK(w, sys)
    && MessagesOK(w, sys) && LogsOK(w, sys.groups) && ReplaysOK(sys.groups)
  }
}
