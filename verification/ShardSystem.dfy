/**
  * Several groups that hand shards to each other. A group is a replicated machine fed by
  * its log. Replicas lag, so a monitor or an answer may be based on any state the group
  * has ever been in. Proposals and messages stay in `msgs`: they may reach a log or a peer
  * late, in any order, repeatedly, or never.
  */
module ShardSystem {
  import opened ShardTypes
  import opened ShardApply

  /** What is fixed: the groups, the configurations in order, and the requests clients issue. */
  datatype World = World(gids: set<nat>, cfgs: seq<Config>, issued: set<Request>)

  datatype Message =
    | Proposal(to: nat, command: Command)
    | PullAsk(to: nat, from: nat, ask: ShardsRequest)
    | PullAnswer(to: nat, from: nat, data: ShardsReply)
    | DeleteAsk(to: nat, from: nat, ask: ShardsRequest)
    | DeleteDone(to: nat, from: nat, ask: ShardsRequest)

  /** A group's log, the states before each entry, and the state after the last one. */
  datatype Group = Group(log: seq<Command>, past: seq<GroupState>, now: GroupState)

  /** A write is known by its client and command id. */
  datatype Write = Write(clientId: int, commandId: int)

  /**
    * `groups` and `msgs` are the system. `store` is the one key-value map per shard the
    * system stands for, `effects` the writes that changed it, and `answered` the writes
    * some replica has answered for; of these only `answered` is known to clients.
    */
  datatype System = System(groups: map<nat, Group>, msgs: set<Message>, store: seq<Store>,
                           effects: set<Write>, answered: set<Write>)

  datatype Action =
    | Submit(g: nat, request: Request)
    | AnswerDuplicate(g: nat, seen: GroupState, request: Request)
    | FetchConfig(g: nat, seen: GroupState)
    | AskPull(g: nat, seen: GroupState, source: nat, ids: seq<nat>)
    | AnswerPull(g: nat, seen: GroupState, m: Message)
    | ProposeInsert(g: nat, m: Message)
    | AskDelete(g: nat, seen: GroupState, source: nat, ids: seq<nat>)
    | AnswerDelete(g: nat, seen: GroupState, m: Message)
    | ConfirmDelete(g: nat, m: Message)
    | ProposeDelete(g: nat, m: Message)
    | ProposeEmpty(g: nat)
    | Append(g: nat, command: Command, order: seq<nat>)

  // ----- The world -----

  function OwnerAt(w: World, n: int, s: nat): nat {
    if 0 <= n < |w.cfgs| && s < |w.cfgs[n].shards| then w.cfgs[n].shards[s] else NO_GROUP
  }

  /** The last group that owned shard s under a configuration up to n: gid 0 takes nothing over. */
  function KeeperAt(w: World, n: int, s: nat): nat
    decreases n
  {
    if n < 0 || n >= |w.cfgs| then NO_GROUP
    else if OwnerAt(w, n, s) != NO_GROUP then OwnerAt(w, n, s)
    else KeeperAt(w, n - 1, s)
  }

  /** Shards go to groups of the world, and from gid 0 back to the group that had them before. */
  predicate OwnerOK(w: World, n: nat, s: nat) {
    && (OwnerAt(w, n, s) != NO_GROUP ==> OwnerAt(w, n, s) in w.gids)
    && (n + 1 < |w.cfgs| && OwnerAt(w, n, s) == NO_GROUP && OwnerAt(w, n + 1, s) != NO_GROUP ==>
          KeeperAt(w, n, s) == NO_GROUP || OwnerAt(w, n + 1, s) == KeeperAt(w, n, s))
  }

  predicate SameName(a: Request, b: Request) {
    a.op != OpGet && b.op != OpGet && a.clientId == b.clientId && a.commandId == b.commandId
  }

  /** Configurations are numbered from the empty one on; one command id of a client names one write. */
  ghost predicate WorldOK(w: World) {
    && NO_GROUP !in w.gids
    && |w.cfgs| > 0 && w.cfgs[0] == DEFAULT_CONFIG
    && (forall n :: 0 <= n < |w.cfgs| ==> w.cfgs[n].num == n && |w.cfgs[n].shards| == N_SHARDS)
    && (forall n: nat, s: nat :: OwnerOK(w, n, s))
    && (forall a, b :: a in w.issued && b in w.issued && SameName(a, b) ==> a == b)
  }

  function InitGroup(gid: nat): Group {
    Group([], [], InitialState(gid))
  }

  function Init(w: World): System {
    System(map g | g in w.gids :: InitGroup(g), {}, seq(N_SHARDS, _ => map[]), {}, {})
  }

  // ----- Steps -----

  function Name(r: Request): Write {
    Write(r.clientId, r.commandId)
  }

  /** A client works on one write at a time: it moves on when it has an answer. */
  ghost predicate Outstanding(w: World, answered: set<Write>, r: Request) {
    r.op != OpGet ==>
      forall q :: q in w.issued && q.op != OpGet && q.clientId == r.clientId && q.commandId < r.commandId ==>
        Name(q) in answered
  }

  /** The shards of a status that came from `source`, as the monitors collect them. */
  ghost predicate Batch(st: GroupState, status: Status, source: nat, ids: seq<nat>)
    requires WellFormed(st)
  {
    && source != NO_GROUP && ids != [] && Distinct(ids)
    && forall s: nat :: s in ids <==> InBatch(st, status, source, s)
  }

  predicate InBatch(st: GroupState, status: Status, source: nat, s: nat)
    requires WellFormed(st)
  {
    s < N_SHARDS && st.shards[s].status == status && st.lastConfig.shards[s] == source
  }

  predicate Was(group: Group, st: GroupState) {
    st == group.now || st in group.past
  }

  ghost predicate Shaped(sys: System) {
    && |sys.store| == N_SHARDS
    && (forall g :: g in sys.groups ==> WellFormed(sys.groups[g].now))
    && (forall g, st :: g in sys.groups && Was(sys.groups[g], st) ==> WellFormed(st))
  }

  ghost predicate Enabled(w: World, sys: System, a: Action)
    requires Shaped(sys)
  {
    && a.g in sys.groups
    && match a
       case Submit(g, r) => r in w.issued && Outstanding(w, sys.answered, r)
       case AnswerDuplicate(g, seen, r) =>
         && Was(sys.groups[g], seen) && r in w.issued && r.op != OpGet
         && IsDuplicate(seen.lastOperations, r.clientId, r.commandId)
       case FetchConfig(g, seen) =>
         Was(sys.groups[g], seen) && AllServing(seen) && seen.currentConfig.num + 1 < |w.cfgs|
       case AskPull(g, seen, source, ids) => Was(sys.groups[g], seen) && Batch(seen, Pulling, source, ids)
       case AnswerPull(g, seen, m) =>
         && Was(sys.groups[g], seen) && m in sys.msgs && m.PullAsk? && m.to == g && Deletable(m.ask)
         && seen.currentConfig.num >= m.ask.configNum
       case ProposeInsert(g, m) => m in sys.msgs && m.PullAnswer? && m.to == g
       case AskDelete(g, seen, source, ids) => Was(sys.groups[g], seen) && Batch(seen, GCing, source, ids)
       case AnswerDelete(g, seen, m) => Was(sys.groups[g], seen) && m in sys.msgs && m.DeleteAsk? && m.to == g
       case ConfirmDelete(g, m) =>
         m in sys.msgs && m.DeleteAsk? && m.to == g && DeleteShards(m.ask) in sys.groups[g].log
       case ProposeDelete(g, m) => m in sys.msgs && m.DeleteDone? && m.to == g
       case ProposeEmpty(g) => true
       case Append(g, c, order) => Proposal(g, c) in sys.msgs && Applicable(c, order)
  }

  function Send(sys: System, m: Message): System {
    sys.(msgs := sys.msgs + {m})
  }

  /** The message a step other than an append sends. */
  function Sent(w: World, a: Action): Message
    requires a.FetchConfig? ==> a.seen.currentConfig.num + 1 < |w.cfgs|
    requires a.AnswerPull? ==> a.m.PullAsk? && WellFormed(a.seen) && Deletable(a.m.ask)
    requires a.ProposeInsert? ==> a.m.PullAnswer?
    requires a.AnswerDelete? || a.ConfirmDelete? ==> a.m.DeleteAsk?
    requires a.ProposeDelete? ==> a.m.DeleteDone?
    requires !a.Append? && !a.AnswerDuplicate?
  {
    match a
    case Submit(g, r) => Proposal(g, Operation(r))
    case FetchConfig(g, seen) => Proposal(g, Configuration(w.cfgs[seen.currentConfig.num + 1]))
    case AskPull(g, seen, source, ids) => PullAsk(source, g, ShardsRequest(seen.currentConfig.num, ids))
    case AnswerPull(g, seen, m) => PullAnswer(m.from, g, ShardsData(seen, m.ask))
    case ProposeInsert(g, m) => Proposal(g, InsertShards(m.data))
    case AskDelete(g, seen, source, ids) => DeleteAsk(source, g, ShardsRequest(seen.currentConfig.num, ids))
    case AnswerDelete(g, seen, m) =>
      if seen.currentConfig.num > m.ask.configNum then DeleteDone(m.from, g, m.ask)
      else Proposal(g, DeleteShards(m.ask))
    case ConfirmDelete(g, m) => DeleteDone(m.from, g, m.ask)
    case ProposeDelete(g, m) => Proposal(g, DeleteShards(m.ask))
    case ProposeEmpty(g) => Proposal(g, EmptyEntry)
  }

  function Next(w: World, sys: System, a: Action): System
    requires Shaped(sys) && Enabled(w, sys, a)
  {
    match a
    case Append(g, c, order) => NextAppend(sys, g, c, order)
    case AnswerDuplicate(g, seen, r) => sys.(answered := sys.answered + {Name(r)})
    case _ => Send(sys, Sent(w, a))
  }

  /** A write that finds its shard served here. */
  predicate ServesWrite(st: GroupState, c: Command)
    requires WellFormed(st)
  {
    c.Operation? && c.request.op != OpGet && CanServe(st, Key2Shard(c.request.key))
  }

  /** ... and that is not a repetition. */
  predicate TakesEffect(st: GroupState, c: Command)
    requires WellFormed(st)
  {
    ServesWrite(st, c) && !IsDuplicate(st.lastOperations, c.request.clientId, c.request.commandId)
  }

  function Grown(group: Group, c: Command, st: GroupState): Group {
    Group(group.log + [c], group.past + [group.now], st)
  }

  function NextAppend(sys: System, g: nat, c: Command, order: seq<nat>): System
    requires |sys.store| == N_SHARDS && g in sys.groups && WellFormed(sys.groups[g].now) && Applicable(c, order)
  {
    var group := sys.groups[g];
    System(sys.groups[g := Grown(group, c, Apply(group.now, c, order).0)],
           sys.msgs,
           if TakesEffect(group.now, c) then
             var s := Key2Shard(c.request.key);
             sys.store[s := Update(sys.store[s], c.request)]
           else sys.store,
           if TakesEffect(group.now, c) then sys.effects + {Name(c.request)} else sys.effects,
           if ServesWrite(group.now, c) then sys.answered + {Name(c.request)} else sys.answered)
  }
}
