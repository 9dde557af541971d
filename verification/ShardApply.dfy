/** What a group does with each command of its log, as functions of its state. */
module ShardApply {
  import opened ShardTypes

  // Where the program ranges over a Go map the visiting order is a parameter, because the loop
  // may stop early.

  predicate WellFormed(st: GroupState) {
    |st.shards| == |st.currentConfig.shards| == |st.lastConfig.shards| == N_SHARDS
  }

  // ----- Reading -----

  predicate CanServe(st: GroupState, s: nat)
    requires WellFormed(st) && s < N_SHARDS
  {
    st.currentConfig.shards[s] == st.gid && (st.shards[s].status == Serving || st.shards[s].status == GCing)
  }

  predicate IsDuplicate(ops: Dedup, clientId: int, commandId: int) {
    clientId in ops && commandId <= ops[clientId].maxCommandId
  }

  predicate AllServing(st: GroupState) {
    forall s :: 0 <= s < |st.shards| ==> st.shards[s].status == Serving
  }

  // ----- One key-value map -----

  function Update(kv: Store, r: Request): Store {
    match r.op
    case OpPut => kv[r.key := r.value]
    case OpAppend => kv[r.key := (if r.key in kv then kv[r.key] else []) + r.value]
    case OpGet => kv
  }

  function Answer(kv: Store, r: Request): Reply {
    match r.op
    case OpGet => if r.key in kv then Reply(OK, kv[r.key]) else Reply(ErrNoKey, [])
    case _ => Reply(OK, [])
  }

  // ----- Applying commands -----

  function ApplyOperation(st: GroupState, r: Request): (GroupState, Reply)
    requires WellFormed(st)
  {
    var s := Key2Shard(r.key);
    if !CanServe(st, s) then (st, Reply(ErrWrongGroup, []))
    else if r.op != OpGet && IsDuplicate(st.lastOperations, r.clientId, r.commandId) then
      (st, st.lastOperations[r.clientId].lastReply)
    else
      var reply := Answer(st.shards[s].kv, r);
      var written := st.shards[s := Shard(Update(st.shards[s].kv, r), st.shards[s].status)];
      (st.(shards := written,
           lastOperations := if r.op != OpGet then st.lastOperations[r.clientId := Context(r.commandId, reply)]
                             else st.lastOperations),
       reply)
  }

  /** The status of shard s when the group moves from configuration `from` to `to`. */
  function NextStatus(gid: nat, status: Status, from: nat, to: nat): Status {
    if from != gid && to == gid then (if from != NO_GROUP then Pulling else status)
    else if from == gid && to != gid then (if to != NO_GROUP then BePulling else status)
    else status
  }

  function UpdateStatuses(st: GroupState, next: Config): (r: seq<Shard>)
    requires WellFormed(st) && |next.shards| == N_SHARDS
    ensures |r| == N_SHARDS
  {
    seq(N_SHARDS, s requires 0 <= s < N_SHARDS =>
      Shard(st.shards[s].kv,
            NextStatus(st.gid, st.shards[s].status, st.currentConfig.shards[s], next.shards[s])))
  }

  function ApplyConfiguration(st: GroupState, next: Config): (GroupState, Reply)
    requires WellFormed(st) && |next.shards| == N_SHARDS
  {
    if next.num == st.currentConfig.num + 1 then
      (st.(shards := UpdateStatuses(st, next), lastConfig := st.currentConfig, currentConfig := next), Reply(OK, []))
    else (st, Reply(ErrOutDated, []))
  }

  /** Every visited shard has data and exists. */
  predicate Visits(order: seq<nat>, data: map<nat, Store>, n: nat) {
    forall i :: 0 <= i < |order| ==> order[i] in data && order[i] < n
  }

  predicate Below(ids: seq<nat>, n: nat) {
    forall i :: 0 <= i < |ids| ==> ids[i] < n
  }

  predicate Distinct(ids: seq<nat>) {
    forall i, j :: 0 <= i < j < |ids| ==> ids[i] != ids[j]
  }

  /** The insertion loop: it stops at the first shard that is not waiting for data. */
  function InsertLoop(shards: seq<Shard>, data: map<nat, Store>, order: seq<nat>): (r: seq<Shard>)
    requires Visits(order, data, |shards|)
    ensures |r| == |shards|
    decreases |order|
  {
    if order == [] || shards[order[0]].status != Pulling then shards
    else
      var s := order[0];
      InsertLoop(shards[s := Shard(shards[s].kv + data[s], GCing)], data, order[1..])
  }

  /** Per client the entry with the larger command id, one's own on a tie. */
  function MergeOperations(mine: Dedup, theirs: Dedup): Dedup {
    map c | c in mine.Keys + theirs.Keys ::
      if c in theirs && (c !in mine || mine[c].maxCommandId < theirs[c].maxCommandId) then theirs[c] else mine[c]
  }

  /** `order` visits every key once. */
  predicate Enumerates(order: seq<nat>, keys: set<nat>) {
    && (forall i :: 0 <= i < |order| ==> order[i] in keys)
    && (forall s :: s in keys ==> s in order)
    && Distinct(order)
  }

  predicate Insertable(r: ShardsReply, order: seq<nat>) {
    Enumerates(order, r.shards.Keys) && forall s :: s in r.shards ==> s < N_SHARDS
  }

  function ApplyInsertShards(st: GroupState, r: ShardsReply, order: seq<nat>): (GroupState, Reply)
    requires WellFormed(st) && Insertable(r, order)
  {
    if r.configNum == st.currentConfig.num then
      (st.(shards := InsertLoop(st.shards, r.shards, order),
           lastOperations := MergeOperations(st.lastOperations, r.lastOperations)),
       Reply(OK, []))
    else (st, Reply(ErrOutDated, []))
  }

  /** The deletion loop: it stops at the first shard that is neither GCing nor BePulling. */
  function DeleteLoop(shards: seq<Shard>, ids: seq<nat>): (r: seq<Shard>)
    requires Below(ids, |shards|)
    ensures |r| == |shards|
    decreases |ids|
  {
    if ids == [] then shards
    else
      var s := ids[0];
      match shards[s].status
      case GCing => DeleteLoop(shards[s := Shard(shards[s].kv, Serving)], ids[1..])
      case BePulling => DeleteLoop(shards[s := NewShard()], ids[1..])
      case _ => shards
  }

  predicate Deletable(r: ShardsRequest) {
    Below(r.shardIds, N_SHARDS)
  }

  function ApplyDeleteShards(st: GroupState, r: ShardsRequest): (GroupState, Reply)
    requires WellFormed(st) && Deletable(r)
  {
    if r.configNum == st.currentConfig.num then (st.(shards := DeleteLoop(st.shards, r.shardIds)), Reply(OK, []))
    else (st, Reply(OK, []))
  }

  /** A command the log may hold: configurations and shard ids are in range. */
  predicate Applicable(c: Command, order: seq<nat>) {
    match c
    case Configuration(config) => |config.shards| == N_SHARDS
    case InsertShards(reply) => Insertable(reply, order)
    case DeleteShards(request) => Deletable(request)
    case _ => true
  }

  function Apply(st: GroupState, c: Command, order: seq<nat>): (GroupState, Reply)
    requires WellFormed(st) && Applicable(c, order)
  {
    match c
    case Operation(r) => ApplyOperation(st, r)
    case Configuration(config) => ApplyConfiguration(st, config)
    case InsertShards(reply) => ApplyInsertShards(st, reply, order)
    case DeleteShards(request) => ApplyDeleteShards(st, request)
    case EmptyEntry => (st, Reply(OK, []))
  }

  // ----- Answering other groups -----

  /** The answer to a pull, given once the group is not behind the asker. */
  function ShardsData(st: GroupState, r: ShardsRequest): ShardsReply
    requires WellFormed(st) && Deletable(r)
  {
    ShardsReply(r.configNum, map s | s in r.shardIds && s < N_SHARDS :: st.shards[s].kv, st.lastOperations)
  }

  // ----- What the loops do to a batch in lockstep -----

  ghost predicate AllHave(shards: seq<Shard>, ids: seq<nat>, status: Status) {
    Below(ids, |shards|) && forall i :: 0 <= i < |ids| ==> shards[ids[i]].status == status
  }

  /** All shards of the batch wait for data: every one of them is filled. */
  lemma {:induction false} InsertBatch(shards: seq<Shard>, data: map<nat, Store>, order: seq<nat>, s: nat)
    requires Visits(order, data, |shards|) && AllHave(shards, order, Pulling) && Distinct(order) && s < |shards|
    ensures InsertLoop(shards, data, order)[s]
         == if s in order then Shard(shards[s].kv + (if s in data then data[s] else map[]), GCing) else shards[s]
    decreases |order|
  {
    if order != [] {
      var t := order[0];
      InsertBatch(shards[t := Shard(shards[t].kv + data[t], GCing)], data, order[1..], s);
      assert s in order <==> s == t || s in order[1..];
    }
  }

  /** The first shard visited does not wait for data: nothing happens. */
  lemma InsertNothing(shards: seq<Shard>, data: map<nat, Store>, order: seq<nat>)
    requires Visits(order, data, |shards|) && (order == [] || shards[order[0]].status != Pulling)
    ensures InsertLoop(shards, data, order) == shards
  {
  }

  function Freed(shard: Shard): Shard {
    if shard.status == GCing then Shard(shard.kv, Serving) else NewShard()
  }

  /** All shards of the batch share a deletable status: every one of them is freed. */
  lemma {:induction false} DeleteBatch(shards: seq<Shard>, ids: seq<nat>, status: Status, s: nat)
    requires status == GCing || status == BePulling
    requires AllHave(shards, ids, status) && Distinct(ids) && s < |shards|
    ensures DeleteLoop(shards, ids)[s] == if s in ids then Freed(shards[s]) else shards[s]
    decreases |ids|
  {
    if ids != [] {
      var t := ids[0];
      DeleteBatch(shards[t := Freed(shards[t])], ids[1..], status, s);
      assert s in ids <==> s == t || s in ids[1..];
    }
  }

  /** The first shard named is neither GCing nor BePulling: nothing happens. */
  lemma DeleteNothing(shards: seq<Shard>, ids: seq<nat>)
    requires Below(ids, |shards|)
    requires ids == [] || shards[ids[0]].status == Serving || shards[ids[0]].status == Pulling
    ensures DeleteLoop(shards, ids) == shards
  {
  }
}
