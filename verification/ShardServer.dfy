/** A shard group's server as the program runs it. */
module ShardServer {
  import opened ShardTypes
  import opened ShardApply
  import opened ShardSystem
  import MajorityIndex
  import RaftTypes
  import Sets

  // Shard objects are changed in place, and loops over Go maps take the keys in any order. Each
  // method computes the function of the same name in ShardApply.

  /** One shard: its key-value map and its status. */
  class ShardObject {
    var kv: Store
    var status: Status

    constructor (kv: Store, status: Status)
      ensures Value() == Shard(kv, status)
    {
      this.kv, this.status := kv, status;
    }

    function Value(): Shard
      reads this
    {
      Shard(kv, status)
    }

    method Get(key: Text) returns (value: Text, err: Err)
      ensures if key in kv then value == kv[key] && err == OK else value == [] && err == ErrNoKey
    {
      if key in kv {
        return kv[key], OK;
      }
      return [], ErrNoKey;
    }

    method Put(key: Text, value: Text) returns (err: Err)
      modifies `kv
      ensures kv == old(kv)[key := value] && err == OK
    {
      kv := kv[key := value];
      return OK;
    }

    method Append(key: Text, value: Text) returns (err: Err)
      modifies `kv
      ensures kv == old(kv)[key := (if key in old(kv) then old(kv)[key] else []) + value] && err == OK
    {
      kv := kv[key := (if key in kv then kv[key] else []) + value];
      return OK;
    }

    method DeepCopy() returns (copy: Store)
      ensures copy == kv
    {
      copy := Overwrite(map[], kv);
    }
  }

  /** Assign every entry of `data`, in whatever order the loop meets them. */
  method Overwrite(kv: Store, data: Store) returns (all: Store)
    ensures all == kv + data
  {
    hide Overwritten;
    all := kv;
    var rest := data.Keys;
    OverwriteEnds(kv, data);
    while rest != {}
      invariant rest <= data.Keys && all == Overwritten(kv, data, rest)
      decreases |rest|
    {
      ghost var some := Sets.Pick(rest);
      var key :| key in rest;
      OverwriteStep(kv, data, rest, key);
      all := all[key := data[key]];
      rest := rest - {key};
    }
  }

  /** The entries of `data` outside `rest` have been assigned. */
  function Overwritten(kv: Store, data: Store, rest: set<Text>): Store {
    kv + (data - rest)
  }

  lemma OverwriteEnds(kv: Store, data: Store)
    ensures Overwritten(kv, data, data.Keys) == kv && Overwritten(kv, data, {}) == kv + data
  {
    assert (data - data.Keys).Keys == {};
    assert data - {} == data;
  }

  lemma OverwriteStep(kv: Store, data: Store, rest: set<Text>, key: Text)
    requires key in rest && rest <= data.Keys
    ensures Overwritten(kv, data, rest)[key := data[key]] == Overwritten(kv, data, rest - {key})
    ensures |rest - {key}| < |rest|
  {
    Sets.OneKeyFewer(data, rest, key);
    Sets.AssignLast(kv, data - rest, key, data[key]);
    assert rest == (rest - {key}) + {key};
  }

  class ShardKV {
    const gid: nat
    var lastApplied: nat
    var lastConfig: Config
    var currentConfig: Config
    var stateMachines: seq<ShardObject>
    var lastOperations: Dedup

    ghost function Objects(): set<object>
      reads this
    {
      set o | o in stateMachines
    }

    /** Ten separate shard objects, and configurations that name ten owners. */
    ghost predicate Valid()
      reads this
    {
      && |stateMachines| == N_SHARDS
      && (forall i, j :: 0 <= i < j < N_SHARDS ==> stateMachines[i] != stateMachines[j])
      && |currentConfig.shards| == |lastConfig.shards| == N_SHARDS
    }

    ghost function Shards(): (r: seq<Shard>)
      reads this, stateMachines
      ensures |r| == |stateMachines|
      ensures forall i :: 0 <= i < |r| ==> r[i] == stateMachines[i].Value()
    {
      seq(|stateMachines|, i requires 0 <= i < |stateMachines| reads this, stateMachines => stateMachines[i].Value())
    }

    /** The server as a value. */
    ghost function View(): GroupState
      reads this, stateMachines
    {
      GroupState(gid, lastConfig, currentConfig, Shards(), lastOperations)
    }

    // ----- Start, snapshots -----

    /** StartServer: the state of the persister's snapshot, or the initial one if it has none. */
    constructor (gid: nat, snapshot: RaftTypes.Option<GroupState>)
      requires snapshot.Some? ==> WellFormed(snapshot.value) && snapshot.value.gid == gid
      ensures Valid() && lastApplied == 0 && fresh(Objects())
      ensures View() == if snapshot.Some? then snapshot.value else InitialState(gid)
    {
      this.gid := gid;
      lastApplied, lastConfig, currentConfig, lastOperations := 0, DEFAULT_CONFIG, DEFAULT_CONFIG, map[];
      stateMachines := [];
      new;
      if snapshot.Some? {
        RestoreSnapshot(snapshot.value);
      } else {
        InitStateMachines(seq(N_SHARDS, _ => NewShard()));
      }
    }

    /** Fresh shard objects holding the given values. */
    method InitStateMachines(values: seq<Shard>)
      requires |values| == N_SHARDS && |currentConfig.shards| == |lastConfig.shards| == N_SHARDS
      modifies `stateMachines
      ensures Valid() && Shards() == values && fresh(Objects())
    {
      stateMachines := [];
      while |stateMachines| < N_SHARDS
        invariant |stateMachines| <= N_SHARDS
        invariant forall i, j :: 0 <= i < j < |stateMachines| ==> stateMachines[i] != stateMachines[j]
        invariant forall i :: 0 <= i < |stateMachines| ==> fresh(stateMachines[i]) && stateMachines[i].Value() == values[i]
      {
        var value := values[|stateMachines|];
        var shard := new ShardObject(value.kv, value.status);
        stateMachines := stateMachines + [shard];
      }
    }

    /** What takeSnapshot hands to Raft: the index it stands for and the whole state. */
    method TakeSnapshot(index: nat) returns (upTo: nat, snapshot: GroupState)
      requires Valid()
      ensures upTo == index && snapshot == View()
    {
      var values: seq<Shard> := [];
      while |values| < N_SHARDS
        invariant |values| <= N_SHARDS && values == Shards()[..|values|]
      {
        values := values + [stateMachines[|values|].Value()];
      }
      upTo, snapshot := index, GroupState(gid, lastConfig, currentConfig, values, lastOperations);
    }

    method RestoreSnapshot(snapshot: GroupState)
      requires WellFormed(snapshot) && snapshot.gid == gid
      modifies this
      ensures Valid() && View() == snapshot && fresh(Objects()) && lastApplied == old(lastApplied)
    {
      lastOperations, currentConfig, lastConfig := snapshot.lastOperations, snapshot.currentConfig, snapshot.lastConfig;
      InitStateMachines(snapshot.shards);
    }

    // ----- Reading -----

    predicate CanServeHere(shardId: nat)
      requires Valid() && shardId < N_SHARDS
      reads this, stateMachines
      ensures CanServeHere(shardId) == CanServe(View(), shardId)
    {
      && currentConfig.shards[shardId] == gid
      && (stateMachines[shardId].status == Serving || stateMachines[shardId].status == GCing)
    }

    predicate IsDuplicateRequest(clientId: int, requestId: int)
      reads this
    {
      clientId in lastOperations && requestId <= lastOperations[clientId].maxCommandId
    }

    /** The configuration monitor asks for the next configuration only when all shards are Serving. */
    method CanPerformNextConfig() returns (can: bool)
      requires Valid()
      ensures can <==> AllServing(View())
    {
      can := true;
      var i := 0;
      while i < N_SHARDS
        invariant 0 <= i <= N_SHARDS && can
        invariant forall j :: 0 <= j < i ==> stateMachines[j].status == Serving
      {
        if stateMachines[i].status != Serving {
          assert Shards()[i].status != Serving;
          can := false;
          break;
        }
        i := i + 1;
      }
    }

    /** The shards of a status by the group they came from: for each group its whole batch. */
    method GetShardIDsByStatus(status: Status) returns (byGroup: map<nat, seq<nat>>)
      requires Valid()
      ensures forall source :: source in byGroup ==> Batch(View(), status, source, byGroup[source])
      ensures forall source: nat, s: nat :: source != NO_GROUP && InBatch(View(), status, source, s) ==> source in byGroup
    {
      hide Grouped; hide Batch; hide InBatch; hide Distinct; hide MajorityIndex.Range;
      byGroup := map[];
      var rest := MajorityIndex.Range(N_SHARDS);
      ghost var st := View();
      GroupedStart(st, status, rest);
      while rest != {}
        invariant rest <= MajorityIndex.Range(N_SHARDS) && Grouped(st, status, rest, byGroup)
        decreases |rest|
      {
        ghost var some := Sets.Pick(rest);
        var i :| i in rest;
        GroupedStep(st, status, rest, byGroup, i);
        assert st.shards[i] == stateMachines[i].Value();
        ghost var next := WithShard(st, status, byGroup, i);
        if stateMachines[i].status == status {
          var source := lastConfig.shards[i];
          if source != NO_GROUP {
            if source !in byGroup {
              byGroup := byGroup[source := []];
            }
            byGroup := byGroup[source := byGroup[source] + [i]];
          }
        }
        assert byGroup == next;
        rest := rest - {i};
      }
      GroupedAll(st, status, byGroup);
    }

    /** The entry for clients: a repeated write is answered from the table, anything else goes to the log. */
    method Command(request: Request) returns (answered: bool, response: Reply)
      ensures answered <==> request.op != OpGet && IsDuplicate(lastOperations, request.clientId, request.commandId)
      ensures answered ==> response == lastOperations[request.clientId].lastReply
    {
      if request.op != OpGet && IsDuplicateRequest(request.clientId, request.commandId) {
        return true, lastOperations[request.clientId].lastReply;
      }
      return false, Reply(OK, []);
    }

    /** Another group asks to delete a batch: done long ago, or a matter for the log. */
    method DeleteShardsData(isLeader: bool, request: ShardsRequest) returns (answered: bool, err: Err)
      ensures !isLeader ==> answered && err == ErrWrongLeader
      ensures isLeader ==> (answered <==> currentConfig.num > request.configNum) && (answered ==> err == OK)
    {
      if !isLeader {
        return true, ErrWrongLeader;
      }
      if currentConfig.num > request.configNum {
        return true, OK;
      }
      return false, OK;
    }

    /** The answer to another group's pull. */
    method GetShardsData(isLeader: bool, request: ShardsRequest) returns (err: Err, response: ShardsReply)
      requires Valid() && Deletable(request)
      ensures !isLeader ==> err == ErrWrongLeader
      ensures isLeader && currentConfig.num < request.configNum ==> err == ErrNotReady
      ensures isLeader && currentConfig.num >= request.configNum ==> err == OK && response == ShardsData(View(), request)
    {
      if !isLeader {
        return ErrWrongLeader, ShardsReply(0, map[], map[]);
      }
      if currentConfig.num < request.configNum {
        return ErrNotReady, ShardsReply(0, map[], map[]);
      }
      var shards: map<nat, Store> := map[];
      var i := 0;
      while i < |request.shardIds|
        invariant 0 <= i <= |request.shardIds|
        invariant shards.Keys == set s | s in request.shardIds[..i]
        invariant forall s :: s in shards ==> s < N_SHARDS && shards[s] == stateMachines[s].kv
      {
        var shardId := request.shardIds[i];
        var copy := stateMachines[shardId].DeepCopy();
        shards := shards[shardId := copy];
        i := i + 1;
      }
      response := ShardsReply(request.configNum, shards, lastOperations);
      err := OK;
    }

    // ----- Applying commands -----

    method ApplyOperationHere(operation: Request) returns (response: Reply)
      requires Valid()
      modifies `lastOperations, stateMachines
      ensures Valid() && (View(), response) == ApplyOperation(old(View()), operation)
    {
      var shardId := Key2Shard(operation.key);
      ghost var was := View();
      assert was.shards[shardId] == stateMachines[shardId].Value();
      if CanServeHere(shardId) {
        if operation.op != OpGet && IsDuplicateRequest(operation.clientId, operation.commandId) {
          return lastOperations[operation.clientId].lastReply;
        }
        response := ApplyLogToStateMachines(operation, shardId);
        if operation.op != OpGet {
          lastOperations := lastOperations[operation.clientId := Context(operation.commandId, response)];
        }
        assert Shards() == was.shards[shardId := Shard(Update(was.shards[shardId].kv, operation), was.shards[shardId].status)];
        return;
      }
      return Reply(ErrWrongGroup, []);
    }

    method ApplyLogToStateMachines(operation: Request, shardId: nat) returns (response: Reply)
      requires Valid() && shardId < N_SHARDS
      modifies stateMachines[shardId]
      ensures Valid() && response == Answer(old(stateMachines[shardId].kv), operation)
      ensures View() == old(View()).(shards := old(Shards())[shardId :=
                          Shard(Update(old(stateMachines[shardId].kv), operation), old(stateMachines[shardId].status))])
    {
      var value: Text, err: Err := [], OK;
      match operation.op {
        case OpPut => err := stateMachines[shardId].Put(operation.key, operation.value);
        case OpAppend => err := stateMachines[shardId].Append(operation.key, operation.value);
        case OpGet => value, err := stateMachines[shardId].Get(operation.key);
      }
      response := Reply(err, value);
    }

    method ApplyConfigurationHere(nextConfig: Config) returns (response: Reply)
      requires Valid() && |nextConfig.shards| == N_SHARDS
      modifies this, stateMachines
      ensures Valid() && (View(), response) == ApplyConfiguration(old(View()), nextConfig)
      ensures lastApplied == old(lastApplied) && stateMachines == old(stateMachines)
    {
      if nextConfig.num == currentConfig.num + 1 {
        ghost var was := View();
        UpdateShardStatus(nextConfig);
        lastConfig := currentConfig;
        currentConfig := nextConfig;
        assert Shards() == UpdateStatuses(was, nextConfig);
        return Reply(OK, []);
      }
      return Reply(ErrOutDated, []);
    }

    method UpdateShardStatus(nextConfig: Config)
      requires Valid() && |nextConfig.shards| == N_SHARDS
      modifies stateMachines
      ensures Valid() && View() == old(View()).(shards := UpdateStatuses(old(View()), nextConfig))
    {
      ghost var was := View();
      var i := 0;
      while i < N_SHARDS
        invariant 0 <= i <= N_SHARDS
        invariant forall j :: 0 <= j < i ==> stateMachines[j].Value() == UpdateStatuses(was, nextConfig)[j]
        invariant forall j :: i <= j < N_SHARDS ==> stateMachines[j].Value() == was.shards[j]
      {
        if currentConfig.shards[i] != gid && nextConfig.shards[i] == gid {
          if currentConfig.shards[i] != NO_GROUP {
            stateMachines[i].status := Pulling;
          }
        }
        if currentConfig.shards[i] == gid && nextConfig.shards[i] != gid {
          if nextConfig.shards[i] != NO_GROUP {
            stateMachines[i].status := BePulling;
          }
        }
        i := i + 1;
      }
      assert Shards() == UpdateStatuses(was, nextConfig);
    }

    /** Insert pulled data; `order` is the order in which the loop would meet the shards. */
    method ApplyInsertShardsHere(data: ShardsReply) returns (response: Reply, ghost order: seq<nat>)
      requires Valid() && forall s :: s in data.shards ==> s < N_SHARDS
      modifies `lastOperations, stateMachines
      ensures Valid() && Insertable(data, order)
      ensures (View(), response) == ApplyInsertShards(old(View()), data, order)
    {
      if data.configNum != currentConfig.num {
        order := Enumeration(data.shards.Keys);
        return Reply(ErrOutDated, []), order;
      }
      order := FillShards(data.shards);
      var merged := MergeInto(lastOperations, data.lastOperations);
      ghost var filled := Shards();
      lastOperations := merged;
      assert Shards() == filled;
      return Reply(OK, []), order;
    }

    method FillShards(data: map<nat, Store>) returns (ghost order: seq<nat>)
      requires Valid() && forall s :: s in data ==> s < N_SHARDS
      modifies stateMachines
      ensures Valid() && Enumerates(order, data.Keys) && Visits(order, data, N_SHARDS)
      ensures Shards() == InsertLoop(old(Shards()), data, order)
    {
      hide InsertsOn; hide InsertLoop; hide Enumerates;
      var rest := data.Keys;
      order := [];
      EnumeratesNone(data.Keys);
      InsertsStart(Shards(), data);
      while rest != {}
        invariant rest <= data.Keys && Enumerates(order, data.Keys - rest) && Visits(order, data, N_SHARDS)
        invariant InsertsOn(old(Shards()), Shards(), data, order)
        decreases |rest|
      {
        ghost var some := Sets.Pick(rest);
        var shardId :| shardId in rest;
        var shard := stateMachines[shardId];
        ghost var before := Shards();
        if shard.status == Pulling {
          var kv := Overwrite(shard.kv, data[shardId]);
          shard.kv := kv;
          shard.status := GCing;
          assert Shards() == before[shardId := Shard(before[shardId].kv + data[shardId], GCing)];
          InsertsOneMore(old(Shards()), before, data, order, shardId);
          VisitOneMore(order, data.Keys, rest, shardId);
        } else {
          order := StopAt(old(Shards()), before, data, order, rest, shardId);
          return;
        }
        order := order + [shardId];
        rest := rest - {shardId};
      }
      assert data.Keys - rest == data.Keys;
      InsertsEnd(old(Shards()), Shards(), data, order);
    }

    /** Delete a batch: the taker is done with it, or the source drops its copies. */
    method ApplyDeleteShardsHere(request: ShardsRequest) returns (response: Reply)
      requires Valid() && Deletable(request)
      modifies this, stateMachines
      ensures Valid() && (View(), response) == ApplyDeleteShards(old(View()), request)
      ensures fresh(Objects() - old(Objects())) && lastApplied == old(lastApplied)
    {
      if request.configNum != currentConfig.num {
        return Reply(OK, []);
      }
      FreeShards(request.shardIds);
      return Reply(OK, []);
    }

    method FreeShards(ids: seq<nat>)
      requires Valid() && Below(ids, N_SHARDS)
      modifies `stateMachines, stateMachines
      ensures Valid() && Shards() == DeleteLoop(old(Shards()), ids)
      ensures fresh(Objects() - old(Objects()))
    {
      hide DeleteLoop; hide Freed;
      var i := 0;
      DeleteRest(Shards(), ids, 0);
      while i < |ids|
        invariant 0 <= i <= |ids| && Valid()
        invariant forall k :: 0 <= k < N_SHARDS ==> stateMachines[k] == old(stateMachines)[k] || fresh(stateMachines[k])
        invariant DeleteLoop(Shards(), ids[i..]) == DeleteLoop(old(Shards()), ids)
      {
        var shardId := ids[i];
        var shard := stateMachines[shardId];
        ghost var before := Shards();
        assert before[shardId] == shard.Value();
        DeleteRest(before, ids, i);
        FreedIs(before[shardId]);
        if shard.status == GCing {
          shard.status := Serving;
          assert Shards() == before[shardId := Freed(before[shardId])];
        } else if shard.status == BePulling {
          var empty := new ShardObject(map[], Serving);
          stateMachines := stateMachines[shardId := empty];
          assert Shards() == before[shardId := Freed(before[shardId])];
        } else {
          break;
        }
        i := i + 1;
      }
      if i == |ids| { DeleteRest(Shards(), ids, i); }
    }

    /**
      * The applier's branch for a command: an index at or below the last one applied is
      * skipped, any other takes effect and becomes the last one.
      */
    method ApplyMessage(index: nat, command: Command) returns (answered: bool, response: Reply, ghost order: seq<nat>)
      requires Valid()
      requires match command
               case Configuration(config) => |config.shards| == N_SHARDS
               case InsertShards(data) => forall s :: s in data.shards ==> s < N_SHARDS
               case DeleteShards(request) => Deletable(request)
               case _ => true
      modifies this, stateMachines
      ensures Valid()
      ensures index <= old(lastApplied) ==> View() == old(View()) && lastApplied == old(lastApplied) && !answered
      ensures index > old(lastApplied) ==>
                && lastApplied == index && Applicable(command, order) && answered
                && (View(), response) == Apply(old(View()), command, order)
    {
      order := [];
      if index <= lastApplied {
        return false, Reply(OK, []), order;
      }
      lastApplied := index;
      assert View() == old(View());
      answered := true;
      match command {
        case Operation(operation) => response := ApplyOperationHere(operation);
        case Configuration(config) => response := ApplyConfigurationHere(config);
        case InsertShards(data) => response, order := ApplyInsertShardsHere(data);
        case DeleteShards(request) => response := ApplyDeleteShardsHere(request);
        case EmptyEntry => response := Reply(OK, []);
      }
    }
  }

  // ----- The insertion loop in any order -----

  lemma {:induction false} Enumeration(keys: set<nat>) returns (order: seq<nat>)
    ensures Enumerates(order, keys)
    decreases |keys|
  {
    if keys == {} {
      order := [];
    } else {
      var k := Sets.Pick(keys);
      order := Enumeration(keys - {k});
      order := [k] + order;
    }
  }

  /** After the keys in `order`, the loop goes on with `now` whatever comes next. */
  ghost predicate InsertsOn(was: seq<Shard>, now: seq<Shard>, data: map<nat, Store>, order: seq<nat>) {
    && |now| == |was|
    && forall tail :: Visits(order + tail, data, |was|) && Visits(tail, data, |was|) ==>
         InsertLoop(was, data, order + tail) == InsertLoop(now, data, tail)
  }

  lemma EnumeratesNone(keys: set<nat>)
    ensures Enumerates([], keys - keys)
  {
  }

  lemma InsertsEnd(was: seq<Shard>, now: seq<Shard>, data: map<nat, Store>, order: seq<nat>)
    requires InsertsOn(was, now, data, order) && Visits(order, data, |was|)
    ensures InsertLoop(was, data, order) == now
  {
    hide InsertLoop;
    assert order + [] == order;
    InsertNothing(now, data, []);
  }

  lemma InsertsStart(was: seq<Shard>, data: map<nat, Store>)
    ensures InsertsOn(was, was, data, [])
  {
    forall tail | Visits([] + tail, data, |was|) ensures InsertLoop(was, data, [] + tail) == InsertLoop(was, data, tail) {
      assert [] + tail == tail;
    }
  }

  lemma InsertsOneMore(was: seq<Shard>, now: seq<Shard>, data: map<nat, Store>, order: seq<nat>, s: nat)
    requires InsertsOn(was, now, data, order) && s in data && s < |now| && now[s].status == Pulling
    ensures InsertsOn(was, now[s := Shard(now[s].kv + data[s], GCing)], data, order + [s])
  {
    var next := now[s := Shard(now[s].kv + data[s], GCing)];
    forall tail | Visits(order + [s] + tail, data, |was|) && Visits(tail, data, |was|)
      ensures InsertLoop(was, data, order + [s] + tail) == InsertLoop(next, data, tail)
    {
      assert order + [s] + tail == order + ([s] + tail);
      assert ([s] + tail)[1..] == tail;
      assert Visits([s] + tail, data, |was|);
    }
  }

  lemma VisitOneMore(order: seq<nat>, keys: set<nat>, rest: set<nat>, s: nat)
    requires rest <= keys && s in rest && Enumerates(order, keys - rest)
    ensures Enumerates(order + [s], keys - (rest - {s})) && |rest - {s}| < |rest|
  {
  }

  /** The deletion loop from position i on. */
  lemma DeleteRest(shards: seq<Shard>, ids: seq<nat>, i: nat)
    requires i <= |ids| && Below(ids, |shards|)
    ensures ids[0..] == ids
    ensures DeleteLoop(shards, ids[i..])
         == if i == |ids| || shards[ids[i]].status == Serving || shards[ids[i]].status == Pulling then shards
            else DeleteLoop(shards[ids[i] := Freed(shards[ids[i]])], ids[i + 1..])
  {
    if i < |ids| { assert ids[i..][1..] == ids[i + 1..]; }
  }

  lemma FreedIs(shard: Shard)
    ensures Freed(shard) == if shard.status == GCing then Shard(shard.kv, Serving) else Shard(map[], Serving)
  {
  }

  /** Where the loop breaks, any order of the keys it never met gives the same result. */
  lemma StopAt(was: seq<Shard>, now: seq<Shard>, data: map<nat, Store>, order: seq<nat>, rest: set<nat>, s: nat)
    returns (whole: seq<nat>)
    requires InsertsOn(was, now, data, order) && rest <= data.Keys && s in rest && s < |now| && now[s].status != Pulling
    requires Enumerates(order, data.Keys - rest) && Visits(order, data, |was|) && forall k :: k in data ==> k < |was|
    ensures Enumerates(whole, data.Keys) && Visits(whole, data, |was|) && InsertLoop(was, data, whole) == now
  {
    var tail := Enumeration(rest - {s});
    tail := [s] + tail;
    whole := order + tail;
    assert Visits(tail, data, |was|) && Visits(whole, data, |was|);
    forall i, j | 0 <= i < j < |whole| ensures whole[i] != whole[j] {
      if i < |order| <= j {
        assert whole[i] in data.Keys - rest && tail[j - |order|] in rest;
      }
    }
    forall k | k in data.Keys ensures k in whole {
      if k in rest { assert k == s || k in tail[1..]; }
    }
  }

  /** The merge loop of an insertion. */
  method MergeInto(mine: Dedup, theirs: Dedup) returns (merged: Dedup)
    ensures merged == MergeOperations(mine, theirs)
  {
    merged := mine;
    var rest := theirs.Keys;
    MergeNone(mine, theirs);
    hide MergeOperations;
    while rest != {}
      invariant rest <= theirs.Keys && merged == MergeOperations(mine, theirs - rest)
      decreases |rest|
    {
      ghost var some := Sets.Pick(rest);
      var client :| client in rest;
      MergeStep(mine, theirs, rest, client);
      if client !in merged || merged[client].maxCommandId < theirs[client].maxCommandId {
        merged := merged[client := theirs[client]];
      }
      rest := rest - {client};
    }
    assert theirs - {} == theirs;
  }

  lemma MergeNone(mine: Dedup, theirs: Dedup)
    ensures MergeOperations(mine, theirs - theirs.Keys) == mine
  {
    assert (theirs - theirs.Keys).Keys == {};
    assert MergeOperations(mine, theirs - theirs.Keys).Keys == mine.Keys;
  }

  lemma MergeStep(mine: Dedup, theirs: Dedup, rest: set<int>, c: int)
    requires c in rest && rest <= theirs.Keys
    ensures var some := MergeOperations(mine, theirs - rest);
            MergeOperations(mine, theirs - (rest - {c}))
              == if c !in some || some[c].maxCommandId < theirs[c].maxCommandId then some[c := theirs[c]] else some
  {
    var some, more := MergeOperations(mine, theirs - rest), MergeOperations(mine, theirs - (rest - {c}));
    assert some.Keys == mine.Keys + (theirs.Keys - rest);
    assert more.Keys == some.Keys + {c};
  }

  // ----- Collecting shards by group -----

  /** `byGroup` lists exactly the shards outside `rest` with this status. */
  ghost predicate Grouped(st: GroupState, status: Status, rest: set<nat>, byGroup: map<nat, seq<nat>>)
    requires WellFormed(st)
  {
    && (forall source :: source in byGroup ==> source != NO_GROUP && byGroup[source] != [] && Distinct(byGroup[source]))
    && (forall source, s: nat :: source in byGroup ==>
          (s in byGroup[source] <==> s !in rest && InBatch(st, status, source, s)))
    && (forall source: nat, s: nat :: source != NO_GROUP && s !in rest && InBatch(st, status, source, s) ==> source in byGroup)
  }

  function WithShard(st: GroupState, status: Status, byGroup: map<nat, seq<nat>>, i: nat): map<nat, seq<nat>>
    requires WellFormed(st) && i < N_SHARDS
  {
    var source := st.lastConfig.shards[i];
    if st.shards[i].status == status && source != NO_GROUP then
      var known := if source in byGroup then byGroup else byGroup[source := []];
      known[source := known[source] + [i]]
    else byGroup
  }

  lemma GroupedStart(st: GroupState, status: Status, rest: set<nat>)
    requires WellFormed(st) && forall s: nat :: s < N_SHARDS ==> s in rest
    ensures Grouped(st, status, rest, map[])
  {
  }

  lemma GroupedAll(st: GroupState, status: Status, byGroup: map<nat, seq<nat>>)
    requires WellFormed(st) && Grouped(st, status, {}, byGroup)
    ensures forall source :: source in byGroup ==> Batch(st, status, source, byGroup[source])
    ensures forall source: nat, s: nat :: source != NO_GROUP && InBatch(st, status, source, s) ==> source in byGroup
  {
  }

  lemma GroupedStep(st: GroupState, status: Status, rest: set<nat>, byGroup: map<nat, seq<nat>>, i: nat)
    requires WellFormed(st) && i in rest && i < N_SHARDS && Grouped(st, status, rest, byGroup)
    ensures Grouped(st, status, rest - {i}, WithShard(st, status, byGroup, i))
  {
    var more := WithShard(st, status, byGroup, i);
    var from := st.lastConfig.shards[i];
    forall source, s: nat | source in more
      ensures s in more[source] <==> s !in rest - {i} && InBatch(st, status, source, s)
    {
      assert source != NO_GROUP && s !in rest && InBatch(st, status, source, s) ==> source in byGroup;
    }
  }
}
