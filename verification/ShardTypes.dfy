/** The values a shard group keeps and the commands its log carries. */
module ShardTypes {

  /** Number of shards the key space is cut into. */
  const N_SHARDS: nat := 10

  /** The group id that owns nothing. */
  const NO_GROUP: nat := 0

  newtype Byte = x: int | 0 <= x < 256

  type Text = seq<Byte>

  type Store = map<Text, Text>

  datatype Status = Serving | Pulling | BePulling | GCing

  datatype Shard = Shard(kv: Store, status: Status)

  datatype Err = OK | ErrNoKey | ErrWrongGroup | ErrWrongLeader | ErrOutDated | ErrTimeout | ErrNotReady

  datatype Reply = Reply(err: Err, value: Text)

  /** The last write a group knows of a client, and the answer it got. */
  datatype Context = Context(maxCommandId: int, lastReply: Reply)

  type Dedup = map<int, Context>

  datatype Op = OpPut | OpAppend | OpGet

  datatype Request = Request(key: Text, value: Text, op: Op, clientId: int, commandId: int)

  /** Configuration number `num`: which group serves each shard. */
  datatype Config = Config(num: nat, shards: seq<nat>)

  datatype ShardsRequest = ShardsRequest(configNum: nat, shardIds: seq<nat>)

  datatype ShardsReply = ShardsReply(configNum: nat, shards: map<nat, Store>, lastOperations: Dedup)

  datatype Command =
    | Operation(request: Request)
    | Configuration(config: Config)
    | InsertShards(reply: ShardsReply)
    | DeleteShards(delete: ShardsRequest)
    | EmptyEntry

  /** What a group's replicas hold after applying a prefix of their log. */
  datatype GroupState = GroupState(
    gid: nat, lastConfig: Config, currentConfig: Config,
    shards: seq<Shard>, lastOperations: Dedup)

  function NewShard(): Shard {
    Shard(map[], Serving)
  }

  const DEFAULT_CONFIG: Config := Config(0, [0, 0, 0, 0, 0, 0, 0, 0, 0, 0])

  function InitialState(gid: nat): GroupState {
    GroupState(gid, DEFAULT_CONFIG, DEFAULT_CONFIG, seq(N_SHARDS, _ => NewShard()), map[])
  }

  /** The shard of a key: its first byte modulo the number of shards. */
  function Key2Shard(key: Text): (s: nat)
    ensures s < N_SHARDS
  {
    (if |key| > 0 then key[0] as int else 0) % N_SHARDS
  }
}
