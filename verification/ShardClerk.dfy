/** The client's retry loop. */
module ShardClerk {
  import opened ShardTypes

  // What the network and the controller answer is a parameter: `outcomes` are the results of the
  // calls in order, `configs` those of the queries.

  datatype Outcome = NoEndpoint | CallFailed | Answered(reply: Reply)

  /** The part of a configuration a clerk uses: shard owners, and each group's number of servers. */
  datatype ClerkConfig = ClerkConfig(shards: seq<nat>, groups: map<nat, nat>)
  {
    ghost predicate Valid() {
      |shards| == N_SHARDS && forall g :: g in groups ==> groups[g] > 0
    }

    /** The configuration names gid as the owner of the key's shard. */
    ghost predicate Names(key: Text, gid: nat) {
      |shards| == N_SHARDS && shards[Key2Shard(key)] == gid
    }
  }

  /** One call: to a server of a group, with a request. */
  datatype Call = Call(gid: nat, server: nat, request: Request)

  predicate Final(outcome: Outcome) {
    outcome.Answered? && (outcome.reply.err == OK || outcome.reply.err == ErrNoKey)
  }

  predicate WrongGroup(outcome: Outcome) {
    outcome.Answered? && outcome.reply.err == ErrWrongGroup
  }

  /** The outcomes after which no other server of the group is tried. */
  predicate Stops(outcome: Outcome) {
    Final(outcome) || WrongGroup(outcome)
  }

  // ----- One command, call by call -----

  /** The server after server i of n, round and round. */
  function Following(i: nat, n: nat): (r: nat)
    requires i < n
    ensures r == if i + 1 == n then 0 else i + 1
  {
    (i + 1) % n
  }

  /** How many of a group's n servers are tried: up to the first outcome that stops, or all of them. */
  function Tried(n: nat, outcomes: seq<Outcome>, at: nat): (m: nat)
    requires at <= |outcomes|
    ensures m <= n && at + m <= |outcomes|
    ensures forall i :: at <= i < at + m - 1 ==> !Stops(outcomes[i])
    ensures m < n && at + m < |outcomes| ==> m > 0 && Stops(outcomes[at + m - 1])
  {
    if n == 0 || at == |outcomes| then 0
    else if Stops(outcomes[at]) then 1
    else 1 + Tried(n - 1, outcomes, at + 1)
  }

  /** The first m outcomes from `at` on are those of servers 0 to m - 1; without an endpoint there is no call. */
  function CallsOf(gid: nat, request: Request, outcomes: seq<Outcome>, at: nat, m: nat): seq<Call>
    requires at + m <= |outcomes|
  {
    if m == 0 then []
    else
      CallsOf(gid, request, outcomes, at, m - 1)
      + if outcomes[at + m - 1].NoEndpoint? then [] else [Call(gid, m - 1, request)]
  }

  /** The number of servers a clerk finds for the key's shard, 0 if the owner is not a group. */
  function Servers(config: ClerkConfig, key: Text): nat
    requires config.Valid()
  {
    var gid := config.shards[Key2Shard(key)];
    if gid in config.groups then config.groups[gid] else 0
  }

  /** What a command comes to: the answer if it is done, the calls made, the outcomes used and the queries made. */
  datatype Course = Course(done: bool, answer: Text, calls: seq<Call>, used: nat, queries: nat)

  ghost predicate AllValid(configs: seq<ClerkConfig>) {
    forall i :: 0 <= i < |configs| ==> configs[i].Valid()
  }

  /** From the q-th configuration on, each group's servers are tried in turn; `calls` were made before. */
  function CourseFrom(configs: seq<ClerkConfig>, q: nat, request: Request, outcomes: seq<Outcome>, at: nat, calls: seq<Call>): Course
    requires q < |configs| && AllValid(configs) && at <= |outcomes|
    decreases |configs| - q
  {
    var gid := configs[q].shards[Key2Shard(request.key)];
    var m := Tried(Servers(configs[q], request.key), outcomes, at);
    var after := calls + CallsOf(gid, request, outcomes, at, m);
    if m > 0 && Final(outcomes[at + m - 1]) then Course(true, outcomes[at + m - 1].reply.value, after, at + m, q)
    else if q == |configs| - 1 then Course(false, [], after, at + m, q)
    else CourseFrom(configs, q + 1, request, outcomes, at + m, after)
  }

  lemma {:induction false} TriedIs(n: nat, outcomes: seq<Outcome>, at: nat, m: nat)
    requires m <= n && at + m <= |outcomes| && forall i :: at <= i < at + m - 1 ==> !Stops(outcomes[i])
    requires m == n || at + m == |outcomes| || (m > 0 && Stops(outcomes[at + m - 1]))
    ensures Tried(n, outcomes, at) == m
    decreases m
  {
    if m > 0 && !Stops(outcomes[at]) {
      TriedIs(n - 1, outcomes, at + 1, m - 1);
    }
  }

  lemma CallsNone(gid: nat, request: Request, outcomes: seq<Outcome>, at: nat)
    requires at <= |outcomes|
    ensures CallsOf(gid, request, outcomes, at, 0) == []
  {
  }

  lemma CallsOneMore(gid: nat, request: Request, outcomes: seq<Outcome>, at: nat, m: nat)
    requires at + m < |outcomes|
    ensures CallsOf(gid, request, outcomes, at, m + 1)
         == CallsOf(gid, request, outcomes, at, m) + if outcomes[at + m].NoEndpoint? then [] else [Call(gid, m, request)]
  {
  }

  lemma CourseStep(configs: seq<ClerkConfig>, q: nat, request: Request, outcomes: seq<Outcome>, at: nat, calls: seq<Call>)
    requires q < |configs| && AllValid(configs) && at <= |outcomes|
    ensures var m := Tried(Servers(configs[q], request.key), outcomes, at);
            var after := calls + CallsOf(configs[q].shards[Key2Shard(request.key)], request, outcomes, at, m);
            CourseFrom(configs, q, request, outcomes, at, calls)
              == if m > 0 && Final(outcomes[at + m - 1]) then Course(true, outcomes[at + m - 1].reply.value, after, at + m, q)
                 else if q == |configs| - 1 then Course(false, [], after, at + m, q)
                 else CourseFrom(configs, q + 1, request, outcomes, at + m, after)
  {
  }

  lemma NoneTried(outcomes: seq<Outcome>, at: nat)
    requires at <= |outcomes|
    ensures Tried(0, outcomes, at) == 0
  {
  }

  // ----- What a course is -----

  /** Every server that was tried and has an endpoint was called. */
  lemma {:induction false} TriedIsCalled(gid: nat, request: Request, outcomes: seq<Outcome>, at: nat, m: nat, i: nat)
    requires at + m <= |outcomes| && i < m && !outcomes[at + i].NoEndpoint?
    ensures Call(gid, i, request) in CallsOf(gid, request, outcomes, at, m)
    decreases m
  {
    if i < m - 1 { TriedIsCalled(gid, request, outcomes, at, m - 1, i); }
  }

  /** No other call is made, and the calls go through the group's servers in order. */
  lemma {:induction false} CallsInOrder(gid: nat, request: Request, outcomes: seq<Outcome>, at: nat, m: nat)
    requires at + m <= |outcomes|
    ensures var calls := CallsOf(gid, request, outcomes, at, m);
            && (forall x :: 0 <= x < |calls| ==>
                  && calls[x].gid == gid && calls[x].request == request && calls[x].server < m
                  && !outcomes[at + calls[x].server].NoEndpoint?)
            && forall x, y :: 0 <= x < y < |calls| ==> calls[x].server < calls[y].server
    decreases m
  {
    if m > 0 {
      CallsInOrder(gid, request, outcomes, at, m - 1);
      hide CallsOf;
      CallsOneMore(gid, request, outcomes, at, m - 1);
    } else {
      CallsNone(gid, request, outcomes, at);
    }
  }

  ghost predicate IssuedUnder(configs: seq<ClerkConfig>, request: Request, call: Call) {
    call.request == request && exists k :: 0 <= k < |configs| && configs[k].Names(request.key, call.gid)
  }

  /**
    * A command is done if and only if a final outcome is used; that is the last one and gives the
    * answer. Otherwise all configurations were gone through, and the outcomes are used up or the
    * last round ended: with its last server, or with a refusal.
    */
  lemma {:induction false} CourseFacts(configs: seq<ClerkConfig>, q: nat, request: Request, outcomes: seq<Outcome>, at: nat, calls: seq<Call>)
    requires q < |configs| && AllValid(configs) && at <= |outcomes|
    requires forall i :: 0 <= i < |calls| ==> IssuedUnder(configs, request, calls[i])
    ensures var c := CourseFrom(configs, q, request, outcomes, at, calls);
            && at <= c.used <= |outcomes| && q <= c.queries < |configs|
            && (forall i :: 0 <= i < |c.calls| ==> IssuedUnder(configs, request, c.calls[i]))
            && (forall i :: at <= i < c.used - 1 ==> !Final(outcomes[i]))
            && (c.done <==> c.used > at && Final(outcomes[c.used - 1]))
            && c.answer == (if c.done then outcomes[c.used - 1].reply.value else [])
            && (!c.done ==>
                  && c.queries == |configs| - 1
                  && exists last: nat :: at <= last <= c.used && c.used - last == Tried(Servers(configs[c.queries], request.key), outcomes, last))
    decreases |configs| - q
  {
    hide CallsOf; hide Tried; hide CourseFrom;
    var m := Tried(Servers(configs[q], request.key), outcomes, at);
    var gid := configs[q].shards[Key2Shard(request.key)];
    CourseStep(configs, q, request, outcomes, at, calls);
    CallsInOrder(gid, request, outcomes, at, m);
    var after := calls + CallsOf(gid, request, outcomes, at, m);
    forall i | 0 <= i < |after| ensures IssuedUnder(configs, request, after[i]) {
      assert configs[q].Names(request.key, gid);
    }
    if !(m > 0 && Final(outcomes[at + m - 1])) && q < |configs| - 1 {
      CourseFacts(configs, q + 1, request, outcomes, at + m, after);
    }
  }

  /** A final answer within the first round ends the command with exactly that answer, from the server whose turn it was. */
  lemma AnsweredInFirstRound(configs: seq<ClerkConfig>, request: Request, outcomes: seq<Outcome>, k: nat)
    requires |configs| > 0 && AllValid(configs) && k < |outcomes| && k < Servers(configs[0], request.key)
    requires Final(outcomes[k]) && forall i :: 0 <= i < k ==> !Stops(outcomes[i])
    ensures var c := CourseFrom(configs, 0, request, outcomes, 0, []);
            && c.done && c.answer == outcomes[k].reply.value && c.used == k + 1 && c.queries == 0
            && c.calls == CallsOf(configs[0].shards[Key2Shard(request.key)], request, outcomes, 0, k + 1)
            && |c.calls| > 0 && c.calls[|c.calls| - 1] == Call(configs[0].shards[Key2Shard(request.key)], k, request)
  {
    TriedIs(Servers(configs[0], request.key), outcomes, 0, k + 1);
    CallsOneMore(configs[0].shards[Key2Shard(request.key)], request, outcomes, 0, k);
  }

  /** Without one, every server of the group is tried before the next query; a refusal makes the query at once. */
  lemma WholeRoundFirst(configs: seq<ClerkConfig>, request: Request, outcomes: seq<Outcome>, m: nat)
    requires |configs| > 1 && AllValid(configs) && m <= |outcomes| && m <= Servers(configs[0], request.key)
    requires forall i :: 0 <= i < m - 1 ==> !Stops(outcomes[i])
    requires m > 0 ==> !Final(outcomes[m - 1])
    requires m == Servers(configs[0], request.key) || (m > 0 && WrongGroup(outcomes[m - 1]))
    ensures CourseFrom(configs, 0, request, outcomes, 0, [])
         == CourseFrom(configs, 1, request, outcomes, m,
                       CallsOf(configs[0].shards[Key2Shard(request.key)], request, outcomes, 0, m))
  {
    TriedIs(Servers(configs[0], request.key), outcomes, 0, m);
    CourseStep(configs, 0, request, outcomes, 0, []);
    hide CourseFrom;
    assert [] + CallsOf(configs[0].shards[Key2Shard(request.key)], request, outcomes, 0, m)
        == CallsOf(configs[0].shards[Key2Shard(request.key)], request, outcomes, 0, m);
  }

  /** All servers under the configurations from the q-th on. */
  ghost function ServersFrom(configs: seq<ClerkConfig>, q: nat, key: Text): nat
    requires q <= |configs| && AllValid(configs)
    decreases |configs| - q
  {
    if q == |configs| then 0 else Servers(configs[q], key) + ServersFrom(configs, q + 1, key)
  }

  /** Where nobody answers finally or refuses, every server of every configuration is tried, as far as outcomes are given. */
  lemma {:induction false} NobodyStops(configs: seq<ClerkConfig>, q: nat, request: Request, outcomes: seq<Outcome>, at: nat, calls: seq<Call>)
    requires q < |configs| && AllValid(configs) && at <= |outcomes|
    requires forall i :: at <= i < |outcomes| ==> !Stops(outcomes[i])
    ensures var c := CourseFrom(configs, q, request, outcomes, at, calls);
            && !c.done && c.queries == |configs| - 1
            && c.used == if at + ServersFrom(configs, q, request.key) <= |outcomes|
                         then at + ServersFrom(configs, q, request.key) else |outcomes|
    decreases |configs| - q
  {
    hide CallsOf; hide Tried; hide CourseFrom; hide Servers;
    var m := Tried(Servers(configs[q], request.key), outcomes, at);
    CourseStep(configs, q, request, outcomes, at, calls);
    if q < |configs| - 1 {
      NobodyStops(configs, q + 1, request, outcomes, at + m,
                  calls + CallsOf(configs[q].shards[Key2Shard(request.key)], request, outcomes, at, m));
    }
  }

  class Clerk {
    const clientId: int
    var commandId: int
    var config: ClerkConfig
    var leaderIds: map<nat, nat>

    ghost predicate Valid()
      reads this
    {
      && config.Valid()
      && forall g :: g in leaderIds ==> leaderIds[g] == 0
    }

    constructor (id: int, latest: ClerkConfig)
      requires latest.Valid()
      ensures Valid() && clientId == id && commandId == 0
    {
      clientId, commandId, config, leaderIds := id, 0, latest, map[];
    }

    /** The inner loop: the servers of one group in turn, until an outcome that stops or all have been tried. */
    method TryServers(gid: nat, request: Request, outcomes: seq<Outcome>, at: nat)
      returns (done: bool, answer: Text, calls: seq<Call>, used: nat)
      requires Valid() && gid in config.groups && at <= |outcomes|
      modifies `commandId, `leaderIds
      ensures Valid() && used == at + Tried(config.groups[gid], outcomes, at) <= |outcomes|
      ensures calls == CallsOf(gid, request, outcomes, at, used - at)
      ensures done <==> used > at && Final(outcomes[used - 1])
      ensures answer == if done then outcomes[used - 1].reply.value else []
      ensures commandId == old(commandId) + if done then 1 else 0
    {
      hide CallsOf; hide Tried; hide Following;
      CallsNone(gid, request, outcomes, at);
      done, answer, calls, used := false, [], [], at;
      if gid !in leaderIds {
        leaderIds := leaderIds[gid := 0];
      }
      var oldLeaderId := leaderIds[gid];
      var newLeaderId := oldLeaderId;
      while used < |outcomes|
        invariant Valid() && at <= used <= |outcomes| && newLeaderId == used - at < config.groups[gid]
        invariant !done && commandId == old(commandId) && calls == CallsOf(gid, request, outcomes, at, used - at)
        invariant forall i :: at <= i < used ==> !Stops(outcomes[i])
      {
        var outcome := outcomes[used];
        CallsOneMore(gid, request, outcomes, at, used - at);
        used := used + 1;
        if outcome.NoEndpoint? {
          newLeaderId := Following(newLeaderId, config.groups[gid]);
          if newLeaderId == oldLeaderId { break; }
          continue;
        }
        calls := calls + [Call(gid, newLeaderId, request)];
        if Final(outcome) {
          commandId := commandId + 1;
          done, answer := true, outcome.reply.value;
          break;
        } else if outcome.Answered? && outcome.reply.err == ErrWrongGroup {
          break;
        } else {
          newLeaderId := Following(newLeaderId, config.groups[gid]);
          if newLeaderId == oldLeaderId { break; }
        }
      }
      TriedIs(config.groups[gid], outcomes, at, used - at);
    }

    /**
      * Command: the configurations are gone through in order and the servers of the key's group
      * from the first on. Every call carries the same client and command id; the id moves on
      * exactly when an answer is final, and nothing is sent after a final answer.
      */
    method Command(key: Text, value: Text, op: Op, outcomes: seq<Outcome>, configs: seq<ClerkConfig>)
      returns (done: bool, answer: Text, calls: seq<Call>, used: nat)
      requires Valid() && AllValid(configs)
      modifies this
      ensures Valid() && AllValid([old(config)] + configs)
      ensures var course := CourseFrom([old(config)] + configs, 0, Request(key, value, op, clientId, old(commandId)), outcomes, 0, []);
              && done == course.done && answer == course.answer && calls == course.calls && used == course.used
              && course.queries <= |configs| && config == ([old(config)] + configs)[course.queries]
      ensures commandId == old(commandId) + if done then 1 else 0
      ensures forall i :: 0 <= i < |calls| ==>
                IssuedUnder([old(config)] + configs, Request(key, value, op, clientId, old(commandId)), calls[i])
      ensures used <= |outcomes| && (done <==> used > 0 && Final(outcomes[used - 1]))
      ensures forall i :: 0 <= i < used - 1 ==> !Final(outcomes[i])
      ensures done ==> answer == outcomes[used - 1].reply.value
    {
      hide CallsOf; hide Tried; hide CourseFrom; hide IssuedUnder;
      var request := Request(key, value, op, clientId, commandId);
      done, answer, calls, used := false, [], [], 0;
      ghost var all := [config] + configs;
      ghost var course := CourseFrom(all, 0, request, outcomes, 0, []);
      CourseFacts(all, 0, request, outcomes, 0, []);
      var queries := 0;
      while true
        invariant used <= |outcomes| && 0 <= queries <= |configs| && Valid()
        invariant commandId == old(commandId) && !done && answer == [] && config == all[queries]
        invariant course == CourseFrom(all, queries, request, outcomes, used, calls)
        decreases |configs| - queries
      {
        var gid := config.shards[Key2Shard(key)];
        NoneTried(outcomes, used);
        CallsNone(gid, request, outcomes, used);
        assert calls + [] == calls;
        CourseStep(all, queries, request, outcomes, used, calls);
        if gid in config.groups {
          var more;
          done, answer, more, used := TryServers(gid, request, outcomes, used);
          calls := calls + more;
          if done { return; }
        }
        if queries == |configs| { break; }
        config := configs[queries];
        queries := queries + 1;
      }
    }
  }
}
