/** What a key holds is told by the writes to it that took effect. */
module KeyHistory {
  import opened ShardTypes
  import opened ShardApply
  import opened ShardSystem
  import opened ShardInvariant
  import opened ShardSafety

  // ----- One operation -----

  /** Key k holds the same in both maps. */
  predicate SameAt(kv: Store, kv2: Store, k: Text) {
    (k in kv2 <==> k in kv) && (k in kv ==> kv2[k] == kv[k])
  }

  /**
    * An operation that is served and no repetition: a put sets its key's value, an append
    * extends it, from nothing if there was none, a get changes nothing. It changes no other
    * key and no other shard, and a get answers the value, or ErrNoKey if there is none.
    */
  lemma OperationEffect(st: GroupState, r: Request, k: Text, s: nat)
    requires WellFormed(st) && CanServe(st, Key2Shard(r.key)) && s < N_SHARDS
    requires r.op == OpGet || !IsDuplicate(st.lastOperations, r.clientId, r.commandId)
    ensures var (st2, reply) := ApplyOperation(st, r);
            && WellFormed(st2) && st2.shards[s].status == st.shards[s].status
            && st2.gid == st.gid && st2.currentConfig == st.currentConfig && st2.lastConfig == st.lastConfig
            && (s != Key2Shard(r.key) ==> st2.shards[s] == st.shards[s])
            && (k != r.key ==> SameAt(st.shards[s].kv, st2.shards[s].kv, k))
            && (var was, now := st.shards[Key2Shard(r.key)].kv, st2.shards[Key2Shard(r.key)].kv;
                match r.op
                case OpPut => reply == Reply(OK, []) && r.key in now && now[r.key] == r.value
                case OpAppend =>
                  && reply == Reply(OK, []) && r.key in now
                  && now[r.key] == if r.key in was then was[r.key] + r.value else r.value
                case OpGet =>
                  && now == was && st2 == st
                  && reply == if r.key in was then Reply(OK, was[r.key]) else Reply(ErrNoKey, []))
            && (r.op != OpGet ==>
                  st2.lastOperations == st.lastOperations[r.clientId := Context(r.commandId, reply)])
  {
    var s0 := Key2Shard(r.key);
    if r.op == OpGet {
      assert st.shards[s0 := Shard(st.shards[s0].kv, st.shards[s0].status)] == st.shards;
    }
  }

  /** A shard this group does not serve, or a repeated write, changes nothing. */
  lemma NoEffect(st: GroupState, r: Request)
    requires WellFormed(st)
    requires !CanServe(st, Key2Shard(r.key)) || (r.op != OpGet && IsDuplicate(st.lastOperations, r.clientId, r.commandId))
    ensures ApplyOperation(st, r).0 == st
    ensures ApplyOperation(st, r).1
         == if !CanServe(st, Key2Shard(r.key)) then Reply(ErrWrongGroup, []) else st.lastOperations[r.clientId].lastReply
  {
  }

  // ----- All runs -----

  /** The effective writes to a key in the first n steps, in order. */
  ghost function Writes(w: World, states: seq<System>, actions: seq<Action>, n: nat, key: Text): (ws: seq<Request>)
    ensures forall i :: 0 <= i < |ws| ==> ws[i].op != OpGet && ws[i].key == key
  {
    if n == 0 || n > |actions| then []
    else
      var before := Writes(w, states, actions, n - 1, key);
      if WritesKey(w, states, actions, n - 1, key) then before + [actions[n - 1].command.request] else before
  }

  /** Step k is an effective write to the key. */
  ghost predicate WritesKey(w: World, states: seq<System>, actions: seq<Action>, k: nat, key: Text) {
    && k < |actions| && actions[k].Append? && actions[k].command.Operation?
    && Effective(w, states, actions, k, actions[k].command.request) && actions[k].command.request.key == key
  }

  /** The position of the last put, 0 if there is none. */
  function LastPut(ws: seq<Request>): (p: nat)
    ensures p <= |ws| && (ws != [] ==> p < |ws|)
    ensures forall i :: p < i < |ws| ==> ws[i].op != OpPut
    ensures p > 0 ==> ws[p].op == OpPut
  {
    if ws == [] then 0
    else if ws[|ws| - 1].op == OpPut then |ws| - 1
    else LastPut(ws[..|ws| - 1])
  }

  /** The values one after the other. */
  function Joined(ws: seq<Request>): Text {
    if ws == [] then [] else Joined(ws[..|ws| - 1]) + ws[|ws| - 1].value
  }

  /** A map whose key holds the last put's value followed by those of the appends after it. */
  ghost predicate Tells(kv: Store, key: Text, ws: seq<Request>) {
    if ws == [] then key !in kv else key in kv && kv[key] == Joined(ws[LastPut(ws)..])
  }

  lemma LastOf(ws: seq<Request>, r: Request)
    ensures LastPut(ws + [r]) == if r.op == OpPut then |ws| else LastPut(ws)
  {
    assert (ws + [r])[..|ws|] == ws;
  }

  lemma JoinOne(ws: seq<Request>, r: Request)
    ensures Joined(ws + [r]) == Joined(ws) + r.value
  {
    assert (ws + [r])[..|ws|] == ws;
  }

  lemma OneMoreWrite(kv: Store, ws: seq<Request>, r: Request)
    requires Tells(kv, r.key, ws) && r.op != OpGet
    ensures Tells(Update(kv, r), r.key, ws + [r])
  {
    hide LastPut; hide Joined;
    LastOf(ws, r);
    var p := LastPut(ws);
    if r.op == OpPut {
      assert (ws + [r])[|ws|..] == [] + [r];
      JoinOne([], r);
      JoinedNone();
    } else {
      assert (ws + [r])[p..] == ws[p..] + [r];
      JoinOne(ws[p..], r);
      if ws == [] { JoinedNone(); }
    }
  }

  lemma JoinedNone()
    ensures Joined([]) == []
  {
  }

  lemma OtherWrite(kv: Store, ws: seq<Request>, r: Request, key: Text)
    requires Tells(kv, key, ws) && r.key != key
    ensures Tells(Update(kv, r), key, ws)
  {
  }

  lemma StepTells(w: World, states: seq<System>, actions: seq<Action>, n: nat, key: Text, was: Store, now: Store)
    requires n < |actions| && n < |states| && Shaped(states[n]) && actions[n].g in states[n].groups
    requires now == OneMap(states[n], actions[n], Key2Shard(key), was)
    requires Tells(was, key, Writes(w, states, actions, n, key))
    ensures Tells(now, key, Writes(w, states, actions, n + 1, key))
  {
    hide Tells; hide Update; hide Was; hide Writes; hide CanServe;
    OneMoreStep(w, states, actions, n, key);
    var a, ws := actions[n], Writes(w, states, actions, n, key);
    if a.Append? && TakesEffect(states[n].groups[a.g].now, a.command) {
      if a.command.request.key == key {
        OneMoreWrite(was, ws, a.command.request);
      } else if Key2Shard(a.command.request.key) == Key2Shard(key) {
        OtherWrite(was, ws, a.command.request, key);
      }
    }
  }

  lemma OneMoreStep(w: World, states: seq<System>, actions: seq<Action>, n: nat, key: Text)
    requires n < |actions|
    ensures Writes(w, states, actions, n + 1, key)
         == if WritesKey(w, states, actions, n, key) then Writes(w, states, actions, n, key) + [actions[n].command.request]
            else Writes(w, states, actions, n, key)
  {
    hide WritesKey;
  }

  /** In every run, at every moment: what the one map holds for a key is what the effective writes to it make it. */
  lemma {:induction false} HistoryTells(w: World, states: seq<System>, actions: seq<Action>, n: nat, key: Text)
    requires Run(w, states, actions) && n < |states|
    ensures Tells(Content(w, states[n].groups, Key2Shard(key)), key, Writes(w, states, actions, n, key))
    decreases n
  {
    hide Content; hide Tells; hide Effective; hide Goes; hide Init; hide WorldOK; hide OneMap; hide Writes;
    var s := Key2Shard(key);
    if n == 0 {
      ContentStartsEmpty(w, s);
      NothingWritten(w, states, actions, key);
    } else {
      HistoryTells(w, states, actions, n - 1, key);
      StepsRefineOneMap(w, states, actions, n - 1, s);
      StepTells(w, states, actions, n - 1, key,
                Content(w, states[n - 1].groups, s), Content(w, states[n].groups, s));
    }
  }

  lemma NothingWritten(w: World, states: seq<System>, actions: seq<Action>, key: Text)
    ensures Tells(map[], key, Writes(w, states, actions, 0, key))
  {
  }

  /**
    * A served get answers the value of the last effective put of its key followed by the
    * values of the effective appends after it, in order; ErrNoKey if no write of the key
    * has taken effect. Which groups had the shard meanwhile makes no difference.
    */
  lemma GetAnswersHistory(w: World, states: seq<System>, actions: seq<Action>, k: nat, r: Request)
    requires Run(w, states, actions) && k < |actions| && r.op == OpGet
    requires actions[k].Append? && actions[k].command == Operation(r)
    requires Shaped(states[k]) && actions[k].g in states[k].groups
    requires CanServe(states[k].groups[actions[k].g].now, Key2Shard(r.key))
    ensures var ws := Writes(w, states, actions, k, r.key);
            ApplyOperation(states[k].groups[actions[k].g].now, r).1
              == if ws == [] then Reply(ErrNoKey, []) else Reply(OK, Joined(ws[LastPut(ws)..]))
  {
    hide Run; hide Content; hide Writes; hide ApplyOperation; hide CanServe; hide Shaped;
    assert k < |states| by { RunLength(w, states, actions); }
    HistoryTells(w, states, actions, k, r.key);
    ServedFromOneMap(w, states, actions, k, r);
  }

  lemma RunLength(w: World, states: seq<System>, actions: seq<Action>)
    requires Run(w, states, actions)
    ensures |states| == |actions| + 1
  {
    hide WorldOK; hide Init;
  }

  /** Answers to writes carry no value. */
  lemma WriteAnswersOK(w: World, states: seq<System>, actions: seq<Action>, k: nat, r: Request)
    requires Run(w, states, actions) && k < |actions| && r.op != OpGet
    requires actions[k].Append? && actions[k].command == Operation(r)
    requires Shaped(states[k]) && actions[k].g in states[k].groups
    requires CanServe(states[k].groups[actions[k].g].now, Key2Shard(r.key))
    ensures ApplyOperation(states[k].groups[actions[k].g].now, r).1 == Reply(OK, [])
  {
    hide Run; hide Content; hide ApplyOperation; hide CanServe; hide Shaped;
    ServedFromOneMap(w, states, actions, k, r);
  }
}
