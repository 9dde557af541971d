/** Runs that are written down step by step. */
module ShardRuns {
  import opened ShardTypes
  import opened ShardApply
  import opened ShardSystem
  import opened ShardSafety

  // ----- One step after the other -----

  lemma NextShaped(w: World, sys: System, a: Action)
    requires Shaped(sys) && Enabled(w, sys, a)
    ensures Shaped(Next(w, sys, a))
  {
    if a.Append? {
      hide Apply; hide Applicable;
      AfterApply(sys.groups[a.g].now, a.command, a.order);
      var sys2 := Next(w, sys, a);
      forall g, st | g in sys2.groups && Was(sys2.groups[g], st) ensures WellFormed(st) {
        if !(g == a.g && st == sys2.groups[g].now) { assert Was(sys.groups[g], st); }
      }
    } else {
      hide Sent; hide Batch; hide AllServing; hide Outstanding;
    }
  }

  /** What has happened so far. */
  datatype Trace = Trace(states: seq<System>, actions: seq<Action>)
  {
    ghost predicate Valid(w: World) {
      Steps(w, states, actions) && Shaped(Now())
    }

    function Now(): System
    {
      if |states| == 0 then System(map[], {}, [], {}, {}) else states[|states| - 1]
    }
  }

  lemma Start(w: World) returns (t: Trace)
    ensures t.Valid(w) && t.Now() == Init(w)
  {
    t := Trace([Init(w)], []);
    hide Steps;
    StartSteps(w);
  }

  lemma StartSteps(w: World)
    ensures Steps(w, [Init(w)], []) && Shaped(Init(w))
  {
  }

  lemma Extend(w: World, t: Trace, a: Action) returns (t2: Trace)
    requires t.Valid(w) && Enabled(w, t.Now(), a)
    ensures t2.Valid(w) && t2.Now() == Next(w, t.Now(), a) && t.states <= t2.states
  {
    hide Shaped; hide Enabled; hide Next;
    NextShaped(w, t.Now(), a);
    var next := Next(w, t.Now(), a);
    t2 := Trace(t.states + [next], t.actions + [a]);
    forall k | 0 <= k < |t2.actions| ensures Goes(w, t2.states[k], t2.actions[k], t2.states[k + 1]) {
      if k < |t.actions| {
        assert t2.states[k] == t.states[k] && t2.states[k + 1] == t.states[k + 1];
      }
    }
  }

  /** All states a group has been in. */
  function History(group: Group): seq<GroupState> {
    group.past + [group.now]
  }

  /** The groups have only moved on, and no content has changed. */
  ghost predicate Later(sys: System, sys2: System) {
    && sys2.groups.Keys == sys.groups.Keys && sys2.store == sys.store
    && forall g :: g in sys.groups ==> History(sys.groups[g]) <= History(sys2.groups[g])
  }

  lemma LaterThrough(a: System, b: System, c: System)
    requires Later(a, b) && Later(b, c)
    ensures Later(a, c)
  {
  }

  lemma WasLater(group: Group, group2: Group)
    requires History(group) <= History(group2)
    ensures Was(group2, group.now)
  {
    var k := |group.past|;
    assert History(group2)[k] == group.now;
  }

  /** A message is sent. */
  lemma SendStep(w: World, t: Trace, a: Action) returns (t2: Trace)
    requires t.Valid(w) && Enabled(w, t.Now(), a) && !a.Append? && !a.AnswerDuplicate?
    ensures t2.Valid(w) && t2.Now() == Send(t.Now(), Sent(w, a)) && t.states <= t2.states && Later(t.Now(), t2.Now())
  {
    t2 := Extend(w, t, a);
    hide Shaped; hide Enabled; hide Steps; hide Sent;
  }

  /** A proposal other than an operation enters the group's log. */
  lemma AppendStep(w: World, t: Trace, g: nat, c: Command, order: seq<nat>) returns (t2: Trace)
    requires t.Valid(w) && g in t.Now().groups && Proposal(g, c) in t.Now().msgs && Applicable(c, order) && !c.Operation?
    ensures WellFormed(t.Now().groups[g].now)
    ensures t2.Valid(w) && t.states <= t2.states && Later(t.Now(), t2.Now())
    ensures t2.Now().groups == t.Now().groups[g := Grown(t.Now().groups[g], c, Apply(t.Now().groups[g].now, c, order).0)]
    ensures t2.Now() == t.Now().(groups := t2.Now().groups)
  {
    hide Applicable; hide Apply; hide Steps;
    t2 := Extend(w, t, Append(g, c, order));
  }

  /** A group with all shards Serving fetches the next configuration and applies it. */
  lemma AdoptNext(w: World, t: Trace, g: nat) returns (t2: Trace)
    requires t.Valid(w) && g in t.Now().groups && AllServing(t.Now().groups[g].now)
    requires var n := t.Now().groups[g].now.currentConfig.num;
             n + 1 < |w.cfgs| && w.cfgs[n + 1].num == n + 1 && |w.cfgs[n + 1].shards| == N_SHARDS
    ensures WellFormed(t.Now().groups[g].now)
    ensures t2.Valid(w) && g in t2.Now().groups && t2.Now().groups.Keys == t.Now().groups.Keys
    ensures forall h :: h in t.Now().groups && h != g ==> t2.Now().groups[h] == t.Now().groups[h]
    ensures t2.Now().groups[g].now
         == ApplyConfiguration(t.Now().groups[g].now, w.cfgs[t.Now().groups[g].now.currentConfig.num + 1]).0
    ensures t2.Now() == t.Now().(groups := t2.Now().groups, msgs := t2.Now().msgs)
    ensures t.states <= t2.states && Later(t.Now(), t2.Now())
  {
    var now := t.Now().groups[g].now;
    var c := Configuration(w.cfgs[now.currentConfig.num + 1]);
    hide Steps; hide AllServing; hide ApplyConfiguration;
    var t1 := Extend(w, t, FetchConfig(g, now));
    assert Proposal(g, c) in t1.Now().msgs;
    t2 := Extend(w, t1, Append(g, c, []));
  }
}
