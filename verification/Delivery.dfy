/** From the commit index to the service, inside one replica. */
module Delivery {
  import opened RaftTypes
  import opened RaftHandlers

  // The Raft applier copies a batch under the lock and pushes it without, while the service
  // may compact the log and snapshots may be installed. `chosen` is the committed log (entry
  // i + 1 at position i), the same for every replica by state machine safety.

  /** A batch being pushed: `pos` entries are through. */
  datatype Batch = Batch(entries: seq<Entry>, commit: nat, pos: nat)

  /** A snapshot stands for the entries whose effects it contains. */
  datatype Snapshot = Snapshot(index: nat, term: nat, taken: seq<Entry>)

  /**
    * `kvApplied` is the service's own lastApplied; `taken` are the entries that took effect
    * on its state, in order; `saved` are those behind the stored snapshot.
    */
  datatype Replica = Replica(
    logs: seq<Entry>, commitIndex: nat, lastApplied: nat,
    batch: Option<Batch>, waiting: set<Snapshot>,
    kvApplied: nat, taken: seq<Entry>, saved: seq<Entry>)

  datatype Action =
    | Rewrite(logs: seq<Entry>)
    | Commit(index: nat)
    | TakeBatch
    | Push
    | FinishBatch
    | Compact
    | Offer(snapshot: Snapshot)
    | Install(snapshot: Snapshot)
    | Crash

  ghost predicate Numbered(chosen: seq<Entry>) {
    forall i :: 0 <= i < |chosen| ==> chosen[i].index == i + 1
  }

  /** Position i of the log shows the committed entry of that index. */
  ghost predicate ShowsChosen(logs: seq<Entry>, chosen: seq<Entry>, index: nat)
    requires Contiguous(logs)
  {
    && logs[0].index <= index < logs[0].index + |logs| && index <= |chosen|
    && logs[1..index - logs[0].index + 1] == chosen[logs[0].index..index]
  }

  function Init(): Replica {
    Replica([DUMMY], 0, 0, None, {}, 0, [], [])
  }

  ghost predicate Enabled(chosen: seq<Entry>, r: Replica, a: Action)
    requires Contiguous(r.logs)
  {
    match a
    // what the other handlers may do to the log: nothing below the commit index
    case Rewrite(logs) =>
      && Contiguous(logs) && logs[0] == r.logs[0]
      && logs[0].index <= r.commitIndex < logs[0].index + |logs| && r.commitIndex < logs[0].index + |r.logs|
      && logs[..r.commitIndex - logs[0].index + 1] == r.logs[..r.commitIndex - logs[0].index + 1]
    case Commit(index) => r.commitIndex < index && ShowsChosen(r.logs, chosen, index)
    case TakeBatch => r.batch.None? && r.lastApplied < r.commitIndex
    case Push => r.batch.Some? && r.batch.value.pos < |r.batch.value.entries|
    case FinishBatch => r.batch.Some? && r.batch.value.pos == |r.batch.value.entries|
    case Compact => true
    case Offer(s) => s.index <= |chosen| && s.taken == chosen[..s.index] && s.index > r.commitIndex
    case Install(s) => s in r.waiting
    case Crash => true
  }

  /** The slice the applier copies is inside the array. */
  predicate Safe(r: Replica, a: Action)
    requires Contiguous(r.logs)
  {
    && (a.TakeBatch? ==> r.logs[0].index <= r.lastApplied && r.commitIndex < r.logs[0].index + |r.logs|)
    && (a.Compact? ==> r.kvApplied < r.logs[0].index + |r.logs|)
    && (a.Install? ==> r.logs[0].index <= r.commitIndex)
  }

  /** The service handles one message: entries it already has are skipped. */
  function Receive(r: Replica, entry: Entry): Replica {
    if entry.index <= r.kvApplied then r else r.(kvApplied := entry.index, taken := r.taken + [entry])
  }

  function Next(r: Replica, a: Action): Replica
    requires Contiguous(r.logs) && Safe(r, a)
    requires a.TakeBatch? ==> r.lastApplied < r.commitIndex
    requires a.Push? ==> r.batch.Some? && r.batch.value.pos < |r.batch.value.entries|
    requires a.FinishBatch? ==> r.batch.Some?
  {
    var first := r.logs[0].index;
    match a
    case Rewrite(logs) => r.(logs := logs)
    case Commit(index) => r.(commitIndex := index)
    case TakeBatch =>
      r.(batch := Some(Batch(r.logs[r.lastApplied + 1 - first..r.commitIndex + 1 - first], r.commitIndex, 0)))
    case Push =>
      var b := r.batch.value;
      Receive(r, b.entries[b.pos]).(batch := Some(b.(pos := b.pos + 1)))
    case FinishBatch =>
      r.(lastApplied := Max(r.lastApplied, r.batch.value.commit), batch := None)
    case Compact =>
      if r.kvApplied <= first then r
      else r.(logs := CutAt(r.logs, r.kvApplied, r.logs[r.kvApplied - first].term), saved := r.taken)
    case Offer(s) => r.(waiting := r.waiting + {s})
    case Install(s) =>
      var kept := r.(waiting := r.waiting - {s});
      if s.index <= r.commitIndex then kept
      else
        kept.(logs := if s.index >= first + |r.logs| then [Entry(s.index, s.term, NoCommand)] else CutAt(r.logs, s.index, s.term),
              lastApplied := s.index, commitIndex := s.index, saved := s.taken,
              kvApplied := s.index, taken := s.taken)
    case Crash =>
      Replica(r.logs, first, first, None, {}, 0, r.saved, r.saved)
  }

  // ----- The invariant -----

  /** The index of the next entry to push, or the one after everything applied. */
  function NextIndex(r: Replica): int {
    if r.batch.None? then r.lastApplied + 1
    else r.batch.value.commit + 1 - (|r.batch.value.entries| - r.batch.value.pos)
  }

  ghost predicate BatchOK(chosen: seq<Entry>, b: Batch) {
    && b.pos <= |b.entries| <= b.commit <= |chosen|
    && b.entries == chosen[b.commit - |b.entries|..b.commit]
  }

  /**
    * The entries that took effect are a prefix of the committed log. It ends before the
    * next entry to push, or an installed snapshot has overtaken the batch, and then the
    * service's index makes it skip the rest.
    */
  ghost predicate Inv(chosen: seq<Entry>, r: Replica) {
    && Contiguous(r.logs) && ShowsChosen(r.logs, chosen, r.commitIndex)
    && r.logs[0].index <= |r.taken| <= r.commitIndex
    && r.taken == chosen[..|r.taken|] && r.saved == chosen[..r.logs[0].index]
    && (r.kvApplied == |r.taken| || (r.kvApplied == 0 && |r.taken| == r.logs[0].index))
    && (r.batch.Some? ==> BatchOK(chosen, r.batch.value) && r.batch.value.commit <= r.commitIndex)
    && NextIndex(r) - 1 <= |r.taken|
    && r.lastApplied <= |r.taken|
    && (NextIndex(r) - 1 < |r.taken| ==> r.lastApplied == r.kvApplied == |r.taken|)
    && (forall s :: s in r.waiting ==> s.index <= |chosen| && s.taken == chosen[..s.index])
  }

  lemma InvIsSafe(chosen: seq<Entry>, r: Replica, a: Action)
    requires Inv(chosen, r) && Enabled(chosen, r, a)
    ensures Safe(r, a)
  {
  }

  lemma RewriteKeepsInv(chosen: seq<Entry>, r: Replica, logs: seq<Entry>)
    requires Numbered(chosen) && Inv(chosen, r) && Enabled(chosen, r, Rewrite(logs))
    ensures Inv(chosen, Next(r, Rewrite(logs)))
  {
    var n := r.commitIndex - r.logs[0].index + 1;
    assert logs[1..n] == logs[..n][1..] == r.logs[..n][1..] == r.logs[1..n];
  }

  /** What the applier copies is the stretch of the committed log after lastApplied. */
  lemma CopiedIsChosen(chosen: seq<Entry>, logs: seq<Entry>, first: nat, applied: nat, commit: nat)
    requires first <= applied <= commit <= |chosen| && commit - first < |logs|
    requires logs[1..commit - first + 1] == chosen[first..commit]
    ensures logs[applied + 1 - first..commit + 1 - first] == chosen[applied..commit]
  {
    assert logs[1..commit - first + 1][applied - first..] == logs[applied + 1 - first..commit + 1 - first];
    assert chosen[first..commit][applied - first..] == chosen[applied..commit];
  }

  lemma TakeBatchKeepsInv(chosen: seq<Entry>, r: Replica)
    requires Numbered(chosen) && Inv(chosen, r) && Enabled(chosen, r, TakeBatch)
    ensures Inv(chosen, Next(r, TakeBatch))
  {
    hide Numbered; hide Contiguous;
    InvIsSafe(chosen, r, TakeBatch);
    CopiedIsChosen(chosen, r.logs, r.logs[0].index, r.lastApplied, r.commitIndex);
  }

  lemma PushKeepsInv(chosen: seq<Entry>, r: Replica)
    requires Numbered(chosen) && Inv(chosen, r) && Enabled(chosen, r, Push)
    ensures Inv(chosen, Next(r, Push))
    ensures PushTakes(r, chosen)
  {
    hide Contiguous; hide ShowsChosen;
    var b := r.batch.value;
    var n := NextIndex(r);
    assert b.entries[b.pos] == chosen[n - 1];
    assert chosen[..n] == chosen[..n - 1] + [chosen[n - 1]];
  }

  /** A push takes effect exactly when it carries the next index, and is skipped otherwise. */
  ghost predicate PushTakes(r: Replica, chosen: seq<Entry>)
    requires r.batch.Some? && r.batch.value.pos < |r.batch.value.entries|
  {
    var entry := r.batch.value.entries[r.batch.value.pos];
    var after := Receive(r, entry);
    if entry.index == |r.taken| + 1 then after.taken == r.taken + [entry]
    else entry.index <= |r.taken| && after.taken == r.taken
  }

  lemma CutShows(chosen: seq<Entry>, logs: seq<Entry>, index: nat, commit: nat, term: nat)
    requires Contiguous(logs) && ShowsChosen(logs, chosen, commit) && logs[0].index <= index <= commit
    ensures Contiguous(CutAt(logs, index, term)) && ShowsChosen(CutAt(logs, index, term), chosen, commit)
  {
    CutFacts(logs, index, term);
    var cut := CutAt(logs, index, term);
    var first := logs[0].index;
    assert cut[1..commit - index + 1] == logs[1..commit - first + 1][index - first..];
    assert chosen[index..commit] == chosen[first..commit][index - first..];
  }

  lemma CompactKeepsInv(chosen: seq<Entry>, r: Replica)
    requires Numbered(chosen) && Inv(chosen, r)
    ensures Safe(r, Compact) && Inv(chosen, Next(r, Compact))
  {
    var first := r.logs[0].index;
    if r.kvApplied > first {
      assert r.kvApplied < first + |r.logs|;
      CutShows(chosen, r.logs, r.kvApplied, r.commitIndex, r.logs[r.kvApplied - first].term);
    }
  }

  lemma InstallKeepsInv(chosen: seq<Entry>, r: Replica, s: Snapshot)
    requires Numbered(chosen) && Inv(chosen, r) && s in r.waiting
    ensures Safe(r, Install(s)) && Inv(chosen, Next(r, Install(s)))
  {
    var first := r.logs[0].index;
    if s.index > r.commitIndex {
      var logs := Next(r, Install(s)).logs;
      assert Contiguous(logs) by {
        if s.index < first + |r.logs| { CutFacts(r.logs, s.index, s.term); }
      }
      assert logs[1..1] == chosen[s.index..s.index];
    }
  }

  lemma InitInv(chosen: seq<Entry>)
    ensures Inv(chosen, Init())
  {
    assert Init().logs[1..1] == chosen[0..0];
    assert chosen[..0] == [];
  }

  lemma NextKeepsInv(chosen: seq<Entry>, r: Replica, a: Action)
    requires Numbered(chosen) && Inv(chosen, r) && Enabled(chosen, r, a)
    ensures Safe(r, a) && Inv(chosen, Next(r, a))
  {
    InvIsSafe(chosen, r, a);
    match a
    case Rewrite(logs) => RewriteKeepsInv(chosen, r, logs);
    case Commit(index) =>
    case TakeBatch => TakeBatchKeepsInv(chosen, r);
    case Push => PushKeepsInv(chosen, r);
    case FinishBatch =>
    case Compact => CompactKeepsInv(chosen, r);
    case Offer(s) =>
    case Install(s) => InstallKeepsInv(chosen, r, s);
    case Crash => CrashKeepsInv(chosen, r);
  }

  lemma CrashKeepsInv(chosen: seq<Entry>, r: Replica)
    requires Numbered(chosen) && Inv(chosen, r)
    ensures Inv(chosen, Next(r, Crash))
  {
    var first := r.logs[0].index;
    assert r.logs[1..1] == chosen[first..first];
  }

  // ----- All runs -----

  ghost predicate Goes(chosen: seq<Entry>, r: Replica, a: Action, r2: Replica) {
    Contiguous(r.logs) && Enabled(chosen, r, a) && Safe(r, a) && r2 == Next(r, a)
  }

  ghost predicate Run(chosen: seq<Entry>, states: seq<Replica>, actions: seq<Action>) {
    && Numbered(chosen) && |states| == |actions| + 1 && states[0] == Init()
    && forall k :: 0 <= k < |actions| ==> Goes(chosen, states[k], actions[k], states[k + 1])
  }

  lemma {:induction false} RunInv(chosen: seq<Entry>, states: seq<Replica>, actions: seq<Action>, k: nat)
    requires Run(chosen, states, actions) && k < |states|
    ensures Inv(chosen, states[k])
    decreases k
  {
    hide Inv;
    if k == 0 {
      InitInv(chosen);
    } else {
      RunInv(chosen, states, actions, k - 1);
      assert Goes(chosen, states[k - 1], actions[k - 1], states[k]);
      NextKeepsInv(chosen, states[k - 1], actions[k - 1]);
    }
  }

  /** What took effect is always a prefix of the committed log, each index once and in order. */
  lemma TakenIsCommittedPrefix(chosen: seq<Entry>, states: seq<Replica>, actions: seq<Action>, k: nat)
    requires Run(chosen, states, actions) && k < |states|
    ensures |states[k].taken| <= states[k].commitIndex <= |chosen|
    ensures states[k].taken == chosen[..|states[k].taken|]
  {
    RunInv(chosen, states, actions, k);
  }

  /**
    * No gap, repeat or rollback: apart from a crash, a step leaves what took effect alone,
    * adds the entry of the very next index, or jumps ahead with an installed snapshot.
    */
  lemma StepsTakeNext(chosen: seq<Entry>, states: seq<Replica>, actions: seq<Action>, k: nat)
    requires Run(chosen, states, actions) && k < |actions| && actions[k] != Crash
    ensures var was, now := states[k].taken, states[k + 1].taken;
            || now == was
            || (actions[k] == Push && |now| == |was| + 1 && now[..|was|] == was && now[|was|].index == |was| + 1)
            || (actions[k].Install? && |was| < |now| == actions[k].snapshot.index)
  {
    RunInv(chosen, states, actions, k);
    assert Goes(chosen, states[k], actions[k], states[k + 1]);
    if actions[k] == Push {
      PushKeepsInv(chosen, states[k]);
    }
  }

  /** At the applier's loop head: first index <= lastApplied <= commitIndex <= last index. */
  lemma LoopHead(chosen: seq<Entry>, states: seq<Replica>, actions: seq<Action>, k: nat)
    requires Run(chosen, states, actions) && k < |states| && states[k].batch == None
    ensures var r := states[k];
            && Contiguous(r.logs)
            && r.logs[0].index <= r.lastApplied <= r.commitIndex <= r.logs[|r.logs| - 1].index
            && r.lastApplied == |r.taken|
  {
    RunInv(chosen, states, actions, k);
  }

  /** The slice the applier copies never runs off the array, in no reachable state. */
  lemma SliceIsSafe(chosen: seq<Entry>, states: seq<Replica>, actions: seq<Action>, k: nat, a: Action)
    requires Run(chosen, states, actions) && k < |states|
    ensures Contiguous(states[k].logs)
    ensures Enabled(chosen, states[k], a) ==> Safe(states[k], a)
  {
    RunInv(chosen, states, actions, k);
  }

  // ----- Everything committed does get through -----

  lemma RunOn(chosen: seq<Entry>, states: seq<Replica>, actions: seq<Action>, a: Action) returns (states2: seq<Replica>)
    requires Run(chosen, states, actions) && |states| > 0
    requires Contiguous(states[|states| - 1].logs) && Enabled(chosen, states[|states| - 1], a)
    ensures Safe(states[|states| - 1], a) && states2 == states + [Next(states[|states| - 1], a)]
    ensures Run(chosen, states2, actions + [a])
  {
    hide Inv; hide Next; hide Safe; hide Contiguous; hide Numbered; hide ShowsChosen;
    RunInv(chosen, states, actions, |states| - 1);
    NextKeepsInv(chosen, states[|states| - 1], a);
    states2 := states + [Next(states[|states| - 1], a)];
    var actions2 := actions + [a];
    forall k | 0 <= k < |actions2| ensures Goes(chosen, states2[k], actions2[k], states2[k + 1]) {
      if k < |actions| {
        assert Goes(chosen, states[k], actions[k], states[k + 1]);
        assert states2[k] == states[k] && states2[k + 1] == states[k + 1] && actions2[k] == actions[k];
      }
    }
  }

  lemma LastInv(chosen: seq<Entry>, states: seq<Replica>, actions: seq<Action>)
    requires Run(chosen, states, actions)
    ensures |states| > 0 && Inv(chosen, states[|states| - 1]) && Contiguous(states[|states| - 1].logs)
  {
    RunInv(chosen, states, actions, |states| - 1);
    hide Run;
  }

  /** The batch under way is pushed to its end. */
  lemma {:induction false} PushOut(chosen: seq<Entry>, states: seq<Replica>, actions: seq<Action>)
    returns (states2: seq<Replica>, actions2: seq<Action>)
    requires Run(chosen, states, actions) && |states| > 0 && states[|states| - 1].batch.Some?
    requires states[|states| - 1].batch.value.pos <= |states[|states| - 1].batch.value.entries|
    ensures Run(chosen, states2, actions2) && states <= states2 && |states2| > 0
    ensures var r, r2 := states[|states| - 1], states2[|states2| - 1];
            r2.batch.None? && r2.commitIndex == r.commitIndex && r2.lastApplied == Max(r.lastApplied, r.batch.value.commit)
    decreases |states[|states| - 1].batch.value.entries| - states[|states| - 1].batch.value.pos
  {
    hide Run; hide Inv; hide Contiguous;
    LastInv(chosen, states, actions);
    var r := states[|states| - 1];
    if r.batch.value.pos == |r.batch.value.entries| {
      states2 := RunOn(chosen, states, actions, FinishBatch);
      actions2 := actions + [FinishBatch];
    } else {
      var states1 := RunOn(chosen, states, actions, Push);
      states2, actions2 := PushOut(chosen, states1, actions + [Push]);
    }
  }

  lemma BatchBound(chosen: seq<Entry>, r: Replica)
    requires Inv(chosen, r)
    ensures r.batch.Some? ==> r.batch.value.pos <= |r.batch.value.entries| && r.batch.value.commit <= r.commitIndex
    ensures r.batch.None? && r.lastApplied >= r.commitIndex ==> |r.taken| == r.lastApplied == r.commitIndex
    ensures r.lastApplied <= r.commitIndex
  {
  }

  /**
    * From every reachable state of a replica the applier can bring everything committed to the
    * service: then what took effect is the committed log up to the commit index.
    */
  lemma AllGetsThrough(chosen: seq<Entry>, states: seq<Replica>, actions: seq<Action>)
    returns (states2: seq<Replica>, actions2: seq<Action>)
    requires Run(chosen, states, actions) && |states| > 0
    ensures Run(chosen, states2, actions2) && states <= states2 && |states2| > 0
    ensures var r, r2 := states[|states| - 1], states2[|states2| - 1];
            && r2.commitIndex == r.commitIndex <= |chosen| && r2.batch.None?
            && r2.lastApplied == r.commitIndex && r2.taken == chosen[..r.commitIndex]
  {
    hide Run; hide Inv; hide Contiguous; hide Next;
    states2, actions2 := states, actions;
    LastInv(chosen, states, actions);
    BatchBound(chosen, states[|states| - 1]);
    if states[|states| - 1].batch.Some? {
      states2, actions2 := PushOut(chosen, states, actions);
    }
    LastInv(chosen, states2, actions2);
    BatchBound(chosen, states2[|states2| - 1]);
    if states2[|states2| - 1].lastApplied < states2[|states2| - 1].commitIndex {
      var states1 := RunOn(chosen, states2, actions2, TakeBatch);
      var actions1 := actions2 + [TakeBatch];
      Taken(chosen, states2[|states2| - 1]);
      LastInv(chosen, states1, actions1);
      BatchBound(chosen, states1[|states1| - 1]);
      states2, actions2 := PushOut(chosen, states1, actions1);
      LastInv(chosen, states2, actions2);
      BatchBound(chosen, states2[|states2| - 1]);
    }
    TakenIsCommittedPrefix(chosen, states2, actions2, |states2| - 1);
  }

  lemma Taken(chosen: seq<Entry>, r: Replica)
    requires Contiguous(r.logs) && Enabled(chosen, r, TakeBatch) && Safe(r, TakeBatch)
    ensures var r2 := Next(r, TakeBatch);
            r2.batch.Some? && r2.batch.value.commit == r.commitIndex && r2.commitIndex == r.commitIndex && r2.lastApplied == r.lastApplied
  {
  }
}
