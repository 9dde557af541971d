/** Whose data a snapshot holds, wherever it is stored or on its way. */
module RaftSnapshots {
  import opened RaftTypes
  import opened RaftHandlers
  import opened RaftHistory
  import opened RaftHistorySteps
  import opened RaftCluster
  import opened RaftInvariant
  import opened RaftElectionSteps
  import opened RaftSafety
  import opened CommittedLog
  import opened MajorityIndex

  // ----- One step -----

  lemma ElectionKeepsSnapshot(n: Node, from: nat, vote: VoteRequest, voted: VoteResponse)
    requires |n.logs| > 0
    ensures Timeout(n).0.snapshot == n.snapshot && RequestVote(n, vote).0.snapshot == n.snapshot
    ensures HandleVoteReply(n, from, vote, voted).snapshot == n.snapshot
  {
    hide UpToDate;
  }

  lemma RequestKeepsSnapshot(n: Node, append: AppendRequest)
    requires n.Valid() && Continues(append)
    ensures AppendEntries(n, append).0.snapshot == n.snapshot
  {
    hide Continues; hide Reconcile; hide Rejection; hide MatchLog;
  }

  lemma ReplyKeepsSnapshot(n: Node, peer: nat, append: AppendRequest, appended: AppendResponse)
    requires n.Valid() && peer < n.peers
    requires n.role == Leader && n.currentTerm == append.term ==> append.prevLogIndex <= n.Last().index
    ensures HandleAppendReply(n, peer, append, appended).snapshot == n.snapshot
  {
    hide BackOff; hide MatchLog;
  }

  /** Handlers other than the two that store a snapshot leave it alone. */
  lemma HandlerKeepsSnapshot(s: Cluster, a: Action, b: nat)
    requires Shaped(s) && Enabled(s, a) && Safe(s, a) && b < |s.nodes|
    requires !a.Compact? && !a.Install?
    ensures b < |Next(s, a).nodes| && Next(s, a).nodes[b].snapshot == s.nodes[b].snapshot
  {
    hide Continues; hide HistoryAfterAppend; hide FullAfterAppend; hide Observe; hide Vote; hide Elect;
    hide Stand; hide Extend; hide Acknowledge; hide Commits; hide AppendRequestFor; hide Contiguous;
    hide Timeout; hide RequestVote; hide HandleVoteReply; hide AppendEntries; hide HandleAppendReply;
    var n := s.nodes[a.i];
    assert n.Valid();
    LogsThere(n);
    match a
    case Expire(i) => ElectionKeepsSnapshot(n, 0, VoteRequest(0, 0, 0, 0), VoteResponse(0, false));
    case AnswerVote(i, m) => ElectionKeepsSnapshot(n, 0, m.vote, VoteResponse(0, false));
    case CountVote(i, m) => ElectionKeepsSnapshot(n, m.from, m.vote, m.voted);
    case AnswerAppend(i, m) => RequestKeepsSnapshot(n, m.append);
    case CountAppend(i, m) => ReplyKeepsSnapshot(n, m.from, m.append, m.appended);
    case _ =>
  }

  /** Compacting above the dummy stores the data with the cut log; at or below it nothing happens. */
  lemma CompactStores(s: Cluster, i: nat, index: nat, data: string)
    requires Shaped(s) && Enabled(s, Compact(i, index, data))
    ensures |s.nodes[i].logs| > 0 && i < |Next(s, Compact(i, index, data)).nodes|
    ensures var n, n2 := s.nodes[i], Next(s, Compact(i, index, data)).nodes[i];
            if index <= n.First() then n2 == n
            else
              && |n2.logs| > 0 && n2.First() == index && n2.snapshot == data && n2.Last().index == n.Last().index
              && n2.saved == Some(Saved(n2.currentTerm, n2.votedFor, n2.logs))
              && n2.commitIndex == n.commitIndex && n2.currentTerm == n.currentTerm
              && forall p :: index < p <= n.Last().index ==> Holds(n, p) && Holds(n2, p) && EntryAt(n2, p) == EntryAt(n, p)
  {
    hide Commits;
    var n := s.nodes[i];
    assert n.Valid();
    if index > n.First() { CutFacts(n.logs, index, n.logs[index - n.First()].term); }
  }

  /**
    * A snapshot above the commit index replaces what it covers: dummy, both indexes and stored
    * data are its own, and the log goes on behind it exactly if it reached so far. Any other is refused.
    */
  lemma InstallStores(s: Cluster, i: nat, m: Message)
    requires Shaped(s) && Enabled(s, Install(i, m))
    ensures |s.nodes[i].logs| > 0 && i < |Next(s, Install(i, m)).nodes|
    ensures var n, n2, p := s.nodes[i], Next(s, Install(i, m)).nodes[i], m.ready;
            if p.index <= n.commitIndex then n2 == n
            else
              && |n2.logs| > 0 && n2.First() == n2.commitIndex == n2.lastApplied == p.index
              && n2.logs[0].term == p.term && n2.snapshot == p.data && n2.currentTerm == n.currentTerm
              && n2.saved == Some(Saved(n2.currentTerm, n2.votedFor, n2.logs))
              && n2.Last().index == Max(p.index, n.Last().index)
              && forall q :: p.index < q <= n.Last().index ==> Holds(n, q) && Holds(n2, q) && EntryAt(n2, q) == EntryAt(n, q)
  {
    hide Commits; hide FullAfterInstall;
    var n, p := s.nodes[i], m.ready;
    assert n.Valid();
    if n.commitIndex < p.index <= n.Last().index { CutFacts(n.logs, p.index, p.term); }
  }

  /** A leader whose log starts above a peer's next index offers its dummy and its stored data, else all its later entries. */
  lemma RoundSends(s: Cluster, i: nat, peer: nat)
    requires Shaped(s) && Enabled(s, Replicate(i, peer)) && Safe(s, Replicate(i, peer))
    ensures var n, s2, prev := s.nodes[i], Next(s, Replicate(i, peer)), s.nodes[i].nextIndex[peer] - 1;
            && |n.logs| > 0 && s2.nodes == s.nodes
            && if prev < n.First() then
                 s2.msgs == s.msgs + {InstallAsk(peer, InstallRequest(n.currentTerm, i, n.First(), n.logs[0].term, n.snapshot))}
               else
                 prev - n.First() < |n.logs| &&
                 s2.msgs == s.msgs + {AppendAsk(peer, AppendRequest(n.currentTerm, i, prev, n.logs[prev - n.First()].term,
                                                                     n.commitIndex, n.logs[prev - n.First() + 1..]))}
  {
    hide Commits;
    assert s.nodes[i].Valid();
    assert s.nodes[i := s.nodes[i]] == s.nodes;
  }

  /** The service is handed a snapshot if and only if its sender's term is current and it goes beyond the commit index. */
  lemma OffersExactly(s: Cluster, i: nat, m: Message)
    requires Shaped(s) && Enabled(s, AnswerInstall(i, m))
    ensures var n, s2, r := s.nodes[i], Next(s, AnswerInstall(i, m)), m.install;
            s2.msgs == s.msgs + {InstallAnswer(i, r, InstallResponse(n.currentTerm))}
                       + if r.term >= n.currentTerm && r.lastIncludedIndex > n.commitIndex
                         then {SnapshotReady(i, r.term, SnapshotMsg(r.lastIncludedIndex, r.lastIncludedTerm, r.data))} else {}
  {
    hide Commits; hide Observe;
  }

  // ----- All runs -----

  /** One of the first k steps compacted some node at this index with this data. */
  ghost predicate Given(actions: seq<Action>, k: nat, index: nat, data: string) {
    exists a :: 0 <= a < k && a < |actions| && Compacts(actions[a], index, data)
  }

  predicate Compacts(a: Action, index: nat, data: string) {
    a.Compact? && a.index == index && a.data == data
  }

  ghost predicate StoredIsGiven(actions: seq<Action>, k: nat, n: Node) {
    |n.logs| > 0 && (n.First() > 0 ==> Given(actions, k, n.First(), n.snapshot))
  }

  ghost predicate SentIsGiven(actions: seq<Action>, k: nat, m: Message) {
    match m
    case InstallAsk(_, r) => r.lastIncludedIndex > 0 ==> Given(actions, k, r.lastIncludedIndex, r.data)
    case SnapshotReady(_, _, p) => p.index > 0 && Given(actions, k, p.index, p.data)
    case _ => true
  }

  ghost predicate AllGiven(actions: seq<Action>, k: nat, s: Cluster) {
    && (forall b :: 0 <= b < |s.nodes| ==> StoredIsGiven(actions, k, s.nodes[b]))
    && forall m :: m in s.msgs ==> SentIsGiven(actions, k, m)
  }

  lemma GivenLater(actions: seq<Action>, k: nat, s: Cluster)
    requires AllGiven(actions, k, s)
    ensures AllGiven(actions, k + 1, s)
  {
    forall index, data | Given(actions, k, index, data) ensures Given(actions, k + 1, index, data) {
      var a :| 0 <= a < k && a < |actions| && Compacts(actions[a], index, data);
    }
  }

  lemma DummyStays(s: Cluster, a: Action, b: nat)
    requires Inv(s) && Shaped(s) && Enabled(s, a) && Safe(s, a) && b < |s.nodes| && !a.Compact? && !a.Install?
    ensures b < |Next(s, a).nodes| && |s.nodes[b].logs| > 0 && |Next(s, a).nodes[b].logs| > 0
    ensures Next(s, a).nodes[b].First() == s.nodes[b].First() && Next(s, a).nodes[b].snapshot == s.nodes[b].snapshot
  {
    HandlerKeepsSnapshot(s, a, b);
    if a.Crash? {
      NodeAt(s, b);
      DurableAt(s.h, b, s.nodes[b], s.full[b]);
      hide Inv; hide NodeOK; hide HistoryOK; hide Commits;
    } else {
      hide Inv; hide Next;
      HandlerKeeps(s, a, b);
    }
  }

  lemma StoredKept(s: Cluster, a: Action, actions: seq<Action>, k: nat, b: nat)
    requires Inv(s) && Shaped(s) && Enabled(s, a) && Safe(s, a) && b < |s.nodes|
    requires k < |actions| && actions[k] == a && AllGiven(actions, k, s)
    ensures b < |Next(s, a).nodes| && StoredIsGiven(actions, k + 1, Next(s, a).nodes[b])
  {
    GivenLater(actions, k, s);
    if (a.Compact? || a.Install?) && a.i == b {
      hide Inv; hide Shaped; hide Given; hide EntryAt; hide Holds;
      if a.Compact? {
        CompactStores(s, b, a.index, a.data);
        StepGives(actions, k);
      } else {
        InstallStores(s, b, a.m);
        assert SentIsGiven(actions, k + 1, a.m);
      }
    } else if a.Compact? || a.Install? {
      assert Next(s, a).nodes[b] == s.nodes[b] by { hide Inv; hide Given; hide Commits; }
    } else {
      hide Next; hide Given; hide Inv;
      DummyStays(s, a, b);
    }
  }

  lemma StepGives(actions: seq<Action>, k: nat)
    requires k < |actions| && actions[k].Compact?
    ensures Given(actions, k + 1, actions[k].index, actions[k].data)
  {
    assert Compacts(actions[k], actions[k].index, actions[k].data);
  }

  lemma SentKept(s: Cluster, a: Action, actions: seq<Action>, k: nat, m: Message)
    requires Shaped(s) && Enabled(s, a) && Safe(s, a) && m in Next(s, a).msgs
    requires AllGiven(actions, k, s)
    ensures SentIsGiven(actions, k + 1, m)
  {
    GivenLater(actions, k, s);
    if m !in s.msgs {
      if a.Replicate? {
        RoundSends(s, a.i, a.peer);
        assert StoredIsGiven(actions, k + 1, s.nodes[a.i]);
      } else if a.AnswerInstall? {
        OffersExactly(s, a.i, a.m);
        assert SentIsGiven(actions, k + 1, a.m);
      } else {
        hide Given; hide Shaped;
        OthersSendNone(s, a, m);
      }
    }
  }

  lemma OthersSendNone(s: Cluster, a: Action, m: Message)
    requires Shaped(s) && Enabled(s, a) && Safe(s, a) && m in Next(s, a).msgs && m !in s.msgs
    requires !a.Replicate? && !a.AnswerInstall?
    ensures !m.InstallAsk? && !m.SnapshotReady?
  {
    hide Commits; hide Contiguous; hide Continues; hide HistoryAfterAppend; hide FullAfterAppend; hide FullAfterInstall;
    hide Timeout; hide RequestVote; hide HandleVoteReply; hide AppendEntries; hide HandleAppendReply; hide Start;
    hide HandleInstallReply; hide CondInstallSnapshot; hide Snapshot; hide Restart; hide Observe; hide Vote; hide Elect;
    hide Stand; hide Extend; hide Acknowledge;
  }

  lemma NodesStay(s: Cluster, a: Action)
    requires Shaped(s) && Enabled(s, a) && Safe(s, a)
    ensures |Next(s, a).nodes| == |s.nodes|
  {
    hide Commits; hide Contiguous; hide Continues; hide HistoryAfterAppend; hide FullAfterAppend; hide FullAfterInstall;
    hide Timeout; hide RequestVote; hide HandleVoteReply; hide AppendEntries; hide HandleAppendReply; hide Start;
    hide HandleInstallReply; hide CondInstallSnapshot; hide InstallSnapshot; hide Snapshot; hide Restart; hide Observe;
    hide Vote; hide Elect; hide Stand; hide Extend; hide Acknowledge; hide AppendRequestFor; hide InstallRequestFor;
  }

  lemma GivenStep(s: Cluster, a: Action, actions: seq<Action>, k: nat)
    requires Inv(s) && Shaped(s) && Enabled(s, a) && Safe(s, a)
    requires k < |actions| && actions[k] == a && AllGiven(actions, k, s)
    ensures AllGiven(actions, k + 1, Next(s, a))
  {
    hide Inv; hide Next; hide Shaped; hide StoredIsGiven; hide SentIsGiven; hide Enabled; hide Safe;
    NodesStay(s, a);
    forall b | 0 <= b < |Next(s, a).nodes| ensures StoredIsGiven(actions, k + 1, Next(s, a).nodes[b]) {
      StoredKept(s, a, actions, k, b);
    }
    forall m | m in Next(s, a).msgs ensures SentIsGiven(actions, k + 1, m) {
      SentKept(s, a, actions, k, m);
    }
  }

  lemma NothingGiven(size: nat, actions: seq<Action>)
    ensures AllGiven(actions, 0, Init(size))
  {
  }

  /**
    * In every run: what a node above index 0 stores, what a snapshot request carries and what
    * is handed to a service is the data some earlier compaction at exactly that index was given.
    */
  lemma {:induction false} SnapshotsAreGiven(size: nat, states: seq<Cluster>, actions: seq<Action>, k: nat)
    requires Run(size, states, actions) && k < |states|
    ensures AllGiven(actions, k, states[k])
    decreases k
  {
    hide Inv; hide AllGiven; hide Next; hide Init;
    if k == 0 {
      NothingGiven(size, actions);
    } else {
      SnapshotsAreGiven(size, states, actions, k - 1);
      RunInv(size, states, actions, k - 1);
      assert Goes(states[k - 1], actions[k - 1], states[k]);
      GivenStep(states[k - 1], actions[k - 1], actions, k - 1);
    }
  }

  /**
    * So if every compaction is given the image of the committed entries up to its index, then
    * every stored snapshot and every one handed to a service is the image of the entries it replaces.
    */
  lemma SnapshotsStandForCommitted(size: nat, states: seq<Cluster>, actions: seq<Action>, chosen: seq<Entry>,
                                   image: seq<Entry> -> string, k: nat)
    requires Run(size, states, actions) && ShownByAll(states, chosen) && k < |states|
    requires forall a :: 0 <= a < |actions| && actions[a].Compact? && actions[a].index <= |chosen| ==>
               actions[a].data == image(chosen[..actions[a].index])
    ensures forall b :: 0 <= b < |states[k].nodes| ==>
              var n := states[k].nodes[b];
              |n.logs| > 0 && n.First() <= |chosen| && (n.First() > 0 ==> n.snapshot == image(chosen[..n.First()]))
    ensures forall m :: m in states[k].msgs && m.SnapshotReady? ==>
              m.ready.index <= |chosen| && m.ready.data == image(chosen[..m.ready.index])
  {
    SnapshotsAreGiven(size, states, actions, k);
    hide Run; hide Contiguous;
    forall b | 0 <= b < |states[k].nodes|
      ensures var n := states[k].nodes[b];
              |n.logs| > 0 && n.First() <= |chosen| && (n.First() > 0 ==> n.snapshot == image(chosen[..n.First()]))
    {
      assert ShownBy(states[k].nodes[b], chosen);
      assert StoredIsGiven(actions, k, states[k].nodes[b]);
    }
    forall m | m in states[k].msgs && m.SnapshotReady?
      ensures m.ready.index <= |chosen| && m.ready.data == image(chosen[..m.ready.index])
    {
      OfferedIsCommitted(size, states, actions, chosen, k, m);
      assert SentIsGiven(actions, k, m);
    }
  }
}
