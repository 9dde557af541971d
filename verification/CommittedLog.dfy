/**
  * One committed log for the whole cluster and the whole run: what every node shows at or
  * below its commit index, at any moment, is a stretch of it. Delivery starts from this.
  */
module CommittedLog {
  import opened RaftTypes
  import opened RaftHandlers
  import opened RaftHistorySteps
  import opened MajorityIndex
  import opened RaftHistory
  import opened RaftCluster
  import opened RaftInvariant
  import opened RaftSafety
  import opened RaftElectionSteps
  import Delivery

  /** The node's committed window lies on the log of the leader of t, below position p it got chosen. */
  ghost predicate LiesOn(h: History, n: Node, t: nat, p: nat) {
    && t in h.tl && Chosen(h, t, p) && n.commitIndex <= p < |h.tl[t]|
    && Contiguous(n.logs) && n.First() <= n.commitIndex < n.First() + |n.logs|
    && n.logs[1..n.commitIndex - n.First() + 1] == h.tl[t][n.First() + 1..n.commitIndex + 1]
  }

  lemma WindowLies(s: Cluster, a: nat) returns (t: nat, p: nat)
    requires Inv(s) && a < |s.nodes| && s.nodes[a].commitIndex > 0
    ensures LiesOn(s.h, s.nodes[a], t, p)
  {
    hide HistoryOK; hide Inv; hide LogOK; hide ConfirmPart; hide RolePart; hide VotePart; hide TermsUpTo;
    ShapedAt(s);
    NodeAt(s, a);
    var n, full := s.nodes[a], s.full[a];
    t, p :| CommittedVia(s.h, n.logs, full, n.commitIndex, n.currentTerm, t, p);
    var first, shown := n.First(), n.logs[1..n.commitIndex - n.First() + 1];
    if Anchored(n.logs, full) {
      AgreeSlice(full, s.h.tl[t], n.commitIndex, first);
      forall k | 0 <= k < |shown| ensures shown[k] == full[first + 1..n.commitIndex + 1][k] {
        assert n.logs[1 + k] == full[first + 1 + k];
      }
    }
  }

  lemma AgreeSlice(a: seq<Entry>, b: seq<Entry>, k: nat, from: nat)
    requires Agree(a, b, k) && from <= k
    ensures a[from + 1..k + 1] == b[from + 1..k + 1]
  {
    assert a[from + 1..k + 1] == a[..k + 1][from + 1..];
    assert b[from + 1..k + 1] == b[..k + 1][from + 1..];
  }

  lemma LiesLater(h: History, h2: History, n: Node, t: nat, p: nat)
    requires Grows(h, h2) && LiesOn(h, n, t, p)
    ensures LiesOn(h2, n, t, p)
  {
    ChosenGrows(h, h2, t, p);
    AgreePrefix(h.tl[t], h2.tl[t], p);
    AgreeShorter(h.tl[t], h2.tl[t], p, n.commitIndex);
    AgreeSlice(h.tl[t], h2.tl[t], n.commitIndex, n.First());
  }

  /** ... and on the log of any other leader that got an entry at or above it chosen. */
  lemma LiesOnOther(h: History, n: Node, t: nat, p: nat, u: nat, q: nat)
    requires HistoryOK(h) && LiesOn(h, n, t, p) && Chosen(h, u, q) && q >= n.commitIndex
    ensures LiesOn(h, n, u, q)
  {
    hide HistoryOK;
    ChosenAgree(h, t, p, u, q, n.commitIndex);
    AgreeSlice(h.tl[t], h.tl[u], n.commitIndex, n.First());
  }

  /** One more node: keep the higher of two chosen positions. */
  lemma Raise(h: History, n: Node, t: nat, p: nat, some: bool, u: nat, q: nat) returns (t2: nat, p2: nat)
    requires HistoryOK(h) && LiesOn(h, n, t, p) && (some ==> Chosen(h, u, q))
    ensures Chosen(h, t2, p2) && LiesOn(h, n, t2, p2) && p2 >= p && (some ==> p2 >= q)
  {
    if some && q >= p {
      LiesOnOther(h, n, t, p, u, q);
      t2, p2 := u, q;
    } else {
      t2, p2 := t, p;
    }
  }

  lemma StillLies(h: History, n: Node, t: nat, p: nat, t2: nat, p2: nat)
    requires HistoryOK(h) && LiesOn(h, n, t, p) && Chosen(h, t2, p2) && p2 >= p
    ensures LiesOn(h, n, t2, p2)
  {
    hide HistoryOK; hide Chosen;
    LiesOnOther(h, n, t, p, t2, p2);
  }

  /** The first b nodes of s lie on the log chosen at (t, p), if one is known. */
  ghost predicate NodesLie(h: History, s: Cluster, b: nat, some: bool, t: nat, p: nat) {
    forall a :: 0 <= a < b && a < |s.nodes| && s.nodes[a].commitIndex > 0 ==> some && LiesOn(h, s.nodes[a], t, p)
  }

  lemma NodesStillLie(h: History, s: Cluster, b: nat, some: bool, t: nat, p: nat, t2: nat, p2: nat)
    requires HistoryOK(h) && NodesLie(h, s, b, some, t, p) && Chosen(h, t2, p2) && (some ==> p2 >= p)
    ensures NodesLie(h, s, b, true, t2, p2)
  {
    hide HistoryOK; hide LiesOn; hide Chosen;
    forall a | 0 <= a < b && a < |s.nodes| && s.nodes[a].commitIndex > 0 ensures LiesOn(h, s.nodes[a], t2, p2) {
      StillLies(h, s.nodes[a], t, p, t2, p2);
    }
  }

  /** Raise a chosen position above the commit indexes of the first b nodes of one state. */
  lemma HighestOfState(s: Cluster, h: History, b: nat, some: bool, t: nat, p: nat) returns (some2: bool, t2: nat, p2: nat)
    requires Inv(s) && Grows(s.h, h) && HistoryOK(h) && b <= |s.nodes| && (some ==> Chosen(h, t, p))
    ensures (some2 ==> Chosen(h, t2, p2)) && (some ==> some2 && p2 >= p) && (!some2 ==> !some)
    ensures NodesLie(h, s, b, some2, t2, p2)
    decreases b
  {
    hide Inv; hide HistoryOK; hide LiesOn; hide Chosen; hide Grows;
    some2, t2, p2 := some, t, p;
    if b > 0 {
      some2, t2, p2 := HighestOfState(s, h, b - 1, some, t, p);
      var n := s.nodes[b - 1];
      if n.commitIndex > 0 {
        var u, q := WindowLies(s, b - 1);
        LiesLater(s.h, h, n, u, q);
        var t3, p3 := Raise(h, n, u, q, some2, t2, p2);
        NodesStillLie(h, s, b - 1, some2, t2, p2, t3, p3);
        some2, t2, p2 := true, t3, p3;
      }
    }
  }

  ghost predicate StatesLie(h: History, states: seq<Cluster>, k: nat, some: bool, t: nat, p: nat) {
    forall j :: 0 <= j < k && j < |states| ==> NodesLie(h, states[j], |states[j].nodes|, some, t, p)
  }

  /** A position chosen at or above every commit index of the first k states, if there is any. */
  lemma Highest(size: nat, states: seq<Cluster>, actions: seq<Action>, h: History, k: nat)
    returns (some: bool, t: nat, p: nat)
    requires Run(size, states, actions) && |states| > 0 && h == states[|states| - 1].h && k <= |states|
    ensures (some ==> Chosen(h, t, p)) && StatesLie(h, states, k, some, t, p)
    decreases k
  {
    hide Inv; hide Run; hide HistoryOK; hide LiesOn; hide Chosen; hide Grows; hide NodesLie;
    some, t, p := false, 0, 0;
    if k > 0 {
      var some0, t0, p0 := Highest(size, states, actions, h, k - 1);
      RunInv(size, states, actions, |states| - 1);
      InvHistory(states[|states| - 1]);
      RunInv(size, states, actions, k - 1);
      RunGrows(size, states, actions, k - 1, |states| - 1);
      some, t, p := HighestOfState(states[k - 1], h, |states[k - 1].nodes|, some0, t0, p0);
      forall j | 0 <= j < k - 1 ensures NodesLie(h, states[j], |states[j].nodes|, some, t, p) {
        if some {
          NodesStillLie(h, states[j], |states[j].nodes|, some0, t0, p0, t, p);
        } else {
          NoneLie(h, states[j], |states[j].nodes|, t0, p0, t, p);
        }
      }
    }
  }

  lemma NoneLie(h: History, s: Cluster, b: nat, t: nat, p: nat, t2: nat, p2: nat)
    requires NodesLie(h, s, b, false, t, p)
    ensures NodesLie(h, s, b, false, t2, p2)
  {
  }

  /** Every node at every moment shows, between its dummy and its commit index, entries of `chosen`. */
  ghost predicate ShownByAll(states: seq<Cluster>, chosen: seq<Entry>) {
    forall k, a :: 0 <= k < |states| && 0 <= a < |states[k].nodes| ==> ShownBy(states[k].nodes[a], chosen)
  }

  ghost predicate ShownBy(n: Node, chosen: seq<Entry>) {
    Contiguous(n.logs) && Delivery.ShowsChosen(n.logs, chosen, n.commitIndex)
  }

  /** The committed log of a run. */
  lemma OneCommittedLog(size: nat, states: seq<Cluster>, actions: seq<Action>) returns (chosen: seq<Entry>)
    requires Run(size, states, actions)
    ensures Delivery.Numbered(chosen) && ShownByAll(states, chosen)
  {
    assert |states| > 0;
    hide Inv; hide Run; hide HistoryOK; hide LiesOn; hide Chosen; hide Contiguous; hide Delivery.ShowsChosen;
    hide Delivery.Numbered; hide ShownBy; hide Shaped;
    var h := states[|states| - 1].h;
    RunInv(size, states, actions, |states| - 1);
    InvHistory(states[|states| - 1]);
    var some, t, p := Highest(size, states, actions, h, |states|);
    if some {
      chosen := ChosenPrefix(h, t, p);
    } else {
      chosen := [];
      EmptyNumbered();
    }
    forall k, a | 0 <= k < |states| && 0 <= a < |states[k].nodes| ensures ShownBy(states[k].nodes[a], chosen) {
      if states[k].nodes[a].commitIndex > 0 {
        assert NodesLie(h, states[k], |states[k].nodes|, some, t, p);
        LiesShows(h, states[k].nodes[a], t, p);
      } else {
        RunInv(size, states, actions, k);
        ShapedAt(states[k]);
        NothingCommitted(states[k], a, chosen);
      }
    }
  }

  lemma NothingCommitted(s: Cluster, a: nat, chosen: seq<Entry>)
    requires Shaped(s) && a < |s.nodes| && s.nodes[a].commitIndex == 0
    ensures ShownBy(s.nodes[a], chosen)
  {
    assert s.nodes[a].Valid();
    assert s.nodes[a].logs[1..1] == chosen[0..0];
  }

  lemma EmptyNumbered()
    ensures Delivery.Numbered([])
  {
  }

  lemma ChosenPrefix(h: History, t: nat, p: nat) returns (chosen: seq<Entry>)
    requires HistoryOK(h) && Chosen(h, t, p)
    ensures t in h.tl && p < |h.tl[t]| && chosen == h.tl[t][1..p + 1] && Delivery.Numbered(chosen)
  {
    hide HistoryOK; hide LogOK;
    TermLogFacts(h);
    chosen := h.tl[t][1..p + 1];
    forall i | 0 <= i < |chosen| ensures chosen[i].index == i + 1 {
      LogAt(h.tl[t], h.tl, i + 1);
    }
  }

  lemma LiesShows(h: History, n: Node, t: nat, p: nat)
    requires LiesOn(h, n, t, p)
    ensures ShownBy(n, h.tl[t][1..p + 1])
  {
    hide Contiguous; hide Chosen;
    FirstIs(n.logs);
    SliceOfSlice(h.tl[t], p, n.First(), n.commitIndex);
  }

  lemma FirstIs(logs: seq<Entry>)
    requires Contiguous(logs)
    ensures |logs| > 0
  {
  }

  lemma SliceOfSlice(s: seq<Entry>, p: nat, from: nat, to: nat)
    requires from <= to <= p < |s|
    ensures s[1..p + 1][from..to] == s[from + 1..to + 1]
  {
    var a, b := s[1..p + 1][from..to], s[from + 1..to + 1];
    assert |a| == |b|;
    forall k | 0 <= k < |a| ensures a[k] == b[k] {
      assert a[k] == s[1..p + 1][from + k] == s[from + 1 + k];
    }
  }

  // ----- A node of the cluster seen as a replica -----

  /** The log is rewritten above the commit index only, and the commit index moves to committed entries. */
  ghost predicate RewritesAndCommits(chosen: seq<Entry>, n: Node, n2: Node) {
    && Contiguous(n.logs) && Contiguous(n2.logs)
    && forall r: Delivery.Replica :: r.logs == n.logs && r.commitIndex == n.commitIndex ==>
         && Delivery.Enabled(chosen, r, Delivery.Rewrite(n2.logs))
         && (n2.commitIndex == n.commitIndex
             || Delivery.Enabled(chosen, r.(logs := n2.logs), Delivery.Commit(n2.commitIndex)))
  }

  lemma TakeOfSlice(s: seq<Entry>, from: nat, a: nat, b: nat)
    requires a <= b && from + b <= |s|
    ensures s[from..from + a] == s[from..from + b][..a]
  {
    var x, y := s[from..from + a], s[from..from + b][..a];
    assert |x| == |y|;
    forall k | 0 <= k < |x| ensures x[k] == y[k] {
      assert y[k] == s[from..from + b][k];
    }
  }

  lemma KeptCommits(chosen: seq<Entry>, n: Node, n2: Node)
    requires ShownBy(n, chosen) && ShownBy(n2, chosen)
    requires n2.logs[0] == n.logs[0] && n2.commitIndex >= n.commitIndex
    ensures RewritesAndCommits(chosen, n, n2)
  {
    var first := n.logs[0].index;
    var c := n.commitIndex - first;
    var d := n2.commitIndex - first;
    hide Contiguous;
    TakeOfSlice(n2.logs, 1, c, d);
    TakeOfSlice(chosen, first, c, d);
    assert n.logs[..c + 1] == [n.logs[0]] + n.logs[1..c + 1];
    assert n2.logs[..c + 1] == [n2.logs[0]] + n2.logs[1..c + 1];
  }

  /** The dummy stays and the commit index does not fall. */
  predicate Onward(n: Node, n2: Node) {
    |n.logs| > 0 && |n2.logs| > 0 && n2.logs[0] == n.logs[0] && n2.commitIndex >= n.commitIndex
  }

  lemma ElectionsOnward(n: Node, from: nat, vote: VoteRequest, voted: VoteResponse)
    requires n.Valid()
    ensures |n.logs| > 0
    ensures Onward(n, Timeout(n).0) && Onward(n, RequestVote(n, vote).0) && Onward(n, HandleVoteReply(n, from, vote, voted))
  {
    hide UpToDate;
  }

  lemma EntriesOnward(n: Node, request: AppendRequest)
    requires n.Valid() && Continues(request)
    ensures Onward(n, AppendEntries(n, request).0)
  {
    hide Contiguous; hide Continues; hide Reconcile; hide Rejection; hide MatchLog;
    LogsThere(n);
  }

  lemma RepliesOnward(n: Node, peer: nat, request: AppendRequest, response: AppendResponse)
    requires n.Valid() && peer < n.peers
    requires n.role == Leader && n.currentTerm == request.term ==> request.prevLogIndex <= n.Last().index
    ensures Onward(n, HandleAppendReply(n, peer, request, response))
  {
    hide Contiguous; hide MajorityMatch; hide MatchLog; hide BackOff;
    LogsThere(n);
  }

  lemma SnapshotsOnward(n: Node, peer: nat, request: InstallRequest, response: InstallResponse)
    requires n.Valid() && peer < n.peers
    ensures |n.logs| > 0
    ensures Onward(n, InstallSnapshot(n, request).0) && Onward(n, HandleInstallReply(n, peer, request, response))
  {
    hide Contiguous;
    LogsThere(n);
  }

  lemma CommandsOnward(n: Node, command: Command)
    requires n.Valid()
    ensures Onward(n, Start(n, command).0)
  {
  }

  /** Handlers other than the two that cut the log keep the dummy and never lower the commit index. */
  lemma HandlerKeeps(s: Cluster, a: Action, b: nat)
    requires Shaped(s) && Enabled(s, a) && Safe(s, a) && b < |s.nodes|
    requires !a.Compact? && !a.Install? && !a.Crash?
    ensures b < |Next(s, a).nodes| && Onward(s.nodes[b], Next(s, a).nodes[b])
  {
    hide Contiguous; hide Continues; hide HistoryAfterAppend; hide FullAfterAppend; hide Observe; hide Vote; hide Elect;
    hide Stand; hide Extend; hide Acknowledge; hide Commits; hide Timeout; hide RequestVote; hide HandleVoteReply;
    hide AppendEntries; hide HandleAppendReply; hide InstallSnapshot; hide HandleInstallReply; hide Start; hide AppendRequestFor;
    var n := s.nodes[a.i];
    assert n.Valid() && s.nodes[b].Valid();
    LogsThere(n);
    LogsThere(s.nodes[b]);
    match a
    case Expire(_) => ElectionsOnward(n, 0, VoteRequest(0, 0, 0, 0), VoteResponse(0, false));
    case AnswerVote(_, m) => ElectionsOnward(n, 0, m.vote, VoteResponse(0, false));
    case CountVote(_, m) => ElectionsOnward(n, m.from, m.vote, m.voted);
    case AnswerAppend(_, m) => EntriesOnward(n, m.append);
    case CountAppend(_, m) => RepliesOnward(n, m.from, m.append, m.appended);
    case AnswerInstall(_, m) => SnapshotsOnward(n, 0, m.install, InstallResponse(0));
    case CountInstall(_, m) => SnapshotsOnward(n, m.from, m.install, m.installed);
    case Propose(_, command) => CommandsOnward(n, command);
    case _ =>
  }

  lemma LogsThere(n: Node)
    requires n.Valid()
    ensures |n.logs| > 0
  {
  }

  /**
    * Along a run each node makes the moves Delivery assumes of it: a step cuts its log, installs
    * a snapshot, restarts it from its dummy, or rewrites and commits as above.
    */
  lemma NodeProjects(size: nat, states: seq<Cluster>, actions: seq<Action>, chosen: seq<Entry>, k: nat, b: nat)
    requires Run(size, states, actions) && ShownByAll(states, chosen) && k < |actions|
    requires b < |states[k].nodes| && b < |states[k + 1].nodes|
    ensures var n, n2, a := states[k].nodes[b], states[k + 1].nodes[b], actions[k];
            if a.Compact? && a.i == b then n.Valid() && a.index <= n.Last().index && n2 == Snapshot(n, a.index, a.data)
            else if a.Install? && a.i == b then
              n.Valid() && a.m.SnapshotReady? && n2 == CondInstallSnapshot(n, a.m.ready.term, a.m.ready.index, a.m.ready.data).0
            else if a.Crash? && a.i == b then n2.logs == n.logs && |n.logs| > 0 && n2.commitIndex == n2.lastApplied == n.First()
            else RewritesAndCommits(chosen, n, n2)
  {
    hide Inv; hide Snapshot; hide CondInstallSnapshot; hide RewritesAndCommits; hide Contiguous; hide ShownBy; hide Commits;
    RunInv(size, states, actions, k);
    assert Goes(states[k], actions[k], states[k + 1]);
    var a, n, n2 := actions[k], states[k].nodes[b], states[k + 1].nodes[b];
    assert ShownBy(n, chosen) && ShownBy(n2, chosen);
    assert n.Valid();
    LogsThere(n);
    if a.i == b && a.Crash? {
      hide Run;
      ShapedAt(states[k]);
      NodeAt(states[k], b);
      DurableAt(states[k].h, b, n, states[k].full[b]);
    } else if a.i == b && (a.Compact? || a.Install?) {
      hide Run;
    } else if a.Compact? || a.Install? || a.Crash? {
      assert n2 == n;
      KeptCommits(chosen, n, n2);
    } else {
      HandlerKeeps(states[k], a, b);
      assert Onward(n, n2);
      hide Next; hide Run;
      KeptCommits(chosen, n, n2);
    }
  }

  /** A snapshot under way ends at the dummy some node had when it sent it. */
  lemma {:induction false} SnapshotFromDummy(size: nat, states: seq<Cluster>, actions: seq<Action>, k: nat, m: Message)
    returns (j: nat, b: nat)
    requires Run(size, states, actions) && k < |states| && m in states[k].msgs && (m.InstallAsk? || m.SnapshotReady?)
    ensures j < |states| && b < |states[j].nodes| && |states[j].nodes[b].logs| > 0
    ensures states[j].nodes[b].First() == if m.InstallAsk? then m.install.lastIncludedIndex else m.ready.index
    decreases k
  {
    hide Contiguous; hide Continues; hide Commits; hide HistoryAfterAppend; hide FullAfterAppend; hide FullAfterInstall;
    hide Timeout; hide RequestVote; hide HandleVoteReply; hide AppendEntries; hide HandleAppendReply; hide HandleInstallReply;
    hide CondInstallSnapshot; hide Snapshot; hide Start; hide AppendRequestFor; hide Observe; hide Vote; hide Elect; hide Stand;
    hide Extend; hide Acknowledge; hide ChangeRole;
    assert k > 0;
    assert Goes(states[k - 1], actions[k - 1], states[k]);
    var a := actions[k - 1];
    if m in states[k - 1].msgs {
      j, b := SnapshotFromDummy(size, states, actions, k - 1, m);
    } else if a.Replicate? {
      j, b := k - 1, a.i;
      LogsThere(states[j].nodes[b]);
    } else {
      assert a.AnswerInstall?;
      j, b := SnapshotFromDummy(size, states, actions, k - 1, a.m);
    }
  }

  /** So the snapshots that reach a service stand for committed entries, as Delivery assumes. */
  lemma OfferedIsCommitted(size: nat, states: seq<Cluster>, actions: seq<Action>, chosen: seq<Entry>, k: nat, m: Message)
    requires Run(size, states, actions) && ShownByAll(states, chosen)
    requires k < |states| && m in states[k].msgs && m.SnapshotReady?
    ensures m.ready.index <= |chosen|
  {
    hide Run; hide Contiguous;
    var j, b := SnapshotFromDummy(size, states, actions, k, m);
    assert ShownBy(states[j].nodes[b], chosen);
  }
}
