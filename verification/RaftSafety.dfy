/** What every run of a cluster keeps: elections, logs and committed entries are safe. */
module RaftSafety {
  import opened RaftTypes
  import opened RaftHandlers
  import opened RaftHistory
  import opened RaftHistorySteps
  import opened RaftCluster
  import opened RaftInvariant
  import opened RaftElectionSteps
  import opened RaftAppendSteps
  import opened RaftReplicationSteps
  import opened MajorityIndex

  // ----- The invariant holds in every run -----
  // Handlers interleave; messages are lost, delayed, reordered and repeated; nodes time out,
  // crash and restart from the persister, compact their logs, and install snapshots over
  // logs that disagree with them.

  lemma InitInv(size: nat)
    requires size > 0
    ensures Inv(Init(size))
  {
    var s := Init(size);
    assert LogOK([DUMMY], s.h.tl);
    assert Shows([DUMMY], [DUMMY]) && Anchored([DUMMY], [DUMMY]);
    forall i: nat | i < size ensures NodeOK(s.h, i, s.nodes[i], s.full[i]) {
      InitNodeOK(s.h, size, i);
    }
  }

  lemma InitNodeOK(h: History, size: nat, i: nat)
    requires h == Init(size).h && i < size
    ensures NodeOK(h, i, InitNode(i, size), [DUMMY])
  {
  }

  /** One step from a good state leads to a good state. */
  lemma NextKeepsInv(s: Cluster, a: Action)
    requires Inv(s) && Shaped(s) && Enabled(s, a) && Safe(s, a)
    ensures Inv(Next(s, a))
  {
    hide Inv; hide Shaped; hide NextExpire; hide NextAnswerVote; hide NextCountVote; hide NextReplicate;
    hide NextAnswerAppend; hide NextCountAppend; hide NextAnswerInstall; hide NextCountInstall; hide NextInstall;
    hide NextPropose; hide NextCompact; hide NextMarkApplied; hide NextCrash; hide Contiguous; hide Continues;
    match a
    case Expire(i) => ExpireOK(s, i);
    case AnswerVote(i, m) => AnswerVoteOK(s, i, m);
    case CountVote(i, m) => CountVoteOK(s, i, m);
    case Replicate(i, peer) => ReplicateOK(s, i, peer);
    case AnswerAppend(i, m) => AnswerAppendOK(s, i, m);
    case CountAppend(i, m) => CountAppendOK(s, i, m);
    case AnswerInstall(i, m) => AnswerInstallOK(s, i, m);
    case CountInstall(i, m) => CountInstallOK(s, i, m);
    case Install(i, m) => InstallOK(s, i, m);
    case Propose(i, command) => ProposeOK(s, i, command);
    case Compact(i, index, data) => CompactOK(s, i, index, data);
    case MarkApplied(i, index) => MarkAppliedOK(s, i, index);
    case Crash(i) => CrashOK(s, i);
  }

  /** In a good state no handler indexes outside its arrays, whatever message it is given. */
  lemma EnabledIsSafe(s: Cluster, a: Action)
    requires Inv(s) && Shaped(s) && Enabled(s, a)
    ensures Safe(s, a)
  {
    hide Inv; hide Shaped; hide NextExpire; hide NextAnswerVote; hide NextCountVote; hide NextReplicate;
    hide NextAnswerAppend; hide NextCountAppend; hide NextAnswerInstall; hide NextCountInstall; hide NextInstall;
    hide NextPropose; hide NextCompact; hide NextMarkApplied; hide NextCrash; hide Contiguous; hide Continues;
    match a
    case Replicate(i, peer) => ReplicateOK(s, i, peer);
    case AnswerAppend(i, m) => AnswerAppendOK(s, i, m);
    case CountAppend(i, m) => CountAppendOK(s, i, m);
    case CountInstall(i, m) => CountInstallOK(s, i, m);
    case Crash(i) => CrashOK(s, i);
    case _ =>
  }

  /** A run: any enabled actions, one after the other, from the initial state. */
  ghost predicate Run(size: nat, states: seq<Cluster>, actions: seq<Action>) {
    && size > 0 && |states| == |actions| + 1 && states[0] == Init(size)
    && forall k :: 0 <= k < |actions| ==> Goes(states[k], actions[k], states[k + 1])
  }

  ghost predicate Goes(s: Cluster, a: Action, s2: Cluster) {
    Shaped(s) && Enabled(s, a) && Safe(s, a) && s2 == Next(s, a)
  }

  lemma {:induction false} RunInv(size: nat, states: seq<Cluster>, actions: seq<Action>, k: nat)
    requires Run(size, states, actions) && k < |states|
    ensures Inv(states[k])
    decreases k
  {
    hide Inv; hide Next; hide Init;
    if k == 0 {
      InitInv(size);
    } else {
      RunInv(size, states, actions, k - 1);
      assert Goes(states[k - 1], actions[k - 1], states[k]);
      NextKeepsInv(states[k - 1], actions[k - 1]);
    }
  }

  /** Every step only adds to the record. */
  lemma {:induction false} RunGrows(size: nat, states: seq<Cluster>, actions: seq<Action>, j: nat, k: nat)
    requires Run(size, states, actions) && j <= k < |states|
    ensures Grows(states[j].h, states[k].h) && states[j].committed <= states[k].committed
    decreases k - j
  {
    hide Inv; hide Grows; hide Init;
    RunInv(size, states, actions, j);
    if j == k {
      InvHistory(states[j]);
      StaysOK(states[j].h, 0);
    } else {
      assert Goes(states[j], actions[j], states[j + 1]);
      NextGrows(states[j], actions[j]);
      hide Next;
      RunGrows(size, states, actions, j + 1, k);
      GrowsThrough(states[j].h, states[j + 1].h, states[k].h);
    }
  }

  lemma InvHistory(s: Cluster)
    requires Inv(s)
    ensures HistoryOK(s.h) && Shaped(s)
  {
    hide HistoryOK; hide NodesOK; hide MessagesOK; hide CommitsOK;
  }

  /** A move keeps what was committed; its record grows as the step lemmas say. */
  lemma NextGrows(s: Cluster, a: Action)
    requires Inv(s) && Shaped(s) && Enabled(s, a) && Safe(s, a)
    ensures Grows(s.h, Next(s, a).h) && s.committed <= Next(s, a).committed
  {
    hide HistoryOK; hide Inv; hide Grows; hide Untouched; hide NodeOK; hide MessageOK; hide Contiguous;
    hide Continues; hide Shaped; hide Timeout; hide RequestVote; hide HandleVoteReply; hide AppendEntries;
    hide HandleAppendReply; hide InstallSnapshot; hide HandleInstallReply; hide HistoryAfterAppend;
    hide FullAfterAppend; hide FullAfterInstall; hide CondInstallSnapshot;
    var i := a.i;
    ShapedAt(s);
    NodeAt(s, i);
    StaysOK(s.h, i);
    var n, full := s.nodes[i], s.full[i];
    BaseAt(s.h, i, n, full);
    match a
    case Expire(_) =>
      ExpireHistoryOK(s.h, i, n, full);
      TimeoutTerm(n);
    case AnswerVote(_, m) => MessageAt(s, m); AnswerVoteNodeOK(s.h, i, n, full, m);
    case CountVote(_, m) => MessageAt(s, m); CountVoteNodeOK(s.h, i, n, full, m);
    case AnswerAppend(_, m) => MessageAt(s, m); AskedRequest(s.h, m); AppendEntriesOK(s, i, m.append);
    case CountAppend(_, m) => MessageAt(s, m); CountAppendNodeOK(s.h, i, n, full, m);
    case AnswerInstall(_, m) => InstallSeenOK(s.h, i, n, full, m.install);
    case CountInstall(_, m) => MessageAt(s, m); CountInstallNodeOK(s.h, i, n, full, m);
    case Propose(_, command) =>
      if n.role == Leader {
        LeaderFacts(s.h, i, n, full);
        ProposedOK(s.h, i, n, full, command);
      }
    case _ =>
  }

  lemma TimeoutTerm(n: Node)
    requires |n.logs| > 0
    ensures Timeout(n).0.currentTerm == n.currentTerm + 1
  {
  }

  lemma AskedRequest(h: History, m: Message)
    requires m.AppendAsk? && MessageOK(h, m)
    ensures RequestOK(h, m.append)
  {
    hide RequestOK;
  }

  // ----- Election safety -----

  lemma LeaderIsElected(s: Cluster, i: nat)
    requires Inv(s) && i < |s.nodes| && s.nodes[i].role == Leader
    ensures s.nodes[i].currentTerm in s.h.elections && s.h.elections[s.nodes[i].currentTerm].leader == i
  {
    hide HistoryOK; hide Inv; hide NodeOK;
    ShapedAt(s);
    NodeAt(s, i);
    LeaderFacts(s.h, i, s.nodes[i], s.full[i]);
  }

  /** At most one node is ever leader in a term, at whatever moments and across restarts. */
  lemma ElectionSafety(size: nat, states: seq<Cluster>, actions: seq<Action>, j: nat, k: nat, a: nat, b: nat)
    requires Run(size, states, actions) && j < |states| && k < |states|
    requires a < |states[j].nodes| && b < |states[k].nodes|
    requires states[j].nodes[a].role == Leader && states[k].nodes[b].role == Leader
    requires states[j].nodes[a].currentTerm == states[k].nodes[b].currentTerm
    ensures a == b
  {
    hide Inv; hide Run;
    RunInv(size, states, actions, j);
    RunInv(size, states, actions, k);
    LeaderIsElected(states[j], a);
    LeaderIsElected(states[k], b);
    if j <= k {
      RunGrows(size, states, actions, j, k);
    } else {
      RunGrows(size, states, actions, k, j);
    }
  }

  /** Whenever no handler runs, the persister holds the live term, vote and log. */
  lemma PersistedIsLive(size: nat, states: seq<Cluster>, actions: seq<Action>, k: nat, a: nat)
    requires Run(size, states, actions) && k < |states| && a < |states[k].nodes|
    ensures var n := states[k].nodes[a];
            if n.saved.Some? then n.saved.value == Saved(n.currentTerm, n.votedFor, n.logs)
            else n.currentTerm == 0 && n.votedFor == NOBODY && n.logs == [DUMMY]
  {
    hide HistoryOK; hide Run; hide Inv; hide NodeOK;
    RunInv(size, states, actions, k);
    ShapedAt(states[k]);
    NodeAt(states[k], a);
    DurableAt(states[k].h, a, states[k].nodes[a], states[k].full[a]);
  }

  lemma DurableAt(h: History, i: nat, n: Node, full: seq<Entry>)
    requires NodeOK(h, i, n, full)
    ensures Durable(n.saved, n.currentTerm, n.votedFor, n.logs)
  {
    hide LogPart; hide CommitPart; hide VotePart; hide ConfirmPart; hide RolePart;
  }

  /** Every request in flight carries its leader's whole suffix: the commit index lies inside it. */
  lemma CommitInsideRequest(size: nat, states: seq<Cluster>, actions: seq<Action>, k: nat, to: nat, r: AppendRequest)
    requires Run(size, states, actions) && k < |states| && AppendAsk(to, r) in states[k].msgs
    ensures r.leaderCommit <= r.prevLogIndex + |r.entries|
  {
    hide HistoryOK; hide Run; hide NodesOK; hide CommitsOK; hide Shaped;
    RunInv(size, states, actions, k);
    assert MessageOK(states[k].h, AppendAsk(to, r));
  }

  /** Whatever a node has committed was confirmed by a majority, at a term the node has reached. */
  lemma CommitHasMajority(size: nat, states: seq<Cluster>, actions: seq<Action>, k: nat, a: nat) returns (t: nat, p: nat)
    requires Run(size, states, actions) && k < |states| && a < |states[k].nodes| && states[k].nodes[a].commitIndex > 0
    ensures t <= states[k].nodes[a].currentTerm && p >= states[k].nodes[a].commitIndex
    ensures Own(states[k].h, t, p) && 2 * |Acks(states[k].h, t, p)| > size
  {
    hide HistoryOK; hide Run; hide Inv; hide LogPart; hide ConfirmPart; hide RolePart; hide VotePart;
    RunInv(size, states, actions, k);
    var s := states[k];
    ShapedAt(s);
    NodeAt(s, a);
    var n := s.nodes[a];
    t, p :| CommittedVia(s.h, n.logs, s.full[a], n.commitIndex, n.currentTerm, t, p);
    SizeKept(size, states, actions, k);
  }

  lemma SizeKept(size: nat, states: seq<Cluster>, actions: seq<Action>, k: nat)
    requires Run(size, states, actions) && k < |states|
    ensures states[k].h.size == size
  {
    RunGrows(size, states, actions, 0, k);
    hide Inv; hide HistoryOK;
  }

  // ----- Log matching -----

  /** Position p of a node's array, above its dummy. */
  ghost predicate Holds(n: Node, p: nat) {
    |n.logs| > 0 && n.First() < p < n.First() + |n.logs|
  }

  ghost function EntryAt(n: Node, p: nat): Entry
    requires Holds(n, p)
  {
    n.logs[p - n.First()]
  }

  lemma HeldEntry(s: Cluster, i: nat, p: nat)
    requires Inv(s) && i < |s.nodes| && Holds(s.nodes[i], p)
    ensures |s.full| == |s.nodes| && p < |s.full[i]| && EntryAt(s.nodes[i], p) == s.full[i][p] && LogOK(s.full[i], s.h.tl)
  {
    hide HistoryOK; hide Inv; hide NodeOK; hide LogOK; hide ConfirmPart;
    ShapedAt(s);
    NodeAt(s, i);
    LogFacts(s.h, i, s.nodes[i], s.full[i]);
  }

  /** Two arrays with one term at one index agree on everything both still hold below it. */
  lemma LogMatching(size: nat, states: seq<Cluster>, actions: seq<Action>, k: nat, a: nat, b: nat, p: nat, q: nat)
    requires Run(size, states, actions) && k < |states|
    requires a < |states[k].nodes| && b < |states[k].nodes| && q <= p
    requires Holds(states[k].nodes[a], p) && Holds(states[k].nodes[b], p)
    requires EntryAt(states[k].nodes[a], p).term == EntryAt(states[k].nodes[b], p).term
    requires Holds(states[k].nodes[a], q) && Holds(states[k].nodes[b], q)
    ensures EntryAt(states[k].nodes[a], q) == EntryAt(states[k].nodes[b], q)
  {
    hide Inv; hide Run; hide LogOK; hide Holds; hide EntryAt;
    var s := states[k];
    RunInv(size, states, actions, k);
    HeldEntry(s, a, p);
    HeldEntry(s, b, p);
    HeldEntry(s, a, q);
    HeldEntry(s, b, q);
    SameTermSamePrefix(s.full[a], s.full[b], s.h.tl, p);
    AgreeShorter(s.full[a], s.full[b], p, q);
  }

  // ----- Leader completeness and state machine safety -----

  /** Every committed entry a node holds is on record, and the record is never shortened. */
  lemma HeldIsRecorded(s: Cluster, i: nat, p: nat)
    requires Inv(s) && i < |s.nodes| && Holds(s.nodes[i], p) && p <= s.nodes[i].commitIndex
    ensures Commit(s.nodes[i].currentTerm, EntryAt(s.nodes[i], p)) in s.committed
    ensures EntryAt(s.nodes[i], p).index == p
  {
    hide HistoryOK; hide NodesOK; hide MessagesOK; hide CommitOK;
    var n := s.nodes[i];
    assert n.Valid();
    assert n.logs[1..][p - n.First() - 1] == EntryAt(n, p);
    assert Commit(n.currentTerm, EntryAt(n, p)) in Commits(n);
  }

  lemma RecordedIsChosen(s: Cluster, c: Commit) returns (t: nat, k: nat)
    requires Inv(s) && c in s.committed
    ensures t <= c.term && c.entry.index <= k && Chosen(s.h, t, k)
    ensures t in s.h.tl && k < |s.h.tl[t]| && s.h.tl[t][c.entry.index] == c.entry
  {
    hide HistoryOK; hide NodesOK; hide MessagesOK;
    assert CommitOK(s.h, c);
    t, k :| t <= c.term && c.entry.index <= k && Chosen(s.h, t, k) && s.h.tl[t][c.entry.index] == c.entry;
  }

  /** Two recorded committed entries with one index are the same entry. */
  lemma RecordedAgree(s: Cluster, c: Commit, d: Commit)
    requires Inv(s) && c in s.committed && d in s.committed && c.entry.index == d.entry.index
    ensures c.entry == d.entry
  {
    hide HistoryOK; hide Inv; hide Chosen;
    InvHistory(s);
    var t, k := RecordedIsChosen(s, c);
    var u, l := RecordedIsChosen(s, d);
    ChosenAgree(s.h, t, k, u, l, c.entry.index);
    AgreeShorter(s.h.tl[t], s.h.tl[u], c.entry.index, c.entry.index);
  }

  /** No two nodes, at whatever moments, hold different committed entries at one index. */
  lemma StateMachineSafety(size: nat, states: seq<Cluster>, actions: seq<Action>, j: nat, k: nat, a: nat, b: nat, p: nat)
    requires Run(size, states, actions) && j < |states| && k < |states|
    requires a < |states[j].nodes| && b < |states[k].nodes|
    requires Holds(states[j].nodes[a], p) && p <= states[j].nodes[a].commitIndex
    requires Holds(states[k].nodes[b], p) && p <= states[k].nodes[b].commitIndex
    ensures EntryAt(states[j].nodes[a], p) == EntryAt(states[k].nodes[b], p)
  {
    hide Inv; hide Run; hide Grows; hide Holds; hide EntryAt;
    RunInv(size, states, actions, j);
    RunInv(size, states, actions, k);
    HeldIsRecorded(states[j], a, p);
    HeldIsRecorded(states[k], b, p);
    var last := if j <= k then k else j;
    RunGrows(size, states, actions, j, last);
    RunGrows(size, states, actions, k, last);
    RunInv(size, states, actions, last);
    RecordedAgree(states[last],
                  Commit(states[j].nodes[a].currentTerm, EntryAt(states[j].nodes[a], p)),
                  Commit(states[k].nodes[b].currentTerm, EntryAt(states[k].nodes[b], p)));
  }

  /** An entry that is chosen sooner or later was already in the log of every later leader. */
  lemma ChosenWasThere(h: History, h2: History, t: nat, k: nat, u: nat)
    requires HistoryOK(h) && Grows(h, h2) && Chosen(h2, t, k) && t < u && u in h.tl
    ensures t in h.tl && Own(h, t, k) && Agree(h.tl[u], h.tl[t], k)
  {
    ChosenNotDead(h2, t, k);
    SizeOf(h);
    if Own(h, t, k) {
      KeepsAllAt(h, u, t, k);
      if Dead(h, t, k) {
        DeadGrows(h, h2, t, k);
        assert false;
      }
    } else {
      UnwrittenDead(h, h2, t, k, u);
      DeadGrows(h, h2, t, k);
      assert false;
    }
  }

  lemma UnwrittenDead(h: History, h2: History, t: nat, k: nat, u: nat)
    requires HistoryOK(h) && Grows(h, h2) && Own(h2, t, k) && !Own(h, t, k) && t < u && u in h.tl
    ensures Dead(h, t, k)
  {
    if t in h.tl {
      LateEntryDead(h, t, u, k);
    } else {
      var e := h.elections[u];
      assert ElectionOK(u, e, h.size, h.terms, h.ballots);
      hide HistoryOK;
      forall v | v in e.voters ensures v in Lost(h, t, k) {
        assert At(u, v) in h.ballots;
        BallotFacts(h, At(u, v));
        NotAcked(h, t, v);
      }
      SubsetSize(e.voters, Lost(h, t, k));
    }
  }

  /**
    * Leader completeness: an entry some node has committed while in a term is in the log
    * of every leader of a later term, at every moment that leader exists. The leader still
    * shows it, or has compacted it away.
    */
  lemma LeaderCompleteness(size: nat, states: seq<Cluster>, actions: seq<Action>, j: nat, k: nat, a: nat, b: nat, p: nat)
    requires Run(size, states, actions) && j < |states| && k < |states|
    requires a < |states[j].nodes| && b < |states[k].nodes|
    requires Holds(states[j].nodes[a], p) && p <= states[j].nodes[a].commitIndex
    requires states[k].nodes[b].role == Leader && states[k].nodes[b].currentTerm > states[j].nodes[a].currentTerm
    ensures var leader := states[k].nodes[b];
            && |leader.logs| > 0 && p <= leader.Last().index
            && (Holds(leader, p) ==> EntryAt(leader, p) == EntryAt(states[j].nodes[a], p))
            && (p == leader.First() ==> leader.logs[0].term == EntryAt(states[j].nodes[a], p).term)
  {
    hide Inv; hide Run; hide Grows; hide HistoryOK; hide EntryAt; hide Chosen; hide Own; hide NodeOK; hide Agree;
    hide Shows; hide Contiguous;
    RunInv(size, states, actions, j);
    RunInv(size, states, actions, k);
    HeldIsRecorded(states[j], a, p);
    var last := if j <= k then k else j;
    RunGrows(size, states, actions, j, last);
    RunGrows(size, states, actions, k, last);
    RunInv(size, states, actions, last);
    var entry := EntryAt(states[j].nodes[a], p);
    var t, l := RecordedIsChosen(states[last], Commit(states[j].nodes[a].currentTerm, entry));
    LeaderShows(states[k], b, states[last].h, t, l, p, entry);
  }

  lemma LeaderShows(s: Cluster, b: nat, h2: History, t: nat, l: nat, p: nat, entry: Entry)
    requires Inv(s) && b < |s.nodes| && s.nodes[b].role == Leader && Grows(s.h, h2)
    requires Chosen(h2, t, l) && t < s.nodes[b].currentTerm && p <= l && p > 0
    requires t in h2.tl && l < |h2.tl[t]| && h2.tl[t][p] == entry
    ensures |s.nodes[b].logs| > 0 && p <= s.nodes[b].Last().index
    ensures Holds(s.nodes[b], p) ==> EntryAt(s.nodes[b], p) == entry
    ensures p == s.nodes[b].First() ==> s.nodes[b].logs[0].term == entry.term
  {
    hide Inv; hide HistoryOK; hide Chosen; hide NodeOK; hide LogOK; hide ConfirmPart; hide TermsUpTo; hide Dead;
    ShapedAt(s);
    NodeAt(s, b);
    var n, full := s.nodes[b], s.full[b];
    LeaderFacts(s.h, b, n, full);
    LogFacts(s.h, b, n, full);
    LengthOf(s.h.tl, n, full);
    ChosenWasThere(s.h, h2, t, l, n.currentTerm);
    AgreeShorter(full, s.h.tl[t], l, p);
    assert s.h.tl[t][p] == h2.tl[t][p];
    if n.First() <= p {
      ShownAt(n.logs, full, p);
    }
  }
}
