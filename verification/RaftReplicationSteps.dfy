/**
  * What leaders do, and everything about snapshots, keeps the cluster invariant: requests are
  * slices of the leader's log, the commit rule only commits what is chosen or lies below
  * something chosen, a command extends the term's log, compaction changes no full log, and an
  * installed snapshot ends at a committed entry even where the log behind it disagrees.
  */
module RaftReplicationSteps {
  import opened RaftTypes
  import opened RaftHandlers
  import opened RaftHistory
  import opened RaftHistorySteps
  import opened RaftCluster
  import opened RaftInvariant
  import opened RaftElectionSteps
  import opened RaftAppendSteps
  import opened MajorityIndex

  // ----- Sending -----

  lemma LeaderFacts(h: History, i: nat, n: Node, full: seq<Entry>)
    requires NodeOK(h, i, n, full) && n.role == Leader
    ensures LeaderPart(h, i, n.currentTerm, n.logs, full, n.nextIndex, n.matchIndex)
    ensures n.currentTerm in h.tl && n.currentTerm in h.elections && h.elections[n.currentTerm].leader == i
    ensures h.tl[n.currentTerm] == full && Anchored(n.logs, full)
    ensures |n.nextIndex| == |n.matchIndex| == h.size
    ensures forall p: nat :: p < h.size ==> PeerOK(h, n.currentTerm, |full| - 1, p, n.nextIndex[p], n.matchIndex[p])
  {
    hide LogPart; hide CommitPart; hide VotePart; hide ConfirmPart; hide BasePart; hide PeerOK; hide Anchored;
  }

  lemma NextBounded(h: History, i: nat, n: Node, full: seq<Entry>, peer: nat)
    requires NodeOK(h, i, n, full) && n.role == Leader && peer < h.size
    ensures peer < |n.nextIndex| && |n.logs| > 0 && n.nextIndex[peer] - 1 <= n.Last().index == |full| - 1
    ensures n.Valid() && Shows(n.logs, full)
  {
    hide LogPart; hide CommitPart; hide VotePart; hide ConfirmPart; hide BasePart; hide Anchored; hide LeaderPart;
    hide Contiguous; hide Shows; hide RolePart; hide NodeOK;
    BaseAt(h, i, n, full);
    LeaderFacts(h, i, n, full);
    LogFacts(h, i, n, full);
    LengthOf(h.tl, n, full);
    assert PeerOK(h, n.currentTerm, |full| - 1, peer, n.nextIndex[peer], n.matchIndex[peer]);
  }

  /** A leader's request is a slice of its log that reaches its end, so its commit index lies inside. */
  lemma RequestFromLeader(h: History, i: nat, n: Node, full: seq<Entry>, prev: nat)
    requires HistoryOK(h) && NodeOK(h, i, n, full) && n.role == Leader
    requires |n.logs| > 0 && n.First() <= prev <= n.Last().index && n.Valid()
    ensures RequestOK(h, AppendRequestFor(n, prev))
  {
    hide HistoryOK; hide NodeOK; hide LogPart; hide ConfirmPart; hide LogOK; hide TermsUpTo; hide Covered;
    hide LeaderPart; hide PeerOK;
    BaseAt(h, i, n, full);
    LeaderFacts(h, i, n, full);
    LogFacts(h, i, n, full);
    LengthOf(h.tl, n, full);
    CommitOnLeader(h, i, n, full, n.currentTerm);
    var r := AppendRequestFor(n, prev);
    ShownAt(n.logs, full, prev);
    ShownSuffix(n.logs, full, prev + 1);
  }

  lemma ShownSuffix(logs: seq<Entry>, full: seq<Entry>, from: nat)
    requires Shows(logs, full) && logs[0].index < from <= |full|
    ensures logs[from - logs[0].index..] == full[from..] == full[from..|full|]
  {
  }

  lemma InstallFromLeader(h: History, i: nat, n: Node, full: seq<Entry>)
    requires HistoryOK(h) && NodeOK(h, i, n, full) && n.role == Leader && |n.logs| > 0
    ensures SnapshotOK(h, n.currentTerm, n.First(), n.logs[0].term)
  {
    hide HistoryOK; hide NodeOK; hide LeaderPart; hide PeerOK;
    LeaderFacts(h, i, n, full);
    CommitOnLeader(h, i, n, full, n.currentTerm);
    CoveredBelow(h, n.currentTerm, n.commitIndex, n.First());
  }

  lemma CoveredBelow(h: History, term: nat, c: int, d: int)
    requires Covered(h, term, c) && d <= c
    ensures Covered(h, term, d)
  {
    if d > 0 {
      var t: nat, k: nat :| t <= term && c <= k && Chosen(h, t, k);
    }
  }

  lemma ReplicateOK(s: Cluster, i: nat, peer: nat)
    requires Inv(s) && i < |s.nodes| && peer < |s.nodes| && s.nodes[i].role == Leader
    ensures peer < |s.nodes[i].nextIndex| && |s.nodes[i].logs| > 0
    ensures s.nodes[i].nextIndex[peer] - 1 <= s.nodes[i].Last().index
    ensures Shaped(s) && Inv(NextReplicate(s, i, peer))
  {
    hide Inv; hide HistoryOK; hide Untouched; hide Grows; hide NodeOK; hide Contiguous; hide RequestOK;
    hide SnapshotOK; hide Covered; hide Acked;
    ShapedAt(s);
    NodeAt(s, i);
    StaysOK(s.h, i);
    var n, full := s.nodes[i], s.full[i];
    NextBounded(s.h, i, n, full, peer);
    var prev := n.nextIndex[peer] - 1;
    if prev < n.First() {
      InstallFromLeader(s.h, i, n, full);
      MoveKeepsInv(s, i, n, full, s.h, {InstallAsk(peer, InstallRequestFor(n))});
    } else {
      RequestFromLeader(s.h, i, n, full, prev);
      MoveKeepsInv(s, i, n, full, s.h, {AppendAsk(peer, AppendRequestFor(n, prev))});
    }
  }

  // ----- The commit rule -----

  /** A majority of `matchIndex` at or above c: chosen in this term, or committed before. */
  lemma MajorityCovers(h: History, term: nat, full: seq<Entry>, next: seq<int>, matched: seq<int>, c: nat)
    requires h.size > 0 && |matched| == |next| == h.size && MajorityReaches(matched, c)
    requires Own(h, term, c)
    requires forall p: nat :: p < h.size ==> PeerOK(h, term, |full| - 1, p, next[p], matched[p])
    ensures Covered(h, term, c)
  {
    if p :| p in Reached(matched, c) && Covered(h, term, matched[p]) {
      CoveredBelow(h, term, matched[p], c);
    } else {
      hide Own; hide Covered;
      forall p | p in Reached(matched, c) ensures p in Acks(h, term, c) {
        assert PeerOK(h, term, |full| - 1, p, next[p], matched[p]);
      }
      SubsetSize(Reached(matched, c), Acks(h, term, c));
      ChosenCovers(h, term, c);
    }
  }

  lemma ChosenCovers(h: History, term: nat, c: nat)
    requires Own(h, term, c) && 2 * |Acks(h, term, c)| > h.size
    ensures Covered(h, term, c)
  {
    assert Chosen(h, term, c);
  }

  /** Advancing the commit index of a leader. */
  lemma AdvanceOK(h: History, i: nat, n: Node, full: seq<Entry>)
    requires HistoryOK(h) && NodeOK(h, i, n, full) && n.role == Leader && n.Valid()
    ensures NodeOK(h, i, AdvanceCommit(n), full)
  {
    hide HistoryOK; hide LogOK; hide TermsUpTo; hide NodeOK; hide LogPart; hide ConfirmPart; hide LeaderPart;
    hide PeerOK; hide Covered;
    BaseAt(h, i, n, full);
    LeaderFacts(h, i, n, full);
    LogFacts(h, i, n, full);
    SizeOf(h);
    LengthOf(h.tl, n, full);
    var c := MajorityMatch(n.matchIndex);
    if c > n.commitIndex && MatchLog(n, n.currentTerm, c) {
      ShownAt(n.logs, full, c);
      assert Own(h, n.currentTerm, c);
      MajorityCovers(h, n.currentTerm, full, n.nextIndex, n.matchIndex, c);
      OwnAgrees(full, c);
      CommitFromLeader(h, n.logs, full, c, n.currentTerm);
      CommitMoved(h, i, n, full, c);
    }
  }

  lemma CommitMoved(h: History, i: nat, n: Node, full: seq<Entry>, c: nat)
    requires NodeOK(h, i, n, full) && n.Valid() && Anchored(n.logs, full)
    requires n.commitIndex <= c <= n.Last().index && CommitPart(h, n.logs, full, c, n.currentTerm)
    ensures NodeOK(h, i, n.(commitIndex := c), full)
  {
    hide LogOK; hide TermsUpTo; hide CommitPart; hide VotePart; hide ConfirmPart; hide LeaderPart;
    hide CandidatePart; hide Anchored;
  }

  // ----- Counting append replies -----

  /** Changing what a leader believes about one peer, to something true. */
  lemma PeerChangedOK(h: History, i: nat, n: Node, full: seq<Entry>, peer: nat, next: int, matched: int)
    requires NodeOK(h, i, n, full) && n.role == Leader && peer < h.size && n.Valid() && n.peers == h.size
    requires PeerOK(h, n.currentTerm, |full| - 1, peer, next, matched)
    ensures NodeOK(h, i, n.(matchIndex := n.matchIndex[peer := matched], nextIndex := n.nextIndex[peer := next]), full)
  {
    hide LogPart; hide CommitPart; hide VotePart; hide ConfirmPart; hide PeerOK; hide Anchored; hide Contiguous;
  }

  lemma CountAppendOK(s: Cluster, i: nat, m: Message)
    requires Inv(s) && i < |s.nodes| && m in s.msgs && m.AppendAnswer? && m.append.leader == i
    ensures Shaped(s) && m.from < |s.nodes| && |s.nodes[i].logs| > 0
    ensures s.nodes[i].role == Leader && s.nodes[i].currentTerm == m.append.term ==>
              m.append.prevLogIndex <= s.nodes[i].Last().index
    ensures Inv(NextCountAppend(s, i, m))
  {
    hide Inv; hide HistoryOK; hide Untouched; hide Grows; hide NodeOK; hide Contiguous; hide RequestOK; hide Covered;
    hide Acked;
    ShapedAt(s);
    NodeAt(s, i);
    MessageAt(s, m);
    var n, full := s.nodes[i], s.full[i];
    BaseAt(s.h, i, n, full);
    CountAppendNodeOK(s.h, i, n, full, m);
    var n2 := HandleAppendReply(n, m.from, m.append, m.appended);
    hide HandleAppendReply;
    MoveKeepsInv(s, i, n2, full, Observe(s.h, i, n2.currentTerm), {});
  }

  lemma CountAppendNodeOK(h: History, i: nat, n: Node, full: seq<Entry>, m: Message)
    requires HistoryOK(h) && NodeOK(h, i, n, full) && i < |h.terms| && n.Valid() && n.peers == h.size && |n.logs| > 0
    requires m.AppendAnswer? && MessageOK(h, m)
    ensures m.from < h.size
    ensures n.role == Leader && n.currentTerm == m.append.term ==> m.append.prevLogIndex <= n.Last().index
    ensures var n2 := HandleAppendReply(n, m.from, m.append, m.appended);
            var h2 := Observe(h, i, n2.currentTerm);
            && HistoryOK(h2) && Grows(h, h2) && NodeOK(h2, i, n2, full) && |n2.logs| > 0
            && forall j: nat :: j < |h.terms| && j != i ==> Untouched(h, h2, j)
  {
    hide HistoryOK; hide Untouched; hide Grows; hide NodeOK; hide Contiguous; hide RequestOK; hide Covered;
    hide Acked;
    BaseAt(h, i, n, full);
    StaysOK(h, i);
    SameTermObserve(h, i);
    if n.role == Leader && n.currentTerm == m.append.term {
      ReplyBounds(h, i, n, full, m);
      if m.appended.success {
        var at := m.append.prevLogIndex + |m.append.entries|;
        PeerChangedOK(h, i, n, full, m.from, at + 1, at);
        var p := n.(matchIndex := n.matchIndex[m.from := at], nextIndex := n.nextIndex[m.from := at + 1]);
        AdvanceOK(h, i, p, full);
      } else if m.appended.term > n.currentTerm {
        SeenOK(h, i, n, full, Persist(StepDown(n, m.appended.term)));
        ObserveOK(h, i, m.appended.term);
        ObserveTouchesNobodyElse(h, i, m.appended.term);
      } else if m.appended.term == n.currentTerm {
        PeerChangedOK(h, i, n, full, m.from, BackOff(n, m.append, m.appended), n.matchIndex[m.from]);
        SameMatch(n, m.from, BackOff(n, m.append, m.appended));
      }
    }
  }

  lemma SameMatch(n: Node, peer: nat, next: int)
    requires peer < |n.matchIndex| && peer < |n.nextIndex|
    ensures n.(matchIndex := n.matchIndex[peer := n.matchIndex[peer]], nextIndex := n.nextIndex[peer := next])
            == n.(nextIndex := n.nextIndex[peer := next])
  {
    assert n.matchIndex[peer := n.matchIndex[peer]] == n.matchIndex;
  }

  /** A reply's indexes lie inside the leader's log, and its acknowledgement is true. */
  lemma ReplyBounds(h: History, i: nat, n: Node, full: seq<Entry>, m: Message)
    requires NodeOK(h, i, n, full) && n.role == Leader && n.Valid() && |n.logs| > 0
    requires m.AppendAnswer? && MessageOK(h, m) && m.append.term == n.currentTerm
    ensures m.append.prevLogIndex <= n.Last().index && m.from < |n.matchIndex| == |n.nextIndex|
    ensures var at := m.append.prevLogIndex + |m.append.entries|;
            m.appended.success ==> PeerOK(h, n.currentTerm, |full| - 1, m.from, at + 1, at)
    ensures !m.appended.success && m.appended.term == n.currentTerm ==>
              PeerOK(h, n.currentTerm, |full| - 1, m.from, BackOff(n, m.append, m.appended), n.matchIndex[m.from])
  {
    hide NodeOK; hide LogPart; hide ConfirmPart; hide LogOK; hide TermsUpTo; hide Covered; hide Acked;
    hide LeaderPart; hide Anchored; hide Contiguous; hide Shows;
    LeaderFacts(h, i, n, full);
    LogFacts(h, i, n, full);
    LengthOf(h.tl, n, full);
    assert PeerOK(h, n.currentTerm, |full| - 1, m.from, n.nextIndex[m.from], n.matchIndex[m.from]);
  }

  // ----- Commands -----

  lemma ProposeOK(s: Cluster, i: nat, command: Command)
    requires Inv(s) && i < |s.nodes|
    ensures Shaped(s) && Inv(NextPropose(s, i, command))
  {
    hide Inv; hide HistoryOK; hide Untouched; hide Grows; hide NodeOK; hide Contiguous;
    ShapedAt(s);
    NodeAt(s, i);
    StaysOK(s.h, i);
    var n, full := s.nodes[i], s.full[i];
    BaseAt(s.h, i, n, full);
    var (n2, index, term, isLeader) := Start(n, command);
    if isLeader {
      LeaderFacts(s.h, i, n, full);
      ProposedOK(s.h, i, n, full, command);
      var h2 := Acknowledge(Extend(s.h, term, n2.Last()), i, index);
      MoveKeepsInv(s, i, n2, full + [n2.Last()], h2, {});
    } else {
      MoveKeepsInv(s, i, n2, full, s.h, {});
    }
  }

  lemma ProposedOK(h: History, i: nat, n: Node, full: seq<Entry>, command: Command)
    requires HistoryOK(h) && NodeOK(h, i, n, full) && i < |h.terms| && n.Valid() && |n.logs| > 0
    requires n.role == Leader && n.currentTerm in h.tl
    ensures var (n2, index, term, _) := Start(n, command);
            var h2 := Acknowledge(Extend(h, n.currentTerm, n2.Last()), i, index);
            && HistoryOK(h2) && Grows(h, h2) && NodeOK(h2, i, n2, full + [n2.Last()])
            && forall j: nat :: j < |h.terms| && j != i ==> Untouched(h, h2, j)
  {
    hide HistoryOK; hide Untouched; hide Grows; hide NodeOK; hide Contiguous; hide LogPart; hide LogOK;
    hide TermsUpTo; hide ConfirmPart; hide Shows; hide LeaderPart; hide PeerOK; hide Anchored;
    BaseAt(h, i, n, full);
    LogFacts(h, i, n, full);
    LeaderFacts(h, i, n, full);
    LengthOf(h.tl, n, full);
    TermLogFacts(h);
    var (n2, index, term, _) := Start(n, command);
    var entry := Entry(n.Last().index + 1, n.currentTerm, command);
    assert n2.Last() == entry;
    var h1 := Extend(h, term, entry);
    ExtendOK(h, term, entry);
    ExtendTouchesNobodyElse(h, i, term, entry);
    AckedBelow(h, term, i);
    var h2 := Acknowledge(h1, i, index);
    assert Acked(h1, term, i) == Acked(h, term, i);
    AcknowledgeOK(h1, i, index);
    AcknowledgeTouchesNobodyElse(h1, i, index);
    GrowsThrough(h, h1, h2);
    SizesStay(h, h1);
    forall j: nat | j < |h.terms| && j != i ensures Untouched(h, h2, j) {
      UntouchedThrough(h, h1, h2, j);
    }
    ProposedNodeOK(h, h1, h2, i, n, full, command);
  }

  lemma ExtendTouchesNobodyElse(h: History, i: nat, term: nat, entry: Entry)
    requires HistoryOK(h) && i < |h.terms| && term in h.tl && Grows(h, Extend(h, term, entry))
    requires term in h.elections && h.elections[term].leader == i
    ensures forall j: nat :: j < |h.terms| && j != i ==> Untouched(h, Extend(h, term, entry), j)
  {
    ElectedHaveLogs(h);
    hide HistoryOK; hide Grows;
  }

  lemma ProposedNodeOK(h: History, h1: History, h2: History, i: nat, n: Node, full: seq<Entry>, command: Command)
    requires HistoryOK(h) && NodeOK(h, i, n, full) && i < |h.terms| && n.Valid() && |n.logs| > 0
    requires n.role == Leader && n.currentTerm in h.tl && h.tl[n.currentTerm] == full
    requires var e := Entry(n.Last().index + 1, n.currentTerm, command);
             && h1 == Extend(h, n.currentTerm, e) && h2 == Acknowledge(h1, i, e.index)
             && HistoryOK(h1) && HistoryOK(h2) && Grows(h, h1) && Grows(h1, h2) && Grows(h, h2)
    ensures var n2 := Start(n, command).0; NodeOK(h2, i, n2, full + [n2.Last()])
  {
    hide HistoryOK; hide Grows; hide NodeOK; hide Contiguous; hide LogPart; hide LogOK; hide TermsUpTo;
    hide ConfirmPart; hide Shows; hide LeaderPart; hide CommitPart; hide Anchored; hide VotePart; hide BasePart;
    BaseAt(h, i, n, full);
    LogFacts(h, i, n, full);
    LengthOf(h.tl, n, full);
    var e := Entry(n.Last().index + 1, n.currentTerm, command);
    var full2 := full + [e];
    var n2 := Start(n, command).0;
    assert n2.Last() == e;
    assert e.index == |full|;
    ProposedBase(h, h2, i, n, full, command);
    ProposedLog(h, h2, i, n, full, e);
    ProposedCommit(h, h2, i, n, full, e);
    ProposedConfirm(h, h1, h2, i, n, full, e);
    ProposedLeader(h, h2, i, n, full, command);
    assert NodeOK(h2, i, n2, full2) by {
      ProposedAssemble(h2, i, n2, full2);
    }
  }

  lemma ProposedAssemble(h2: History, i: nat, n2: Node, full2: seq<Entry>)
    requires BasePart(h2, i, n2) && LogPart(h2.tl, n2.logs, full2, n2.commitIndex, n2.currentTerm)
    requires CommitPart(h2, n2.logs, full2, n2.commitIndex, n2.currentTerm)
    requires VotePart(h2.ballots, i, n2.currentTerm, n2.votedFor) && ConfirmPart(h2, i, full2) && RolePart(h2, i, n2, full2)
    ensures NodeOK(h2, i, n2, full2)
  {
    hide BasePart; hide LogPart; hide CommitPart; hide VotePart; hide ConfirmPart; hide RolePart;
  }

  lemma ProposedBase(h: History, h2: History, i: nat, n: Node, full: seq<Entry>, command: Command)
    requires NodeOK(h, i, n, full) && n.Valid() && n.role == Leader
    requires h2.size == h.size && h2.terms == h.terms && h2.ballots == h.ballots
    ensures var n2 := Start(n, command).0; BasePart(h2, i, n2) && VotePart(h2.ballots, i, n2.currentTerm, n2.votedFor)
  {
    hide LogPart; hide CommitPart; hide ConfirmPart; hide RolePart; hide LogOK;
  }

  lemma ProposedLog(h: History, h2: History, i: nat, n: Node, full: seq<Entry>, e: Entry)
    requires LogPart(h.tl, n.logs, full, n.commitIndex, n.currentTerm) && Grows(h, h2)
    requires n.currentTerm in h2.tl && h2.tl[n.currentTerm] == full + [e] && e.index == |full| && e.term == n.currentTerm
    ensures LogPart(h2.tl, n.logs + [e], full + [e], n.commitIndex, n.currentTerm)
  {
    hide LogOK; hide Grows;
    LogPartGrows(h, h2, n.logs, full, n.commitIndex, n.currentTerm, n.currentTerm);
    AppendedOK(full, h2.tl, e);
  }

  lemma ProposedCommit(h: History, h2: History, i: nat, n: Node, full: seq<Entry>, e: Entry)
    requires NodeOK(h, i, n, full) && Grows(h, h2) && n.role == Leader
    ensures CommitPart(h2, n.logs + [e], full + [e], n.commitIndex, n.currentTerm)
  {
    hide LogPart; hide ConfirmPart; hide Grows; hide VotePart; hide BasePart; hide RolePart; hide LeaderPart;
    LeaderFacts(h, i, n, full);
    CommitPartGrows(h, h2, n.logs, full, n.commitIndex, n.currentTerm, n.currentTerm);
    if n.commitIndex > 0 {
      var t: nat, k: nat :| CommittedVia(h2, n.logs, full, n.commitIndex, n.currentTerm, t, k);
      AgreePrefix(full, full + [e], n.commitIndex);
      AgreeBack(full + [e], full, full, 0);
      LongerAgrees(full, full + [e], h2.tl[t], n.commitIndex);
      assert CommittedVia(h2, n.logs + [e], full + [e], n.commitIndex, n.currentTerm, t, k);
    }
  }

  lemma LongerAgrees(a: seq<Entry>, longer: seq<Entry>, b: seq<Entry>, k: nat)
    requires a <= longer && Agree(a, b, k)
    ensures Agree(longer, b, k)
  {
    AgreePrefix(a, longer, k);
  }

  lemma ProposedConfirm(h: History, h1: History, h2: History, i: nat, n: Node, full: seq<Entry>, e: Entry)
    requires HistoryOK(h) && HistoryOK(h1) && ConfirmPart(h, i, full) && Grows(h, h1) && i < |h1.terms|
    requires h1.terms == h.terms && h.terms[i] == n.currentTerm && n.currentTerm in h.tl
    requires h1 == Extend(h, n.currentTerm, e) && h.tl[n.currentTerm] == full
    requires h2 == Acknowledge(h1, i, |full|) && Grows(h1, h2)
    ensures ConfirmPart(h2, i, full + [e])
  {
    hide HistoryOK; hide ConfirmPart; hide Grows;
    ConfirmPartGrows(h, h1, i, full);
    LongerConfirms(h1, i, full, full + [e]);
    OwnAgrees(full + [e], |full|);
    NewlyConfirmed(h1, h2, i, full + [e], |full|);
  }

  lemma LongerConfirms(h: History, i: nat, full: seq<Entry>, longer: seq<Entry>)
    requires ConfirmPart(h, i, full) && full <= longer
    ensures ConfirmPart(h, i, longer)
  {
    forall t: nat, k: nat | Own(h, t, k) && Acked(h, t, i) >= k ensures t in h.tl && KeptOrDead(h, longer, t, k) {
      hide ConfirmPart; hide Dead; hide Agree; hide Acked;
      ConfirmAt(h, i, full, t, k);
      if Agree(full, h.tl[t], k) {
        LongerAgrees(full, longer, h.tl[t], k);
      }
    }
  }

  lemma ProposedLeader(h: History, h2: History, i: nat, n: Node, full: seq<Entry>, command: Command)
    requires NodeOK(h, i, n, full) && n.role == Leader && n.Valid() && Grows(h, h2)
    requires n.Last().index == |full| - 1
    requires n.currentTerm in h2.tl && h2.tl[n.currentTerm] == full + [Entry(|full|, n.currentTerm, command)]
    requires Acked(h2, n.currentTerm, i) == |full|
    ensures var n2 := Start(n, command).0; RolePart(h2, i, n2, full + [n2.Last()])
  {
    hide LogPart; hide CommitPart; hide ConfirmPart; hide VotePart; hide LogOK; hide Covered; hide Acked;
    hide PeerOK; hide Contiguous;
    BaseAt(h, i, n, full);
    LeaderFacts(h, i, n, full);
    var n2 := Start(n, command).0;
    var full2 := full + [n2.Last()];
    assert |full2| == |full| + 1;
    LongerAnchored(n, full, n2.Last());
    SizesStay(h, h2);
    forall p: nat | p < h2.size
      ensures PeerOK(h2, n.currentTerm, |full2| - 1, p, n2.nextIndex[p], n2.matchIndex[p])
    {
      if p == i {
        OwnPeerOK(h2, n.currentTerm, |full2| - 1, i);
      } else {
        assert PeerOK(h, n.currentTerm, |full| - 1, p, n.nextIndex[p], n.matchIndex[p]);
        PeerGrows(h, h2, n.currentTerm, |full| - 1, |full2| - 1, p, n.nextIndex[p], n.matchIndex[p]);
      }
    }
  }

  lemma OwnPeerOK(h: History, term: nat, last: nat, i: nat)
    requires Acked(h, term, i) == last
    ensures PeerOK(h, term, last, i, last + 1, last)
  {
  }

  lemma LongerAnchored(n: Node, full: seq<Entry>, e: Entry)
    requires Anchored(n.logs, full)
    ensures Anchored(n.logs + [e], full + [e])
  {
  }

  // ----- Local compaction -----

  /** Cutting the array at a committed index shows the same full log. */
  lemma CutShows(logs: seq<Entry>, full: seq<Entry>, index: nat, term: nat)
    requires Shows(logs, full) && logs[0].index <= index < |full|
    ensures Shows(CutAt(logs, index, term), full)
    ensures Anchored(CutAt(logs, index, term), full) <==> term == full[index].term
  {
    CutFacts(logs, index, term);
  }

  lemma CompactOK(s: Cluster, i: nat, index: nat, data: string)
    requires Inv(s) && i < |s.nodes| && index <= s.nodes[i].commitIndex
    ensures Shaped(s) && Inv(NextCompact(s, i, index, data))
  {
    hide Inv; hide HistoryOK; hide Untouched; hide Grows; hide NodeOK; hide Contiguous;
    ShapedAt(s);
    NodeAt(s, i);
    StaysOK(s.h, i);
    var n, full := s.nodes[i], s.full[i];
    BaseAt(s.h, i, n, full);
    CompactedOK(s.h, i, n, full, index, data);
    MoveKeepsInv(s, i, Snapshot(n, index, data), full, s.h, {});
  }

  lemma CompactedOK(h: History, i: nat, n: Node, full: seq<Entry>, index: nat, data: string)
    requires NodeOK(h, i, n, full) && n.Valid() && |n.logs| > 0 && index <= n.commitIndex
    ensures NodeOK(h, i, Snapshot(n, index, data), full) && |Snapshot(n, index, data).logs| > 0
  {
    hide ConfirmPart; hide VotePart; hide LogOK; hide TermsUpTo; hide CandidatePart; hide LeaderPart; hide NodeOK;
    hide Contiguous; hide Shows; hide LogPart; hide Agree; hide Anchored;
    if index > n.First() {
      CommittedFacts(h, i, n, full);
      LogFacts(h, i, n, full);
      LengthOf(h.tl, n, full);
      ShownAt(n.logs, full, index);
      CutShows(n.logs, full, index, full[index].term);
      var n2 := Snapshot(n, index, data);
      assert n2.logs == CutAt(n.logs, index, full[index].term);
      var t: nat, k: nat :| CommittedVia(h, n.logs, full, n.commitIndex, n.currentTerm, t, k);
      AgreeShorter(full, h.tl[t], n.commitIndex, index);
      assert CommittedVia(h, n2.logs, full, n.commitIndex, n.currentTerm, t, k);
      CompactedParts(h, i, n, full, n2);
    }
  }

  lemma CompactedParts(h: History, i: nat, n: Node, full: seq<Entry>, n2: Node)
    requires NodeOK(h, i, n, full) && n2.Valid() && n2 == Persist(n.(logs := n2.logs, snapshot := n2.snapshot))
    requires Shows(n2.logs, full) && Anchored(n2.logs, full)
    requires CommitPart(h, n2.logs, full, n.commitIndex, n.currentTerm)
    ensures NodeOK(h, i, n2, full)
  {
    hide ConfirmPart; hide VotePart; hide LogOK; hide TermsUpTo; hide CandidatePart; hide Contiguous; hide Shows;
    hide Anchored; hide CommitPart; hide PeerOK;
  }

  lemma MarkAppliedOK(s: Cluster, i: nat, index: nat)
    requires Inv(s) && i < |s.nodes|
    ensures Shaped(s) && Inv(NextMarkApplied(s, i, index))
  {
    hide Inv; hide HistoryOK; hide Untouched; hide Grows; hide NodeOK; hide Contiguous;
    ShapedAt(s);
    NodeAt(s, i);
    StaysOK(s.h, i);
    var n, full := s.nodes[i], s.full[i];
    BaseAt(s.h, i, n, full);
    var n2 := n.(lastApplied := Max(n.lastApplied, index));
    MarkedOK(s.h, i, n, full, n2);
    MoveKeepsInv(s, i, n2, full, s.h, {});
  }

  lemma MarkedOK(h: History, i: nat, n: Node, full: seq<Entry>, n2: Node)
    requires NodeOK(h, i, n, full) && n2 == n.(lastApplied := n2.lastApplied)
    ensures NodeOK(h, i, n2, full)
  {
    hide ConfirmPart; hide VotePart; hide LogPart; hide CandidatePart; hide Contiguous; hide CommitPart;
    hide LeaderPart;
  }

  // ----- Snapshots between nodes -----

  lemma AnswerInstallOK(s: Cluster, i: nat, m: Message)
    requires Inv(s) && i < |s.nodes| && m in s.msgs && m.InstallAsk? && m.to == i
    ensures Shaped(s) && Inv(NextAnswerInstall(s, i, m))
  {
    hide Inv; hide HistoryOK; hide Untouched; hide Grows; hide NodeOK; hide Contiguous; hide SnapshotOK;
    ShapedAt(s);
    NodeAt(s, i);
    MessageAt(s, m);
    var n, full, r := s.nodes[i], s.full[i], m.install;
    BaseAt(s.h, i, n, full);
    var (n2, response, ready) := InstallSnapshot(n, r);
    var h2 := Observe(s.h, i, n2.currentTerm);
    InstallSeenOK(s.h, i, n, full, r);
    SnapshotGrows(s.h, h2, r.term, r.lastIncludedIndex, r.lastIncludedTerm);
    SizesStay(s.h, h2);
    ReadyIs(n, r);
    hide InstallSnapshot;
    var sent := {InstallAnswer(i, r, response)} + if ready.Some? then {SnapshotReady(i, r.term, ready.value)} else {};
    MoveKeepsInv(s, i, n2, full, h2, sent);
  }

  lemma ReadyIs(n: Node, r: InstallRequest)
    requires |n.logs| > 0
    ensures var (n2, response, ready) := InstallSnapshot(n, r);
            && |n2.logs| > 0
            && (ready.Some? ==> n2.currentTerm == r.term && ready.value.index == r.lastIncludedIndex && ready.value.term == r.lastIncludedTerm)
  {
  }

  lemma InstallSeenOK(h: History, i: nat, n: Node, full: seq<Entry>, r: InstallRequest)
    requires HistoryOK(h) && NodeOK(h, i, n, full) && i < |h.terms| && |n.logs| > 0
    ensures var n2 := InstallSnapshot(n, r).0;
            var h2 := Observe(h, i, n2.currentTerm);
            && HistoryOK(h2) && Grows(h, h2) && NodeOK(h2, i, n2, full)
            && forall j: nat :: j < |h.terms| && j != i ==> Untouched(h, h2, j)
  {
    hide HistoryOK; hide Untouched; hide Grows; hide NodeOK; hide Contiguous;
    BaseAt(h, i, n, full);
    StaysOK(h, i);
    SameTermObserve(h, i);
    var n2 := InstallSnapshot(n, r).0;
    if r.term > n.currentTerm {
      SeenOK(h, i, n, full, n2);
      ObserveOK(h, i, r.term);
      ObserveTouchesNobodyElse(h, i, r.term);
    } else if r.term == n.currentTerm {
      DemotedOK(h, i, n, full, n2);
    }
  }

  lemma CountInstallOK(s: Cluster, i: nat, m: Message)
    requires Inv(s) && i < |s.nodes| && m in s.msgs && m.InstallAnswer? && m.install.leader == i
    ensures Shaped(s) && m.from < |s.nodes| && Inv(NextCountInstall(s, i, m))
  {
    hide Inv; hide HistoryOK; hide Untouched; hide Grows; hide NodeOK; hide Contiguous; hide SnapshotOK;
    ShapedAt(s);
    NodeAt(s, i);
    MessageAt(s, m);
    var n, full := s.nodes[i], s.full[i];
    BaseAt(s.h, i, n, full);
    CountInstallNodeOK(s.h, i, n, full, m);
    var n2 := HandleInstallReply(n, m.from, m.install, m.installed);
    MoveKeepsInv(s, i, n2, full, Observe(s.h, i, n2.currentTerm), {});
  }

  lemma CountInstallNodeOK(h: History, i: nat, n: Node, full: seq<Entry>, m: Message)
    requires HistoryOK(h) && NodeOK(h, i, n, full) && i < |h.terms| && n.Valid() && n.peers == h.size && |n.logs| > 0
    requires m.InstallAnswer? && MessageOK(h, m) && m.from < n.peers
    ensures var n2 := HandleInstallReply(n, m.from, m.install, m.installed);
            var h2 := Observe(h, i, n2.currentTerm);
            && HistoryOK(h2) && Grows(h, h2) && NodeOK(h2, i, n2, full) && |n2.logs| > 0
            && forall j: nat :: j < |h.terms| && j != i ==> Untouched(h, h2, j)
  {
    hide HistoryOK; hide Untouched; hide Grows; hide NodeOK; hide Contiguous; hide Covered; hide Acked;
    hide LeaderPart; hide Anchored;
    BaseAt(h, i, n, full);
    StaysOK(h, i);
    SameTermObserve(h, i);
    if n.role == Leader && n.currentTerm == m.install.term {
      if m.installed.term > n.currentTerm {
        SeenOK(h, i, n, full, Persist(StepDown(n, m.installed.term)));
        ObserveOK(h, i, m.installed.term);
        ObserveTouchesNobodyElse(h, i, m.installed.term);
      } else {
        LeaderFacts(h, i, n, full);
        PeerChangedOK(h, i, n, full, m.from, m.install.lastIncludedIndex + 1, m.install.lastIncludedIndex);
      }
    }
  }

  // ----- Installing a snapshot -----

  /** The snapshot's last entry, seen from any leader of the sender's term or later. */
  lemma SnapshotCovered(h: History, sender: nat, index: nat, term: nat) returns (t: nat, k: nat)
    requires HistoryOK(h) && SnapshotOK(h, sender, index, term) && index > 0
    ensures t <= sender && index <= k && Chosen(h, t, k) && t in h.tl
    ensures Agree(h.tl[sender], h.tl[t], k)
  {
    t, k :| t <= sender && index <= k && Chosen(h, t, k);
    ChosenInLaterLeader(h, t, k, sender);
  }

  /** A log no longer than the snapshot is replaced by the sender's, which keeps what mattered. */
  lemma InstalledKeeps(h: History, full: seq<Entry>, sender: nat, index: nat, term: nat, t: nat, k: nat)
    requires HistoryOK(h) && SnapshotOK(h, sender, index, term) && index > 0
    requires Own(h, t, k) && KeptOrDead(h, full, t, k) && |full| <= index + 1
    ensures sender in h.tl && index < |h.tl[sender]| && KeptOrDead(h, h.tl[sender][..index + 1], t, k)
  {
    hide HistoryOK; hide Dead; hide Agree; hide Own; hide Covered;
    var s, l := SnapshotCovered(h, sender, index, term);
    OwnInLogs(h, t, k);
    if Agree(full, h.tl[t], k) {
      AgreeLength(full, h.tl[t], k);
      CutAgrees(h.tl[sender], index, k);
      if t < sender {
        KeepsAllAt(h, sender, t, k);
      } else if t == sender {
        OwnAgrees(h.tl[t], k);
      } else {
        ChosenInLaterLeader(h, s, l, t);
        AgreeBack(h.tl[sender], h.tl[t], h.tl[s], l);
        AgreeShorter(h.tl[sender], h.tl[t], l, k);
      }
      if Agree(h.tl[sender], h.tl[t], k) {
        AgreeThrough(h.tl[sender][..index + 1], h.tl[sender], h.tl[t], k);
      }
    }
  }

  lemma InstalledConfirms(h: History, i: nat, full: seq<Entry>, sender: nat, index: nat, term: nat)
    requires HistoryOK(h) && SnapshotOK(h, sender, index, term) && index > 0
    requires ConfirmPart(h, i, full) && |full| <= index + 1
    ensures sender in h.tl && index < |h.tl[sender]| && ConfirmPart(h, i, h.tl[sender][..index + 1])
  {
    forall t: nat, k: nat | Own(h, t, k) && Acked(h, t, i) >= k
      ensures t in h.tl && KeptOrDead(h, h.tl[sender][..index + 1], t, k)
    {
      hide HistoryOK; hide ConfirmPart; hide KeptOrDead; hide Own; hide Acked; hide SnapshotOK;
      ConfirmAt(h, i, full, t, k);
      InstalledKeeps(h, full, sender, index, term, t, k);
    }
  }

  lemma InstalledSupersedes(h: History, own: nat, stood: seq<Entry>, full: seq<Entry>, sender: nat, index: nat, term: nat)
    requires HistoryOK(h) && SnapshotOK(h, sender, index, term) && index > 0
    requires Supersedes(h, own, full, stood) && |full| <= index + 1
    ensures sender in h.tl && index < |h.tl[sender]| && Supersedes(h, own, h.tl[sender][..index + 1], stood)
  {
    forall t: nat, k: nat | t < own && Own(h, t, k) && Agree(stood, h.tl[t], k)
      ensures t in h.tl && KeptOrDead(h, h.tl[sender][..index + 1], t, k)
    {
      hide HistoryOK; hide KeptOrDead; hide SnapshotOK;
      InstalledKeeps(h, full, sender, index, term, t, k);
    }
  }

  /** On a leader the snapshot ends inside its log, on an entry it has. */
  lemma LeaderHasSnapshot(h: History, i: nat, n: Node, full: seq<Entry>, sender: nat, index: nat, term: nat)
    requires HistoryOK(h) && NodeOK(h, i, n, full) && SnapshotOK(h, sender, index, term) && index > 0
    requires n.role == Leader && sender <= n.currentTerm
    ensures index < |full| && Agree(full, h.tl[sender], index) && full[index].term == term
  {
    hide HistoryOK; hide NodeOK; hide LeaderPart; hide PeerOK; hide Anchored;
    LeaderFacts(h, i, n, full);
    var t, k := SnapshotCovered(h, sender, index, term);
    ChosenInLaterLeader(h, t, k, n.currentTerm);
    hide Chosen; hide Covered;
    AgreeBack(full, h.tl[sender], h.tl[t], k);
    AgreeShorter(full, h.tl[sender], k, index);
  }

  /** The log behind a node after an installed snapshot. */
  function Installed(h: History, n: Node, full: seq<Entry>, sender: nat, index: nat): seq<Entry>
    requires |n.logs| > 0 && sender in h.tl && index < |h.tl[sender]|
  {
    if index >= n.Last().index then h.tl[sender][..index + 1] else full
  }

  /** The installed array shows that log and everything up to the snapshot is committed. */
  lemma InstalledLog(h: History, i: nat, n: Node, full: seq<Entry>, sender: nat, index: nat, term: nat, data: string)
    requires HistoryOK(h) && NodeOK(h, i, n, full) && SnapshotOK(h, sender, index, term)
    requires sender <= n.currentTerm && index > n.commitIndex && n.Valid() && |n.logs| > 0
    ensures var n2 := CondInstallSnapshot(n, term, index, data).0;
            var full2 := Installed(h, n, full, sender, index);
            && n2.commitIndex == index && |n2.logs| > 0 && n2.First() == index && n2.logs[0].term == term && n2.Valid()
            && Shows(n2.logs, full2) && LogOK(full2, h.tl) && TermsUpTo(full2, n.currentTerm)
            && (index >= n.Last().index ==> Anchored(n2.logs, full2))
            && (index < n.Last().index ==> |n2.logs| >= 2)
  {
    hide HistoryOK; hide NodeOK; hide LogPart; hide LogOK; hide TermsUpTo; hide ConfirmPart; hide Covered;
    LogFacts(h, i, n, full);
    LengthOf(h.tl, n, full);
    TermLogFacts(h);
    if index >= n.Last().index {
      PrefixOK(h.tl[sender], h.tl, index + 1);
      PrefixTerms(h.tl[sender], sender, index + 1);
      LaterTerms(h.tl[sender][..index + 1], sender, n.currentTerm);
    } else {
      CutShows(n.logs, full, index, term);
    }
  }

  lemma LaterTerms(log: seq<Entry>, term: nat, later: nat)
    requires TermsUpTo(log, term) && term <= later
    ensures TermsUpTo(log, later)
  {
  }

  lemma InstalledCommit(h: History, logs: seq<Entry>, full: seq<Entry>, own: nat, sender: nat, index: nat, term: nat)
    requires HistoryOK(h) && SnapshotOK(h, sender, index, term) && index > 0 && sender <= own
    requires |logs| > 0 && logs[0].index == index && logs[0].term == term
    requires LogOK(full, h.tl) && index < |full|
    ensures CommitPart(h, logs, full, index, own)
  {
    hide HistoryOK; hide LogOK; hide Covered;
    TermLogFacts(h);
    var t, k := SnapshotCovered(h, sender, index, term);
    hide Chosen;
    AgreeShorter(h.tl[sender], h.tl[t], k, index);
    if Anchored(logs, full) {
      SameTermSamePrefix(full, h.tl[sender], h.tl, index);
      AgreeThrough(full, h.tl[sender], h.tl[t], index);
    }
    assert CommittedVia(h, logs, full, index, own, t, k);
  }

  lemma InstalledRole(h: History, i: nat, n: Node, full: seq<Entry>, sender: nat, index: nat, term: nat, n2: Node)
    requires HistoryOK(h) && NodeOK(h, i, n, full) && SnapshotOK(h, sender, index, term) && index > 0
    requires sender <= n.currentTerm && |n.logs| > 0
    requires n2 == Persist(n.(logs := n2.logs, lastApplied := n2.lastApplied, commitIndex := n2.commitIndex, snapshot := n2.snapshot))
    requires |n2.logs| > 0 && n2.logs[0].index == index && n2.logs[0].term == term
    ensures sender in h.tl && index < |h.tl[sender]| && RolePart(h, i, n2, Installed(h, n, full, sender, index))
  {
    hide HistoryOK; hide LogPart; hide CommitPart; hide VotePart; hide ConfirmPart; hide LogOK; hide TermsUpTo;
    hide Covered; hide Supersedes; hide PeerOK; hide Agree; hide Contiguous; hide Durable;
    LogFacts(h, i, n, full);
    LengthOf(h.tl, n, full);
    if n.role == Leader {
      LeaderHasSnapshot(h, i, n, full, sender, index, term);
      if index >= n.Last().index {
        WholeAgree(full, h.tl[sender], index);
      }
    }
    if n.role == Candidate && index >= n.Last().index {
      InstalledSupersedes(h, n.currentTerm, h.cands[At(n.currentTerm, i)], full, sender, index, term);
    }
  }

  lemma WholeAgree(a: seq<Entry>, b: seq<Entry>, k: nat)
    requires Agree(a, b, k) && |a| == k + 1
    ensures b[..k + 1] == a
  {
    assert a[..k + 1] == a;
  }

  lemma InstalledOK(h: History, i: nat, n: Node, full: seq<Entry>, sender: nat, index: nat, term: nat, data: string)
    requires HistoryOK(h) && NodeOK(h, i, n, full) && SnapshotOK(h, sender, index, term)
    requires sender <= n.currentTerm && index > n.commitIndex && n.Valid() && |n.logs| > 0
    ensures sender in h.tl && index < |h.tl[sender]|
    ensures NodeOK(h, i, CondInstallSnapshot(n, term, index, data).0, Installed(h, n, full, sender, index))
  {
    hide HistoryOK; hide NodeOK; hide LogOK; hide TermsUpTo; hide ConfirmPart; hide Covered; hide RolePart;
    hide CommitPart; hide VotePart; hide Contiguous; hide Shows; hide Anchored;
    BaseAt(h, i, n, full);
    LogFacts(h, i, n, full);
    LengthOf(h.tl, n, full);
    InstalledLog(h, i, n, full, sender, index, term, data);
    var n2 := CondInstallSnapshot(n, term, index, data).0;
    var full2 := Installed(h, n, full, sender, index);
    ShownLength(n2.logs, full2);
    InstalledCommit(h, n2.logs, full2, n.currentTerm, sender, index, term);
    InstalledRole(h, i, n, full, sender, index, term, n2);
    if index >= n.Last().index {
      InstalledConfirms(h, i, full, sender, index, term);
    }
    hide Installed; hide CondInstallSnapshot;
    InstalledParts(h, i, n, full, n2, full2);
  }

  lemma InstalledParts(h: History, i: nat, n: Node, full: seq<Entry>, n2: Node, full2: seq<Entry>)
    requires NodeOK(h, i, n, full) && n2.Valid()
    requires n2 == Persist(n.(logs := n2.logs, lastApplied := n2.lastApplied, commitIndex := n2.commitIndex, snapshot := n2.snapshot))
    requires Shows(n2.logs, full2) && LogOK(full2, h.tl) && TermsUpTo(full2, n.currentTerm)
    requires !Anchored(n2.logs, full2) ==> n2.commitIndex == n2.logs[0].index && |n2.logs| >= 2
    requires CommitPart(h, n2.logs, full2, n2.commitIndex, n2.currentTerm)
    requires ConfirmPart(h, i, full2) && RolePart(h, i, n2, full2)
    ensures NodeOK(h, i, n2, full2)
  {
    hide LogOK; hide TermsUpTo; hide ConfirmPart; hide RolePart; hide CommitPart; hide Contiguous; hide Shows;
    hide Anchored;
  }

  lemma InstallOK(s: Cluster, i: nat, m: Message)
    requires Inv(s) && i < |s.nodes| && m in s.msgs && m.SnapshotReady? && m.to == i
    ensures Shaped(s) && Inv(NextInstall(s, i, m))
  {
    hide Inv; hide HistoryOK; hide Untouched; hide Grows; hide NodeOK; hide Contiguous; hide Covered;
    ShapedAt(s);
    NodeAt(s, i);
    MessageAt(s, m);
    StaysOK(s.h, i);
    var n, full, p := s.nodes[i], s.full[i], m.ready;
    BaseAt(s.h, i, n, full);
    if p.index > n.commitIndex {
      InstalledOK(s.h, i, n, full, m.sender, p.index, p.term, p.data);
      NonEmptyCond(n, p);
    }
    var (n2, _) := CondInstallSnapshot(n, p.term, p.index, p.data);
    hide CondInstallSnapshot; hide SnapshotOK;
    MoveKeepsInv(s, i, n2, FullAfterInstall(s, i, p.index, m.sender), s.h, {});
  }

  lemma NonEmptyCond(n: Node, p: SnapshotMsg)
    requires n.Valid()
    ensures |CondInstallSnapshot(n, p.term, p.index, p.data).0.logs| > 0
  {
  }
}
