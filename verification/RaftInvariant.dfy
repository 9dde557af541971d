/**
  * The invariant of the cluster: what holds of every node and of every message ever
  * sent, relative to the record of the history. Nodes and messages are tied to the
  * record only, so a step of one node leaves the others' parts alone.
  */
module RaftInvariant {
  import opened RaftTypes
  import opened RaftHandlers
  import opened RaftHistory
  import opened RaftHistorySteps
  import opened RaftCluster
  import opened MajorityIndex

  // ----- One node -----

  /** The array shows the full log from the dummy on. */
  ghost predicate Shows(logs: seq<Entry>, full: seq<Entry>) {
    && |logs| > 0 && Contiguous(logs)
    && |full| == logs[0].index + |logs|
    && forall k :: 1 <= k < |logs| ==> logs[k] == full[logs[0].index + k]
  }

  /** The dummy carries the term of the entry it stands for. */
  ghost predicate Anchored(logs: seq<Entry>, full: seq<Entry>) {
    |logs| > 0 && logs[0].index < |full| && logs[0].term == full[logs[0].index].term
  }

  /**
    * The array is a window of a full log. After a snapshot was installed over a log that
    * disagreed with it, only the dummy is known to be right: then nothing above it is committed.
    */
  ghost predicate LogPart(tl: map<nat, seq<Entry>>, logs: seq<Entry>, full: seq<Entry>, commit: nat, term: nat) {
    && Shows(logs, full) && LogOK(full, tl) && TermsUpTo(full, term)
    && (!Anchored(logs, full) ==> commit == logs[0].index && |logs| >= 2)
  }

  /** Everything up to the commit index is below an entry chosen at a term the node has reached. */
  ghost predicate CommittedVia(h: History, logs: seq<Entry>, full: seq<Entry>, commit: nat, term: nat, t: nat, k: nat) {
    && t <= term && commit <= k && Chosen(h, t, k)
    && |logs| > 0 && logs[0].index <= commit && logs[0].term == h.tl[t][logs[0].index].term
    && (Anchored(logs, full) ==> Agree(full, h.tl[t], commit))
  }

  ghost predicate CommitPart(h: History, logs: seq<Entry>, full: seq<Entry>, commit: nat, term: nat) {
    if commit == 0 then Anchored(logs, full)
    else exists t, k :: CommittedVia(h, logs, full, commit, term, t, k)
  }

  /** The vote of the node's term is the recorded one. */
  ghost predicate VotePart(ballots: map<At, nat>, i: nat, term: nat, votedFor: int) {
    && (votedFor != NOBODY ==> votedFor >= 0 && At(term, i) in ballots && ballots[At(term, i)] == votedFor)
    && (At(term, i) in ballots ==> votedFor == ballots[At(term, i)])
  }

  /** The node's log holds what it confirmed, as far as that may still be chosen. */
  ghost predicate ConfirmPart(h: History, i: nat, full: seq<Entry>) {
    forall t: nat, k: nat :: Own(h, t, k) && Acked(h, t, i) >= k ==> KeptOrDead(h, full, t, k)
  }

  /** What a leader believes about a peer: confirmed in this term, or committed anyway. */
  ghost predicate PeerOK(h: History, term: nat, last: int, peer: nat, next: int, matched: int) {
    && next <= last + 1 && matched <= last
    && (matched <= 0 || Acked(h, term, peer) >= matched || Covered(h, term, matched))
  }

  ghost predicate LeaderPart(h: History, i: nat, term: nat, logs: seq<Entry>, full: seq<Entry>,
                             next: seq<int>, matched: seq<int>) {
    && term in h.tl && term in h.elections && h.elections[term].leader == i
    && h.tl[term] == full && Anchored(logs, full)
    && |next| == |matched| == h.size
    && forall p: nat :: p < h.size ==> PeerOK(h, term, |full| - 1, p, next[p], matched[p])
  }

  ghost predicate CandidatePart(h: History, i: nat, term: nat, full: seq<Entry>, granters: set<nat>) {
    && granters <= Range(h.size)
    && (forall v :: v in granters ==> At(term, v) in h.ballots && h.ballots[At(term, v)] == i)
    && At(term, i) in h.cands && Supersedes(h, term, full, h.cands[At(term, i)])
  }

  ghost predicate RolePart(h: History, i: nat, n: Node, full: seq<Entry>) {
    && (n.role == Leader ==> LeaderPart(h, i, n.currentTerm, n.logs, full, n.nextIndex, n.matchIndex))
    && (n.role == Candidate ==> CandidatePart(h, i, n.currentTerm, full, n.granters))
    && (n.currentTerm in h.elections && h.elections[n.currentTerm].leader == i ==> n.role != Candidate)
    && (n.role != Follower ==> n.votedFor == i)
  }

  /** The persister holds exactly what a restart must restore. */
  ghost predicate Durable(saved: Option<Saved>, term: nat, votedFor: int, logs: seq<Entry>) {
    match saved
    case Some(p) => p == Saved(term, votedFor, logs)
    case None => term == 0 && votedFor == NOBODY && logs == [DUMMY]
  }

  ghost predicate BasePart(h: History, i: nat, n: Node) {
    && n.Valid() && i < h.size && |h.terms| == h.size
    && n.me == i && n.peers == h.size && n.currentTerm == h.terms[i]
    && Durable(n.saved, n.currentTerm, n.votedFor, n.logs)
  }

  ghost predicate NodeOK(h: History, i: nat, n: Node, full: seq<Entry>) {
    && BasePart(h, i, n)
    && LogPart(h.tl, n.logs, full, n.commitIndex, n.currentTerm)
    && CommitPart(h, n.logs, full, n.commitIndex, n.currentTerm)
    && VotePart(h.ballots, i, n.currentTerm, n.votedFor)
    && ConfirmPart(h, i, full)
    && RolePart(h, i, n, full)
  }

  // ----- One message -----

  /** The request is a slice of its leader's log, with a commit index inside that slice. */
  ghost predicate RequestOK(h: History, r: AppendRequest) {
    && r.term in h.tl && r.term in h.elections && h.elections[r.term].leader == r.leader
    && r.prevLogIndex + |r.entries| < |h.tl[r.term]|
    && r.entries == h.tl[r.term][r.prevLogIndex + 1..r.prevLogIndex + |r.entries| + 1]
    && r.prevLogTerm == h.tl[r.term][r.prevLogIndex].term
    && r.leaderCommit <= r.prevLogIndex + |r.entries|
    && Covered(h, r.term, r.leaderCommit)
  }

  /** The snapshot ends at a committed entry of its sender's log. */
  ghost predicate SnapshotOK(h: History, sender: nat, index: nat, term: nat) {
    && sender in h.tl && index < |h.tl[sender]| && h.tl[sender][index].term == term
    && Covered(h, sender, index)
  }

  ghost predicate MessageOK(h: History, m: Message) {
    match m
    case VoteAsk(r) =>
      && At(r.term, r.candidate) in h.cands && r.candidate < h.size
      && var log := h.cands[At(r.term, r.candidate)];
         |log| > 0 && log[|log| - 1].term == r.lastLogTerm && |log| - 1 == r.lastLogIndex
    case VoteAnswer(from, r, a) =>
      a.granted ==> from < h.size && At(r.term, from) in h.ballots && h.ballots[At(r.term, from)] == r.candidate
    case AppendAsk(to, r) => to < h.size && RequestOK(h, r)
    case AppendAnswer(from, r, a) =>
      && from < h.size && RequestOK(h, r)
      && (a.success ==> var at := r.prevLogIndex + |r.entries|;
                        at == 0 || Acked(h, r.term, from) >= at || Covered(h, r.term, at))
      && (!a.success && a.term == r.term ==> a.conflictIndex <= r.prevLogIndex)
    case InstallAsk(to, r) => to < h.size && SnapshotOK(h, r.term, r.lastIncludedIndex, r.lastIncludedTerm)
    case InstallAnswer(from, r, a) => from < h.size && SnapshotOK(h, r.term, r.lastIncludedIndex, r.lastIncludedTerm)
    case SnapshotReady(to, sender, p) =>
      && to < h.size && |h.terms| == h.size && sender <= h.terms[to]
      && SnapshotOK(h, sender, p.index, p.term)
  }

  /** A committed entry lies on the log of a leader below an entry that leader got chosen. */
  ghost predicate CommitOK(h: History, c: Commit) {
    exists t: nat, k: nat :: t <= c.term && c.entry.index <= k && Chosen(h, t, k) && h.tl[t][c.entry.index] == c.entry
  }

  // ----- The whole cluster -----

  ghost predicate NodesOK(s: Cluster) {
    |s.full| == |s.nodes| && forall i: nat :: i < |s.nodes| ==> NodeOK(s.h, i, s.nodes[i], s.full[i])
  }

  ghost predicate MessagesOK(s: Cluster) {
    forall m :: m in s.msgs ==> MessageOK(s.h, m)
  }

  ghost predicate CommitsOK(s: Cluster) {
    && (forall c :: c in s.committed ==> CommitOK(s.h, c))
    && forall i: nat :: i < |s.nodes| ==> |s.nodes[i].logs| > 0 && Commits(s.nodes[i]) <= s.committed
  }

  ghost predicate Inv(s: Cluster) {
    && Shaped(s) && HistoryOK(s.h) && NodesOK(s) && MessagesOK(s) && CommitsOK(s)
  }

  // ----- Parts carry over to a later record -----

  lemma LogPartGrows(h: History, h2: History, logs: seq<Entry>, full: seq<Entry>, commit: nat, term: nat, term2: nat)
    requires Grows(h, h2) && LogPart(h.tl, logs, full, commit, term) && term <= term2
    ensures LogPart(h2.tl, logs, full, commit, term2)
  {
    hide LogOK;
    LogOKGrows(full, h.tl, h2.tl);
  }

  lemma CommitPartGrows(h: History, h2: History, logs: seq<Entry>, full: seq<Entry>, commit: nat, term: nat, term2: nat)
    requires Grows(h, h2) && CommitPart(h, logs, full, commit, term) && term <= term2
    ensures CommitPart(h2, logs, full, commit, term2)
  {
    if commit > 0 {
      var t, k :| CommittedVia(h, logs, full, commit, term, t, k);
      ViaGrows(h, h2, logs, full, commit, term, term2, t, k);
    }
  }

  lemma ViaGrows(h: History, h2: History, logs: seq<Entry>, full: seq<Entry>, commit: nat, term: nat, term2: nat, t: nat, k: nat)
    requires Grows(h, h2) && CommittedVia(h, logs, full, commit, term, t, k) && term <= term2
    ensures CommittedVia(h2, logs, full, commit, term2, t, k)
  {
    ChosenGrows(h, h2, t, k);
    AgreePrefix(h.tl[t], h2.tl[t], k);
    AgreeShorter(h.tl[t], h2.tl[t], k, commit);
    AgreeShorter(h.tl[t], h2.tl[t], k, logs[0].index);
  }

  lemma ConfirmPartGrows(h: History, h2: History, i: nat, full: seq<Entry>)
    requires HistoryOK(h) && Grows(h, h2) && ConfirmPart(h, i, full)
    requires forall t: nat :: Acked(h2, t, i) == Acked(h, t, i)
    ensures ConfirmPart(h2, i, full)
  {
    forall t: nat, k: nat | Own(h2, t, k) && Acked(h2, t, i) >= k ensures t in h2.tl && KeptOrDead(h2, full, t, k) {
      hide HistoryOK; hide Dead; hide Agree;
      ConfirmedIsOld(h, h2, i, t, k);
      SizeOf(h);
      KeptOrDeadGrows(h, h2, full, t, k);
    }
  }

  lemma ConfirmedIsOld(h: History, h2: History, i: nat, t: nat, k: nat)
    requires HistoryOK(h) && Grows(h, h2) && Own(h2, t, k) && Acked(h, t, i) >= k
    ensures Own(h, t, k)
  {
    if t in h.tl {
      AckedBelow(h, t, i);
    } else {
      NotAcked(h, t, i);
    }
  }

  lemma NotAcked(h: History, t: nat, i: nat)
    requires HistoryOK(h) && t !in h.tl
    ensures Acked(h, t, i) == 0
  {
    hide LogOK; hide KeepsAll; hide Informed; hide ElectionOK;
  }

  lemma SupersedesGrows(h: History, h2: History, term: nat, log: seq<Entry>, stood: seq<Entry>)
    requires HistoryOK(h) && Grows(h, h2) && Supersedes(h, term, log, stood) && LogOK(stood, h.tl)
    ensures Supersedes(h2, term, log, stood)
  {
    forall t: nat, k: nat | t < term && Own(h2, t, k) && Agree(stood, h2.tl[t], k)
      ensures t in h2.tl && KeptOrDead(h2, log, t, k)
    {
      hide HistoryOK; hide Dead;
      AgreeShorter(stood, h2.tl[t], k, k);
      assert stood[k].term == t;
      assert Agree(stood, h.tl[t], k);
      AgreeShorter(stood, h.tl[t], k, k);
      SizeOf(h);
      KeptOrDeadGrows(h, h2, log, t, k);
    }
  }

  lemma PeerGrows(h: History, h2: History, term: nat, last: int, last2: int, peer: nat, next: int, matched: int)
    requires Grows(h, h2) && PeerOK(h, term, last, peer, next, matched) && last <= last2
    ensures PeerOK(h2, term, last2, peer, next, matched)
  {
    if matched > 0 && Covered(h, term, matched) {
      CoveredGrows(h, h2, term, term, matched);
    }
  }

  lemma LeaderPartGrows(h: History, h2: History, i: nat, term: nat, logs: seq<Entry>, full: seq<Entry>,
                        next: seq<int>, matched: seq<int>)
    requires Grows(h, h2) && LeaderPart(h, i, term, logs, full, next, matched)
    requires term in h2.tl && h2.tl[term] == h.tl[term]
    ensures LeaderPart(h2, i, term, logs, full, next, matched)
  {
    forall p: nat | p < h2.size ensures PeerOK(h2, term, |full| - 1, p, next[p], matched[p]) {
      PeerGrows(h, h2, term, |full| - 1, |full| - 1, p, next[p], matched[p]);
    }
  }

  lemma CandidatePartGrows(h: History, h2: History, i: nat, term: nat, full: seq<Entry>, granters: set<nat>)
    requires HistoryOK(h) && Grows(h, h2) && CandidatePart(h, i, term, full, granters)
    ensures CandidatePart(h2, i, term, full, granters)
  {
    hide Supersedes;
    CandidateFacts(h, At(term, i));
    SupersedesGrows(h, h2, term, full, h.cands[At(term, i)]);
  }

  lemma CandidateFacts(h: History, a: At)
    requires HistoryOK(h) && a in h.cands
    ensures LogOK(h.cands[a], h.tl) && TermsUpTo(h.cands[a], a.term - 1)
    ensures a.node < |h.terms| && 0 < a.term <= h.terms[a.node]
  {
    hide LogOK; hide TermsUpTo;
  }

  /** Nothing that node i's part of the invariant looks at has changed. */
  ghost predicate Untouched(h: History, h2: History, i: nat) {
    && Grows(h, h2) && i < |h.terms| && h2.terms[i] == h.terms[i]
    && (forall t: nat :: Acked(h2, t, i) == Acked(h, t, i))
    && (At(h.terms[i], i) in h2.ballots ==> At(h.terms[i], i) in h.ballots)
    && (h.terms[i] in h2.elections && h2.elections[h.terms[i]].leader == i ==>
          && h.terms[i] in h.elections
          && h.terms[i] in h.tl && h.terms[i] in h2.tl && h2.tl[h.terms[i]] == h.tl[h.terms[i]])
  }

  lemma NodeUntouched(h: History, h2: History, i: nat, n: Node, full: seq<Entry>)
    requires HistoryOK(h) && NodeOK(h, i, n, full) && Untouched(h, h2, i)
    ensures NodeOK(h2, i, n, full)
  {
    assert BasePart(h2, i, n) by {
      hide HistoryOK; hide LogPart; hide CommitPart; hide ConfirmPart; hide RolePart; hide Durable;
    }
    assert VotePart(h2.ballots, i, n.currentTerm, n.votedFor) by {
      hide HistoryOK; hide LogPart; hide CommitPart; hide ConfirmPart; hide RolePart;
    }
    hide LogPart; hide CommitPart; hide ConfirmPart; hide LeaderPart; hide CandidatePart; hide HistoryOK;
    hide VotePart;
    LogPartGrows(h, h2, n.logs, full, n.commitIndex, n.currentTerm, n.currentTerm);
    CommitPartGrows(h, h2, n.logs, full, n.commitIndex, n.currentTerm, n.currentTerm);
    ConfirmPartGrows(h, h2, i, full);
    if n.role == Leader {
      LeaderTerm(h, i, n.currentTerm, n.logs, full, n.nextIndex, n.matchIndex);
      LeaderPartGrows(h, h2, i, n.currentTerm, n.logs, full, n.nextIndex, n.matchIndex);
    }
    if n.role == Candidate {
      CandidatePartGrows(h, h2, i, n.currentTerm, full, n.granters);
    }
  }

  lemma LeaderTerm(h: History, i: nat, term: nat, logs: seq<Entry>, full: seq<Entry>, next: seq<int>, matched: seq<int>)
    requires LeaderPart(h, i, term, logs, full, next, matched)
    ensures term in h.tl && term in h.elections && h.elections[term].leader == i && h.tl[term] == full
  {
  }

  lemma RequestGrows(h: History, h2: History, r: AppendRequest)
    requires Grows(h, h2) && RequestOK(h, r)
    ensures RequestOK(h2, r)
  {
    CoveredGrows(h, h2, r.term, r.term, r.leaderCommit);
    var a, b := h.tl[r.term], h2.tl[r.term];
    var hi := r.prevLogIndex + |r.entries| + 1;
    assert a[r.prevLogIndex + 1..hi] == b[r.prevLogIndex + 1..hi];
  }

  lemma SnapshotGrows(h: History, h2: History, sender: nat, index: nat, term: nat)
    requires Grows(h, h2) && SnapshotOK(h, sender, index, term)
    ensures SnapshotOK(h2, sender, index, term)
  {
    CoveredGrows(h, h2, sender, sender, index);
  }

  lemma MessageGrows(h: History, h2: History, m: Message)
    requires Grows(h, h2) && MessageOK(h, m)
    ensures MessageOK(h2, m)
  {
    match m
    case VoteAsk(r) =>
    case VoteAnswer(from, r, a) =>
    case AppendAsk(to, r) => RequestGrows(h, h2, r);
    case AppendAnswer(from, r, a) =>
      RequestGrows(h, h2, r);
      var at := r.prevLogIndex + |r.entries|;
      if Covered(h, r.term, at) {
        CoveredGrows(h, h2, r.term, r.term, at);
      }
    case InstallAsk(to, r) => SnapshotGrows(h, h2, r.term, r.lastIncludedIndex, r.lastIncludedTerm);
    case InstallAnswer(from, r, a) => SnapshotGrows(h, h2, r.term, r.lastIncludedIndex, r.lastIncludedTerm);
    case SnapshotReady(to, sender, p) => SnapshotGrows(h, h2, sender, p.index, p.term);
  }

  lemma CommitGrows(h: History, h2: History, c: Commit)
    requires Grows(h, h2) && CommitOK(h, c)
    ensures CommitOK(h2, c)
  {
    var t: nat, k: nat :| t <= c.term && c.entry.index <= k && Chosen(h, t, k) && h.tl[t][c.entry.index] == c.entry;
    ChosenGrows(h, h2, t, k);
    assert h2.tl[t][c.entry.index] == c.entry;
  }

  // ----- Committed entries of a node are on a leader's log -----

  lemma NodeCommits(h: History, i: nat, n: Node, full: seq<Entry>)
    requires NodeOK(h, i, n, full)
    ensures forall c :: c in Commits(n) ==> CommitOK(h, c)
  {
    forall c | c in Commits(n) ensures CommitOK(h, c) {
      var k :| 1 <= k < |n.logs| && n.logs[k] == c.entry && c.entry.index <= n.commitIndex;
      assert n.First() < c.entry.index;
      hide ConfirmPart; hide RolePart; hide VotePart; hide LogOK; hide Durable;
      assert Anchored(n.logs, full);
      assert full[c.entry.index] == c.entry;
      var t, l :| CommittedVia(h, n.logs, full, n.commitIndex, n.currentTerm, t, l);
      AgreeShorter(full, h.tl[t], n.commitIndex, c.entry.index);
    }
  }

  // ----- One step keeps the invariant if the moving node and the sent messages fit -----

  lemma MoveKeepsInv(s: Cluster, i: nat, n: Node, full: seq<Entry>, h: History, sent: set<Message>)
    requires Inv(s) && i < |s.nodes|
    requires HistoryOK(h) && Grows(s.h, h) && NodeOK(h, i, n, full)
    requires forall j: nat :: j < |s.nodes| && j != i ==> Untouched(s.h, h, j)
    requires forall m :: m in sent ==> MessageOK(h, m)
    ensures Inv(Move(s, i, n, full, h, sent))
  {
    var s2 := Move(s, i, n, full, h, sent);
    assert Shaped(s2) by {
      hide HistoryOK; hide NodesOK; hide MessagesOK; hide CommitsOK; hide LogPart; hide CommitPart; hide VotePart;
      hide ConfirmPart; hide RolePart; hide Durable;
    }
    assert NodesOK(s2) by {
      forall j: nat | j < |s2.nodes| ensures NodeOK(s2.h, j, s2.nodes[j], s2.full[j]) {
        hide NodeOK; hide Untouched; hide HistoryOK; hide MessagesOK; hide CommitsOK;
        if j != i {
          NodeUntouched(s.h, h, j, s.nodes[j], s.full[j]);
        }
      }
    }
    assert MessagesOK(s2) by {
      forall m | m in s2.msgs ensures MessageOK(s2.h, m) {
        hide NodeOK; hide Untouched; hide HistoryOK; hide CommitsOK; hide MessageOK; hide Grows;
        if m in s.msgs {
          MessageGrows(s.h, h, m);
        }
      }
    }
    assert CommitsOK(s2) by {
      hide NodeOK; hide Untouched; hide HistoryOK; hide MessagesOK; hide CommitOK; hide Grows;
      NodeCommits(h, i, n, full);
      forall c | c in s2.committed ensures CommitOK(s2.h, c) {
        if c in s.committed {
          CommitGrows(s.h, h, c);
        }
      }
    }
    hide NodesOK; hide MessagesOK; hide CommitsOK; hide NodeOK; hide Untouched; hide HistoryOK; hide Grows;
  }
}
