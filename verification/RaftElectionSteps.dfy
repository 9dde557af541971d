/**
  * Timeouts, votes and restarts keep the cluster invariant. A timeout raises the term and
  * records the vote a node casts for itself. A vote goes only to a log at least as up to
  * date, so the candidate that a majority elects holds every entry chosen in an earlier
  * term, and its log becomes the log of its term. A restart brings back the persisted term,
  * vote and log. Each step is proved for the node that takes it; the other nodes are shown
  * to be untouched.
  */
module RaftElectionSteps {
  import opened RaftTypes
  import opened RaftHandlers
  import opened RaftHistory
  import opened RaftHistorySteps
  import opened RaftCluster
  import opened RaftInvariant
  import opened MajorityIndex

  // ----- A node on its own -----

  /** Fields that only leaders, candidates or the service read may change freely in a follower. */
  ghost predicate SameLog(n: Node, n2: Node) {
    n2.logs == n.logs && n2.commitIndex == n.commitIndex && n2.me == n.me && n2.peers == n.peers
  }

  lemma NodeAt(s: Cluster, i: nat)
    requires Inv(s) && i < |s.nodes|
    ensures Shaped(s) && NodeOK(s.h, i, s.nodes[i], s.full[i]) && HistoryOK(s.h)
  {
    hide HistoryOK; hide MessagesOK; hide CommitsOK; hide NodeOK;
  }

  lemma BaseAt(h: History, i: nat, n: Node, full: seq<Entry>)
    requires NodeOK(h, i, n, full)
    ensures n.Valid() && |n.logs| > 0 && i < h.size && |h.terms| == h.size && n.me == i && n.peers == h.size && n.currentTerm == h.terms[i]
  {
    hide LogPart; hide CommitPart; hide VotePart; hide ConfirmPart; hide RolePart; hide Durable;
  }

  /** Stepping down to a follower keeps the node's part, whatever else it forgets. */
  lemma DemotedOK(h: History, i: nat, n: Node, full: seq<Entry>, n2: Node)
    requires NodeOK(h, i, n, full) && SameLog(n, n2) && n2.Valid()
    requires n2.currentTerm == n.currentTerm && n2.votedFor == n.votedFor && n2.role == Follower
    requires n2.saved == n.saved || n2.saved == Some(Saved(n2.currentTerm, n2.votedFor, n2.logs))
    ensures NodeOK(h, i, n2, full)
  {
    hide Contiguous; hide LogPart; hide CommitPart; hide VotePart; hide ConfirmPart; hide LeaderPart;
    hide CandidatePart;
  }

  lemma PersistedOK(h: History, i: nat, n: Node, full: seq<Entry>)
    requires NodeOK(h, i, n, full)
    ensures NodeOK(h, i, Persist(n), full)
  {
    hide Contiguous; hide LogPart; hide CommitPart; hide VotePart; hide ConfirmPart; hide LeaderPart;
    hide CandidatePart;
  }

  /** Seeing a higher term makes a follower that has not voted. */
  lemma SeenOK(h: History, i: nat, n: Node, full: seq<Entry>, n2: Node)
    requires HistoryOK(h) && NodeOK(h, i, n, full) && SameLog(n, n2) && n2.Valid()
    requires n2.currentTerm > n.currentTerm && n2.votedFor == NOBODY && n2.role == Follower
    requires n2.saved == Some(Saved(n2.currentTerm, n2.votedFor, n2.logs))
    ensures i < |h.terms| && h.terms[i] == n.currentTerm
    ensures NodeOK(Observe(h, i, n2.currentTerm), i, n2, full)
  {
    hide Contiguous; hide HistoryOK; hide LogPart; hide CommitPart; hide ConfirmPart; hide LeaderPart;
    hide CandidatePart; hide Grows;
    BaseAt(h, i, n, full);
    var h2 := Observe(h, i, n2.currentTerm);
    ObserveGrows(h, i, n2.currentTerm);
    NoBallotYet(h, i, n2.currentTerm);
    LogPartGrows(h, h2, n.logs, full, n.commitIndex, n.currentTerm, n2.currentTerm);
    CommitPartGrows(h, h2, n.logs, full, n.commitIndex, n.currentTerm, n2.currentTerm);
    ConfirmPartGrows(h, h2, i, full);
  }

  lemma NoBallotYet(h: History, i: nat, term: nat)
    requires HistoryOK(h) && i < |h.terms| && h.terms[i] < term
    ensures At(term, i) !in h.ballots && At(term, i) !in h.cands
    ensures term in h.elections ==> h.elections[term].leader != i
  {
    hide LeadersComplete; hide VotesInformed; hide LogOK; hide TermsUpTo;
    if At(term, i) in h.ballots { }
    if term in h.elections {
      assert ElectionOK(term, h.elections[term], h.size, h.terms, h.ballots);
    }
  }

  lemma SameTermObserve(h: History, i: nat)
    requires i < |h.terms|
    ensures Observe(h, i, h.terms[i]) == h
  {
  }

  /** What the array shows of its full log. */
  lemma ShownAt(logs: seq<Entry>, full: seq<Entry>, k: nat)
    requires Shows(logs, full) && logs[0].index <= k < |full|
    requires k == logs[0].index ==> Anchored(logs, full)
    ensures logs[k - logs[0].index].term == full[k].term
    ensures k > logs[0].index ==> logs[k - logs[0].index] == full[k]
  {
  }

  lemma LastShown(tl: map<nat, seq<Entry>>, n: Node, full: seq<Entry>)
    requires LogPart(tl, n.logs, full, n.commitIndex, n.currentTerm)
    ensures |n.logs| > 0 && |full| > 0 && n.Last().index == |full| - 1 && n.Last().term == full[|full| - 1].term
  {
    hide LogOK; hide TermsUpTo;
    ShownAt(n.logs, full, |full| - 1);
  }

  // ----- Others are not touched -----

  lemma UntouchedThrough(h: History, h1: History, h2: History, j: nat)
    requires Untouched(h, h1, j) && Untouched(h1, h2, j)
    ensures Untouched(h, h2, j)
  {
  }

  lemma ObserveTouchesNobodyElse(h: History, i: nat, term: nat)
    requires HistoryOK(h) && i < |h.terms| && h.terms[i] <= term
    ensures forall j: nat :: j < |h.terms| && j != i ==> Untouched(h, Observe(h, i, term), j)
  {
    hide HistoryOK; hide Grows;
    ObserveGrows(h, i, term);
    ElectedHaveLogs(h);
  }

  lemma ElectedHaveLogs(h: History)
    requires HistoryOK(h)
    ensures forall t :: t in h.elections ==> t in h.tl
  {
  }

  // ----- A timeout -----

  lemma ExpireOK(s: Cluster, i: nat)
    requires Inv(s) && i < |s.nodes|
    ensures Inv(NextExpire(s, i))
  {
    hide Contiguous; hide Inv; hide HistoryOK; hide NodeOK; hide Untouched; hide Grows; hide Shaped; hide MessageOK;
    ShapedAt(s);
    NodeAt(s, i);
    BaseAt(s.h, i, s.nodes[i], s.full[i]);
    var n, full := s.nodes[i], s.full[i];
    var (n2, request) := Timeout(n);
    ExpireHistoryOK(s.h, i, n, full);
    var h2 := Vote(Stand(Observe(s.h, i, n2.currentTerm), i, full), i, i);
    ExpireNodeOK(s.h, h2, i, n, full);
    MoveKeepsInv(s, i, n2, full, h2, {VoteAsk(request)});
  }

  lemma ShapedAt(s: Cluster)
    requires Inv(s)
    ensures Shaped(s) && |s.nodes| == |s.h.terms| && |s.full| == |s.nodes| && s.h.size == |s.nodes|
  {
    hide HistoryOK; hide NodesOK; hide MessagesOK; hide CommitsOK;
  }

  lemma LogFacts(h: History, i: nat, n: Node, full: seq<Entry>)
    requires NodeOK(h, i, n, full)
    ensures LogPart(h.tl, n.logs, full, n.commitIndex, n.currentTerm) && ConfirmPart(h, i, full)
    ensures LogOK(full, h.tl) && TermsUpTo(full, n.currentTerm)
  {
    hide LogOK; hide TermsUpTo; hide CommitPart; hide VotePart; hide ConfirmPart; hide RolePart; hide BasePart;
  }

  lemma ConfirmInforms(h: History, i: nat, term: nat, full: seq<Entry>)
    requires ConfirmPart(h, i, full)
    ensures Informed(h, i, term, full)
  {
    hide KeptOrDead;
  }

  lemma ExpireHistoryOK(h: History, i: nat, n: Node, full: seq<Entry>)
    requires HistoryOK(h) && NodeOK(h, i, n, full)
    ensures i < |h.terms|
    ensures var h2 := Vote(Stand(Observe(h, i, n.currentTerm + 1), i, full), i, i);
            HistoryOK(h2) && Grows(h, h2) && forall j: nat :: j < |h.terms| && j != i ==> Untouched(h, h2, j)
  {
    hide Contiguous; hide NodeOK; hide HistoryOK; hide Informed; hide LogPart; hide ConfirmPart; hide LogOK;
    hide TermsUpTo; hide Grows; hide Untouched;
    BaseAt(h, i, n, full);
    LogFacts(h, i, n, full);
    var term := n.currentTerm + 1;
    NoBallotYet(h, i, term);
    var h1 := Observe(h, i, term);
    ObserveOK(h, i, term);
    ObserveTouchesNobodyElse(h, i, term);
    SameSize(h, h1);
    var h2 := Stand(h1, i, full);
    StandOK(h1, i, full);
    StandTouchesNobodyElse(h1, i, full);
    GrowsThrough(h, h1, h2);
    ConfirmPartGrows(h, h2, i, full);
    ConfirmInforms(h2, i, term, full);
    var h3 := Vote(h2, i, i);
    VoteOK(h2, i, i);
    VoteTouchesNobodyElse(h2, i, i);
    GrowsThrough(h, h2, h3);
    SameSize(h, h2);
    forall j: nat | j < |h.terms| && j != i ensures Untouched(h, h3, j) {
      UntouchedThrough(h, h1, h2, j);
      UntouchedThrough(h, h2, h3, j);
    }
  }

  lemma SameSize(h: History, h2: History)
    requires Grows(h, h2)
    ensures |h2.terms| == |h.terms|
  {
  }

  lemma StandTouchesNobodyElse(h: History, i: nat, log: seq<Entry>)
    requires HistoryOK(h) && i < |h.terms| && Grows(h, Stand(h, i, log))
    ensures forall j: nat :: j < |h.terms| && j != i ==> Untouched(h, Stand(h, i, log), j)
  {
    hide HistoryOK; hide Grows;
    ElectedHaveLogs(h);
  }

  lemma VoteTouchesNobodyElse(h: History, i: nat, candidate: nat)
    requires HistoryOK(h) && i < |h.terms| && Grows(h, Vote(h, i, candidate))
    ensures forall j: nat :: j < |h.terms| && j != i ==> Untouched(h, Vote(h, i, candidate), j)
  {
    hide HistoryOK; hide Grows;
    ElectedHaveLogs(h);
  }

  lemma ElectTouchesNobodyElse(h: History, term: nat, i: nat, voters: set<nat>, log: seq<Entry>)
    requires HistoryOK(h) && i < |h.terms| && Grows(h, Elect(h, term, i, voters, log)) && term !in h.tl
    ensures forall j: nat :: j < |h.terms| && j != i ==> Untouched(h, Elect(h, term, i, voters, log), j)
  {
    ElectedHaveLogs(h);
    hide HistoryOK; hide Grows;
  }

  lemma ExpireNodeOK(h: History, h2: History, i: nat, n: Node, full: seq<Entry>)
    requires HistoryOK(h) && NodeOK(h, i, n, full) && i < |h.terms|
    requires h2 == Vote(Stand(Observe(h, i, n.currentTerm + 1), i, full), i, i) && Grows(h, h2)
    ensures NodeOK(h2, i, Timeout(n).0, full) && MessageOK(h2, VoteAsk(Timeout(n).1))
  {
    hide Contiguous; hide HistoryOK; hide Grows; hide LogPart; hide ConfirmPart; hide BasePart; hide RolePart;
    hide VotePart; hide CommitPart;
    BaseAt(h, i, n, full);
    NoBallotYet(h, i, n.currentTerm + 1);
    LogFacts(h, i, n, full);
    LastShown(h.tl, n, full);
    LogPartGrows(h, h2, n.logs, full, n.commitIndex, n.currentTerm, n.currentTerm + 1);
    CommitPartGrows(h, h2, n.logs, full, n.commitIndex, n.currentTerm, n.currentTerm + 1);
    ConfirmPartGrows(h, h2, i, full);
    ExpiredParts(h, h2, i, n, full);
  }

  lemma ExpiredParts(h: History, h2: History, i: nat, n: Node, full: seq<Entry>)
    requires i < |h.terms| && n.Valid() && n.me == i && n.peers == h.size == |h.terms| && n.currentTerm == h.terms[i]
    requires h2 == Vote(Stand(Observe(h, i, n.currentTerm + 1), i, full), i, i)
    requires n.currentTerm + 1 in h.elections ==> h.elections[n.currentTerm + 1].leader != i
    requires |full| > 0 && n.Last().index == |full| - 1 && n.Last().term == full[|full| - 1].term
    ensures BasePart(h2, i, Timeout(n).0) && RolePart(h2, i, Timeout(n).0, full)
    ensures VotePart(h2.ballots, i, n.currentTerm + 1, i)
    ensures MessageOK(h2, VoteAsk(Timeout(n).1))
  {
    hide Agree; hide Own; hide Dead;
  }

  // ----- A vote -----

  /** The up-to-date check: the candidate's log has what the voter confirmed. */
  lemma UpToDateInforms(h: History, i: nat, full: seq<Entry>, stood: seq<Entry>, term: nat)
    requires HistoryOK(h) && ConfirmPart(h, i, full) && LogOK(full, h.tl)
    requires LogOK(stood, h.tl)
    requires Newer(stood, full)
    ensures Informed(h, i, term, stood)
  {
    forall t: nat, k: nat | t < term && Own(h, t, k) && Acked(h, t, i) >= k ensures t in h.tl && KeptOrDead(h, stood, t, k) {
      assert KeptOrDead(h, full, t, k);
      if Agree(full, h.tl[t], k) {
        hide Dead; hide ConfirmPart; hide HistoryOK; hide LogOK;
        UpToDateKeeps(h, full, stood, t, k);
      }
    }
  }

  lemma TermLogFacts(h: History)
    requires HistoryOK(h)
    ensures forall t :: t in h.tl ==> t > 0 && LogOK(h.tl[t], h.tl) && TermsUpTo(h.tl[t], t)
  {
    hide LogOK; hide TermsUpTo; hide LeadersComplete; hide VotesInformed; hide ElectionsOK; hide BallotsOK;
    hide CandidatesOK; hide AcksOK;
  }

  lemma KeepsAllAt(h: History, u: nat, t: nat, k: nat)
    requires HistoryOK(h) && u in h.tl && t < u && Own(h, t, k)
    ensures KeptOrDead(h, h.tl[u], t, k)
  {
    assert KeepsAll(h, u, h.tl[u]);
  }

  /** One log at least as up to date as the other, by last term and then by length. */
  ghost predicate Newer(stood: seq<Entry>, full: seq<Entry>) {
    && |stood| > 0 && |full| > 0
    && (stood[|stood| - 1].term > full[|full| - 1].term
        || (stood[|stood| - 1].term == full[|full| - 1].term && |stood| >= |full|))
  }

  lemma UpToDateKeeps(h: History, full: seq<Entry>, stood: seq<Entry>, t: nat, k: nat)
    requires HistoryOK(h) && LogOK(full, h.tl) && LogOK(stood, h.tl) && Newer(stood, full)
    requires Own(h, t, k) && Agree(full, h.tl[t], k)
    ensures KeptOrDead(h, stood, t, k)
  {
    hide HistoryOK; hide LogOK; hide Dead; hide Own; hide Agree;
    var f, c := |full| - 1, |stood| - 1;
    LastTermAtLeast(h, full, t, k);
    OwnInLogs(h, t, k);
    BeyondDummy(stood, h.tl);
    LogAt(stood, h.tl, c);
    LogAt(full, h.tl, f);
    var tc := stood[c].term;
    if tc == full[f].term {
      AgreeShorter(stood, h.tl[tc], c, k);
      AgreeShorter(full, h.tl[tc], f, k);
      SameAgree(stood, h.tl[tc], full, h.tl[t], k);
    } else {
      KeepsAllAt(h, tc, t, k);
      if Agree(h.tl[tc], h.tl[t], k) {
        LaterTermReaches(h, stood, t, k);
        AgreeShorter(stood, h.tl[tc], c, k);
        AgreeThrough(stood, h.tl[tc], h.tl[t], k);
      }
    }
  }

  lemma BeyondDummy(log: seq<Entry>, tl: map<nat, seq<Entry>>)
    requires LogOK(log, tl) && log[|log| - 1].term > 0
    ensures |log| >= 2
  {
  }

  lemma SameAgree(a: seq<Entry>, b: seq<Entry>, c: seq<Entry>, d: seq<Entry>, k: nat)
    requires Agree(a, b, k) && Agree(c, b, k) && Agree(c, d, k)
    ensures Agree(a, d, k)
  {
  }

  lemma LastTermAtLeast(h: History, full: seq<Entry>, t: nat, k: nat)
    requires HistoryOK(h) && LogOK(full, h.tl) && Own(h, t, k) && Agree(full, h.tl[t], k)
    ensures 0 < t <= full[|full| - 1].term && 1 <= k < |full|
  {
    hide HistoryOK;
    TermLogFacts(h);
    AgreeShorter(full, h.tl[t], k, k);
    TermsRise(full, h.tl, k, |full| - 1);
  }

  /** A log whose last term is above t reaches past position k, if the last term's leader has (t, k). */
  lemma LaterTermReaches(h: History, stood: seq<Entry>, t: nat, k: nat)
    requires HistoryOK(h) && LogOK(stood, h.tl) && Own(h, t, k)
    requires stood[|stood| - 1].term > t && stood[|stood| - 1].term in h.tl
    requires Agree(stood, h.tl[stood[|stood| - 1].term], |stood| - 1)
    requires Agree(h.tl[stood[|stood| - 1].term], h.tl[t], k)
    ensures k < |stood|
  {
    hide HistoryOK;
    var c := |stood| - 1;
    var tc := stood[c].term;
    TermLogFacts(h);
    AgreeShorter(h.tl[tc], h.tl[t], k, k);
    AgreeShorter(stood, h.tl[tc], c, c);
    if c < k {
      TermsRise(h.tl[tc], h.tl, c, k);
    }
  }

  /** A follower's vote, recorded. */
  lemma VotedOK(h: History, i: nat, n: Node, full: seq<Entry>, candidate: nat)
    requires HistoryOK(h) && NodeOK(h, i, n, full) && n.role == Follower
    requires At(n.currentTerm, candidate) in h.cands
    requires n.votedFor == NOBODY || n.votedFor == candidate
    requires n.currentTerm > 0 && Informed(h, i, n.currentTerm, h.cands[At(n.currentTerm, candidate)])
    ensures i < |h.terms|
    ensures var h2 := Vote(h, i, candidate);
            && HistoryOK(h2) && Grows(h, h2) && NodeOK(h2, i, Persist(n.(votedFor := candidate)), full)
            && At(n.currentTerm, i) in h2.ballots && h2.ballots[At(n.currentTerm, i)] == candidate
            && forall j: nat :: j < |h.terms| && j != i ==> Untouched(h, h2, j)
  {
    hide Contiguous;
    BaseAt(h, i, n, full);
    VoteRecorded(h, i, n, full, candidate);
    var h2 := Vote(h, i, candidate);
    if n.votedFor == candidate {
      assert h2.ballots == h.ballots;
      assert h2 == h;
      StaysOK(h, i);
      PersistedOK(h, i, n, full);
      hide HistoryOK; hide NodeOK; hide Untouched; hide Grows;
    } else {
      hide Informed;
      VoteOK(h, i, candidate);
      VoteTouchesNobodyElse(h, i, candidate);
      hide HistoryOK; hide Untouched;
      VotedNodeOK(h, h2, i, n, full, candidate);
    }
  }

  lemma VoteRecorded(h: History, i: nat, n: Node, full: seq<Entry>, candidate: nat)
    requires NodeOK(h, i, n, full) && (n.votedFor == NOBODY || n.votedFor == candidate)
    ensures n.votedFor == NOBODY ==> At(n.currentTerm, i) !in h.ballots
    ensures n.votedFor == candidate ==> At(n.currentTerm, i) in h.ballots && h.ballots[At(n.currentTerm, i)] == candidate
  {
    hide LogPart; hide CommitPart; hide ConfirmPart; hide RolePart; hide BasePart;
  }

  lemma VotedNodeOK(h: History, h2: History, i: nat, n: Node, full: seq<Entry>, candidate: nat)
    requires HistoryOK(h) && NodeOK(h, i, n, full) && n.role == Follower && i < |h.terms|
    requires h2 == Vote(h, i, candidate) && Grows(h, h2)
    ensures NodeOK(h2, i, Persist(n.(votedFor := candidate)), full)
  {
    hide Contiguous; hide HistoryOK; hide LogPart; hide CommitPart; hide ConfirmPart; hide Grows; hide LeaderPart;
    hide CandidatePart;
    BaseAt(h, i, n, full);
    LogPartGrows(h, h2, n.logs, full, n.commitIndex, n.currentTerm, n.currentTerm);
    CommitPartGrows(h, h2, n.logs, full, n.commitIndex, n.currentTerm, n.currentTerm);
    ConfirmPartGrows(h, h2, i, full);
  }

  /** What the voter does, by cases on the term: refuse, or answer as a follower of the request's term. */
  lemma AnswerVoteOK(s: Cluster, i: nat, m: Message)
    requires Inv(s) && i < |s.nodes| && m in s.msgs && m.VoteAsk? && m.vote.candidate != i
    ensures Inv(NextAnswerVote(s, i, m))
  {
    hide Contiguous; hide Inv; hide HistoryOK; hide Untouched; hide Grows; hide Shaped; hide NodeOK; hide MessageOK;
    ShapedAt(s);
    NodeAt(s, i);
    MessageAt(s, m);
    var n, full, r := s.nodes[i], s.full[i], m.vote;
    BaseAt(s.h, i, n, full);
    var (n2, response) := RequestVote(n, r);
    AnswerVoteNodeOK(s.h, i, n, full, m);
    var h := Observe(s.h, i, n2.currentTerm);
    MoveKeepsInv(s, i, n2, full, if response.granted then Vote(h, i, r.candidate) else h, {VoteAnswer(i, r, response)});
  }

  lemma MessageAt(s: Cluster, m: Message)
    requires Inv(s) && m in s.msgs
    ensures MessageOK(s.h, m)
  {
    hide HistoryOK; hide NodesOK; hide CommitsOK; hide MessageOK;
  }

  lemma StaysOK(h: History, i: nat)
    requires HistoryOK(h)
    ensures Grows(h, h) && forall j: nat :: j < |h.terms| ==> Untouched(h, h, j)
  {
    ElectedHaveLogs(h);
    hide HistoryOK;
    assert Grows(h, h);
    hide Grows;
  }

  lemma AnswerVoteNodeOK(h: History, i: nat, n: Node, full: seq<Entry>, m: Message)
    requires HistoryOK(h) && NodeOK(h, i, n, full) && n.Valid() && i < |h.terms|
    requires m.VoteAsk? && MessageOK(h, m) && m.vote.candidate != i
    ensures var (n2, response) := RequestVote(n, m.vote);
            var h1 := Observe(h, i, n2.currentTerm);
            var h2 := if response.granted then Vote(h1, i, m.vote.candidate) else h1;
            && HistoryOK(h2) && Grows(h, h2) && NodeOK(h2, i, n2, full)
            && MessageOK(h2, VoteAnswer(i, m.vote, response))
            && forall j: nat :: j < |h.terms| && j != i ==> Untouched(h, h2, j)
  {
    hide Contiguous; hide NodeOK; hide HistoryOK; hide Untouched; hide Grows; hide MessageOK;
    var r := m.vote;
    BaseAt(h, i, n, full);
    StaysOK(h, i);
    SameTermObserve(h, i);
    var (n2, response) := RequestVote(n, r);
    if r.term < n.currentTerm || (r.term == n.currentTerm && n.votedFor != NOBODY && n.votedFor != r.candidate) {
      PersistedOK(h, i, n, full);
      NotGranted(h, i, r, response);
    } else {
      var p := Persist(if r.term > n.currentTerm then StepDown(n, r.term) else n);
      var h1 := Observe(h, i, r.term);
      if r.term > n.currentTerm {
        SeenOK(h, i, n, full, p);
        ObserveOK(h, i, r.term);
        ObserveTouchesNobodyElse(h, i, r.term);
      } else {
        VoterIsFollower(h, i, n, full, r.candidate);
        PersistedOK(h, i, n, full);
      }
      assert if response.granted then n2 == Persist(p.(votedFor := r.candidate)) else n2 == p;
      assert response.granted == UpToDate(p, r.lastLogTerm, r.lastLogIndex) && response.term == r.term;
      assert p.role == Follower && p.currentTerm == r.term && (p.votedFor == NOBODY || p.votedFor == r.candidate);
      assert n2.currentTerm == r.term;
           
      FollowerAnswerOK(h, h1, i, p, full, m);
      if !response.granted {
        NotGranted(h1, i, r, response);
      }
    }
  }

  lemma FollowerAnswerOK(h: History, h1: History, i: nat, p: Node, full: seq<Entry>, m: Message)
    requires HistoryOK(h1) && Grows(h, h1) && NodeOK(h1, i, p, full) && |p.logs| > 0 && i < |h1.terms|
    requires forall j: nat :: j < |h.terms| && j != i ==> Untouched(h, h1, j)
    requires m.VoteAsk? && MessageOK(h, m)
    requires p.currentTerm == m.vote.term && p.role == Follower
    requires p.votedFor == NOBODY || p.votedFor == m.vote.candidate
    ensures UpToDate(p, m.vote.lastLogTerm, m.vote.lastLogIndex) ==>
              var h2 := Vote(h1, i, m.vote.candidate);
              && HistoryOK(h2) && Grows(h, h2) && NodeOK(h2, i, Persist(p.(votedFor := m.vote.candidate)), full)
              && MessageOK(h2, VoteAnswer(i, m.vote, VoteResponse(p.currentTerm, true)))
              && forall j: nat :: j < |h.terms| && j != i ==> Untouched(h, h2, j)
  {
    hide NodeOK; hide HistoryOK; hide Untouched; hide Grows; hide MessageOK; hide UpToDate; hide Vote; hide Persist;
    MessageGrows(h, h1, m);
    FollowerVoteOK(h1, i, p, full, m);
    if UpToDate(p, m.vote.lastLogTerm, m.vote.lastLogIndex) {
      SameSize(h, h1);
      GrowsThrough(h, h1, Vote(h1, i, m.vote.candidate));
      forall j: nat | j < |h.terms| && j != i ensures Untouched(h, Vote(h1, i, m.vote.candidate), j) {
        UntouchedThrough(h, h1, Vote(h1, i, m.vote.candidate), j);
      }
    }
  }

  lemma NotGranted(h: History, i: nat, r: VoteRequest, response: VoteResponse)
    requires !response.granted
    ensures MessageOK(h, VoteAnswer(i, r, response))
  {
  }

  lemma GrowsThrough(h: History, h1: History, h2: History)
    requires Grows(h, h1) && Grows(h1, h2)
    ensures Grows(h, h2)
  {
  }

  lemma VoterIsFollower(h: History, i: nat, n: Node, full: seq<Entry>, candidate: nat)
    requires NodeOK(h, i, n, full) && candidate != i && (n.votedFor == NOBODY || n.votedFor == candidate)
    ensures n.role == Follower
  {
    hide LogPart; hide CommitPart; hide ConfirmPart; hide LeaderPart; hide CandidatePart;
  }

  /** A follower in the request's term that may still vote for the candidate. */
  lemma FollowerVoteOK(h: History, i: nat, n: Node, full: seq<Entry>, m: Message)
    requires HistoryOK(h) && NodeOK(h, i, n, full) && |n.logs| > 0 && i < |h.terms|
    requires m.VoteAsk? && MessageOK(h, m)
    requires n.currentTerm == m.vote.term && n.role == Follower
    requires n.votedFor == NOBODY || n.votedFor == m.vote.candidate
    ensures UpToDate(n, m.vote.lastLogTerm, m.vote.lastLogIndex) ==>
              var h2 := Vote(h, i, m.vote.candidate);
              && HistoryOK(h2) && Grows(h, h2) && NodeOK(h2, i, Persist(n.(votedFor := m.vote.candidate)), full)
              && MessageOK(h2, VoteAnswer(i, m.vote, VoteResponse(n.currentTerm, true)))
              && forall j: nat :: j < |h.terms| && j != i ==> Untouched(h, h2, j)
  {
    hide Contiguous;
    var r := m.vote;
    if UpToDate(n, r.lastLogTerm, r.lastLogIndex) {
      BaseAt(h, i, n, full);
      VoterInformed(h, i, n, full, m);
      hide NodeOK; hide HistoryOK; hide Informed; hide Untouched; hide Grows;
      VotedOK(h, i, n, full, r.candidate);
    }
  }

  lemma VoterInformed(h: History, i: nat, n: Node, full: seq<Entry>, m: Message)
    requires HistoryOK(h) && NodeOK(h, i, n, full) && |n.logs| > 0 && m.VoteAsk? && MessageOK(h, m)
    requires UpToDate(n, m.vote.lastLogTerm, m.vote.lastLogIndex)
    ensures var a := At(m.vote.term, m.vote.candidate); a in h.cands && a.term > 0 && Informed(h, i, a.term, h.cands[a])
  {
    var a := At(m.vote.term, m.vote.candidate);
    CandidateFacts(h, a);
    assert LogPart(h.tl, n.logs, full, n.commitIndex, n.currentTerm) && ConfirmPart(h, i, full);
    hide NodeOK; hide HistoryOK;
    LastShown(h.tl, n, full);
    assert LogOK(full, h.tl);
    hide LogPart; hide LogOK; hide ConfirmPart;
    UpToDateInforms(h, i, full, h.cands[a], a.term);
  }

  // ----- Counting votes -----

  lemma CountVoteOK(s: Cluster, i: nat, m: Message)
    requires Inv(s) && i < |s.nodes| && m in s.msgs && m.VoteAnswer? && m.vote.candidate == i
    ensures Inv(NextCountVote(s, i, m))
  {
    hide Contiguous; hide Inv; hide HistoryOK; hide Untouched; hide Grows; hide Shaped; hide NodeOK; hide MessageOK;
    ShapedAt(s);
    NodeAt(s, i);
    MessageAt(s, m);
    var n, full := s.nodes[i], s.full[i];
    BaseAt(s.h, i, n, full);
    CountVoteNodeOK(s.h, i, n, full, m);
    var n2 := HandleVoteReply(n, m.from, m.vote, m.voted);
    var h := Observe(s.h, i, n2.currentTerm);
    MoveKeepsInv(s, i, n2, full,
                 if n2.role == Leader && n.role != Leader then Elect(h, n2.currentTerm, i, n2.granters, full) else h, {});
  }

  lemma CountVoteNodeOK(h: History, i: nat, n: Node, full: seq<Entry>, m: Message)
    requires HistoryOK(h) && NodeOK(h, i, n, full) && n.Valid() && i < |h.terms|
    requires m.VoteAnswer? && MessageOK(h, m) && m.vote.candidate == i
    ensures var n2 := HandleVoteReply(n, m.from, m.vote, m.voted);
            var h1 := Observe(h, i, n2.currentTerm);
            var h2 := if n2.role == Leader && n.role != Leader then Elect(h1, n2.currentTerm, i, n2.granters, full) else h1;
            && HistoryOK(h2) && Grows(h, h2) && NodeOK(h2, i, n2, full)
            && forall j: nat :: j < |h.terms| && j != i ==> Untouched(h, h2, j)
  {
    hide Contiguous; hide NodeOK; hide HistoryOK; hide Untouched; hide Grows; hide MessageOK;
    BaseAt(h, i, n, full);
    StaysOK(h, i);
    SameTermObserve(h, i);
    var n2 := HandleVoteReply(n, m.from, m.vote, m.voted);
    if n.currentTerm == m.vote.term && n.role == Candidate {
      if m.voted.granted {
        CountedOK(h, i, n, full, m);
        var p := n.(granters := n.granters + {m.from});
        if |p.granters| > p.peers / 2 {
          WonOK(h, i, p, full);
        }
      } else if m.voted.term > n.currentTerm {
        SeenOK(h, i, n, full, n2);
        ObserveOK(h, i, n2.currentTerm);
        ObserveTouchesNobodyElse(h, i, n2.currentTerm);
      }
    }
  }

  lemma CountedOK(h: History, i: nat, n: Node, full: seq<Entry>, m: Message)
    requires HistoryOK(h) && NodeOK(h, i, n, full) && n.role == Candidate
    requires m.VoteAnswer? && MessageOK(h, m) && m.vote.candidate == i && m.vote.term == n.currentTerm && m.voted.granted
    ensures NodeOK(h, i, n.(granters := n.granters + {m.from}), full)
  {
    hide Contiguous; hide HistoryOK; hide LogPart; hide CommitPart; hide ConfirmPart; hide Supersedes; hide VotePart;
  }

  /** No one can have been elected before in the term of a candidate with a majority. */
  lemma TermIsFree(h: History, i: nat, term: nat, granters: set<nat>)
    requires HistoryOK(h) && granters <= Range(h.size) && Majority(h.size, granters)
    requires forall v :: v in granters ==> At(term, v) in h.ballots && h.ballots[At(term, v)] == i
    requires term in h.elections ==> h.elections[term].leader != i
    ensures term !in h.tl
  {
    hide LeadersComplete; hide VotesInformed; hide LogOK; hide TermsUpTo; hide BallotsOK; hide CandidatesOK;
    hide AcksOK;
    if term in h.tl {
      var e := h.elections[term];
      assert ElectionOK(term, e, h.size, h.terms, h.ballots);
      assert granters * e.voters == {};
      MajoritiesMeet(h.size, granters, e.voters);
    }
  }

  lemma BelowUnusedTerm(full: seq<Entry>, tl: map<nat, seq<Entry>>, term: nat)
    requires LogOK(full, tl) && TermsUpTo(full, term) && term !in tl && term > 0
    ensures TermsUpTo(full, term - 1)
  {
  }

  lemma CandidateElectable(h: History, i: nat, n: Node, full: seq<Entry>)
    requires HistoryOK(h) && NodeOK(h, i, n, full) && n.role == Candidate && |n.granters| > n.peers / 2
    ensures Electable(h, n.currentTerm, i, n.granters, full)
  {
    hide CommitPart; hide ConfirmPart; hide Supersedes; hide VotePart; hide LogOK; hide TermsUpTo; hide HistoryOK;
    var term := n.currentTerm;
    assert Majority(h.size, n.granters);
    TermIsFree(h, i, term, n.granters);
    CandidateFacts(h, At(term, i));
    BelowUnusedTerm(full, h.tl, term);
  }

  /** The winner's array is anchored: its log has every entry that was committed before. */
  lemma WinnerAnchored(h: History, i: nat, n: Node, full: seq<Entry>)
    requires HistoryOK(h) && NodeOK(h, i, n, full) && Electable(h, n.currentTerm, i, n.granters, full)
    ensures Anchored(n.logs, full)
  {
    if !Anchored(n.logs, full) {
      var t, k :| CommittedVia(h, n.logs, full, n.commitIndex, n.currentTerm, t, k);
      ElectedKeepsAll(h, n.currentTerm, i, n.granters, full);
      hide HistoryOK; hide ConfirmPart; hide RolePart; hide VotePart; hide LogOK; hide Supersedes; hide Elected;
      hide Acks;
      assert t in h.tl && t != n.currentTerm;
      assert KeptOrDead(h, full, t, k);
      ChosenNotDead(h, t, k);
      AgreeShorter(full, h.tl[t], k, n.First());
    }
  }

  lemma WonOK(h: History, i: nat, n: Node, full: seq<Entry>)
    requires HistoryOK(h) && NodeOK(h, i, n, full) && n.role == Candidate && |n.granters| > n.peers / 2
    ensures n.Valid() && i < |h.terms|
    ensures var n2 := ChangeRole(n, Leader);
            var h2 := Elect(h, n.currentTerm, i, n.granters, full);
            && HistoryOK(h2) && Grows(h, h2) && NodeOK(h2, i, n2, full)
            && forall j: nat :: j < |h.terms| && j != i ==> Untouched(h, h2, j)
  {
    hide Contiguous; hide HistoryOK; hide Untouched; hide Grows; hide Anchored; hide NodeOK; hide Electable;
    BaseAt(h, i, n, full);
    CandidateElectable(h, i, n, full);
    WinnerAnchored(h, i, n, full);
    var h2 := Elect(h, n.currentTerm, i, n.granters, full);
    ElectOK(h, n.currentTerm, i, n.granters, full);
    FreeTerm(h, n.currentTerm, i, n.granters, full);
    ElectTouchesNobodyElse(h, n.currentTerm, i, n.granters, full);
    LeaderNodeOK(h, h2, i, n, full);
  }

  lemma FreeTerm(h: History, term: nat, leader: nat, voters: set<nat>, log: seq<Entry>)
    requires Electable(h, term, leader, voters, log)
    ensures term !in h.tl
  {
  }

  lemma LeaderNodeOK(h: History, h2: History, i: nat, n: Node, full: seq<Entry>)
    requires HistoryOK(h) && NodeOK(h, i, n, full) && n.role == Candidate && Anchored(n.logs, full)
    requires h2 == Elect(h, n.currentTerm, i, n.granters, full) && Grows(h, h2)
    ensures n.Valid() && NodeOK(h2, i, ChangeRole(n, Leader), full)
  {
    hide Contiguous; hide HistoryOK; hide LogPart; hide CommitPart; hide ConfirmPart; hide Grows; hide CandidatePart;
    hide Anchored;
    BaseAt(h, i, n, full);
    LogPartGrows(h, h2, n.logs, full, n.commitIndex, n.currentTerm, n.currentTerm);
    CommitPartGrows(h, h2, n.logs, full, n.commitIndex, n.currentTerm, n.currentTerm);
    ConfirmPartGrows(h, h2, i, full);
    LastShown(h.tl, n, full);
  }

  // ----- A crash and restart -----

  lemma CrashOK(s: Cluster, i: nat)
    requires Inv(s) && i < |s.nodes|
    ensures var saved := s.nodes[i].saved; saved.Some? ==> Contiguous(saved.value.logs)
    ensures Inv(NextCrash(s, i))
  {
    hide Inv; hide HistoryOK; hide Untouched; hide Grows; hide NodeOK;
    NodeAt(s, i);
    ShapedAt(s);
    var n, full := s.nodes[i], s.full[i];
    RestartedOK(s.h, i, n, full);
    StaysOK(s.h, i);
    MoveKeepsInv(s, i, Restart(n.me, n.peers, n.saved, n.snapshot), full, s.h, {});
  }

  lemma RestartedOK(h: History, i: nat, n: Node, full: seq<Entry>)
    requires NodeOK(h, i, n, full)
    ensures n.saved.Some? ==> Contiguous(n.saved.value.logs)
    ensures NodeOK(h, i, Restart(n.me, n.peers, n.saved, n.snapshot), full)
  {
    var n2 := Restart(n.me, n.peers, n.saved, n.snapshot);
    assert n2.logs == n.logs && n2.currentTerm == n.currentTerm && n2.votedFor == n.votedFor;
    assert CommitPart(h, n2.logs, full, n2.commitIndex, n2.currentTerm) by {
      hide ConfirmPart; hide RolePart; hide VotePart; hide LogOK;
      if n2.commitIndex > 0 {
        var t, k :| CommittedVia(h, n.logs, full, n.commitIndex, n.currentTerm, t, k);
        if Anchored(n.logs, full) {
          AgreeShorter(full, h.tl[t], n.commitIndex, n2.commitIndex);
        }
        assert CommittedVia(h, n2.logs, full, n2.commitIndex, n2.currentTerm, t, k);
      }
    }
    hide ConfirmPart; hide VotePart; hide LogOK; hide CommitPart; hide LeaderPart; hide CandidatePart;
  }
}
