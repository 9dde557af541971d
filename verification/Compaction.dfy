/** Compaction is a refinement: a node with a cut array acts as one with the whole log. */
module Compaction {
  import opened RaftTypes
  import opened RaftHandlers
  import opened MajorityIndex

  // A node whose array starts at a dummy for index c answers every message about indexes from
  // c on as the node that kept its whole log, and cutting the array at a committed index is a
  // step in which the uncompacted node does nothing.

  /** The log from index c on, its entry at c turned into the dummy. */
  function Cut(logs: seq<Entry>, c: nat): seq<Entry>
    requires Contiguous(logs) && logs[0].index <= c < logs[0].index + |logs|
  {
    CutAt(logs, c, logs[c - logs[0].index].term)
  }

  /**
    * n shows u's log from index c on, and nothing else tells them apart but what they stored
    * and where they would try a peer next, which is only a hint.
    */
  ghost predicate Window(n: Node, u: Node, c: nat) {
    && u.Valid() && u.First() <= c <= u.commitIndex
    && n.logs == Cut(u.logs, c) && |n.nextIndex| == u.peers
    && n == u.(logs := n.logs, saved := n.saved, snapshot := n.snapshot, nextIndex := n.nextIndex)
  }

  // ----- Reading the window -----

  lemma CutAtIndex(logs: seq<Entry>, c: nat, index: nat)
    requires Contiguous(logs) && logs[0].index <= c <= index < logs[0].index + |logs|
    ensures var cut := Cut(logs, c);
            && Contiguous(cut) && cut[0].index == c && |cut| == |logs| - (c - logs[0].index)
            && cut[index - c].term == logs[index - logs[0].index].term
            && cut[index - c].index == index
            && (index > c ==> cut[index - c] == logs[index - logs[0].index])
  {
    CutFacts(logs, c, logs[c - logs[0].index].term);
    hide Contiguous;
    if index > c { assert Cut(logs, c)[index - c] == logs[c - logs[0].index + (index - c)]; }
  }

  lemma WindowFacts(n: Node, u: Node, c: nat)
    requires Window(n, u, c)
    ensures |n.logs| > 0 && |u.logs| > 0 && Contiguous(n.logs) && Contiguous(u.logs)
    ensures n.Valid() && u.Valid() && n.First() == c && u.First() <= c
    ensures n.Last().index == u.Last().index && n.Last().term == u.Last().term
    ensures n.role == u.role && n.currentTerm == u.currentTerm && n.votedFor == u.votedFor && n.me == u.me && n.peers == u.peers
    ensures n.commitIndex == u.commitIndex && n.matchIndex == u.matchIndex
    ensures |n.nextIndex| == |u.nextIndex| == |u.matchIndex| == u.peers
  {
    CutAtIndex(u.logs, c, u.Last().index);
  }

  lemma SameMatch(n: Node, u: Node, c: nat, term: nat, index: nat)
    requires Window(n, u, c) && index >= c
    ensures Contiguous(n.logs) && n.First() <= index && u.First() <= index
    ensures MatchLog(n, term, index) == MatchLog(u, term, index)
  {
    WindowFacts(n, u, c);
    if index <= u.Last().index { CutAtIndex(u.logs, c, index); }
  }

  // ----- Elections -----

  lemma SameRole(n: Node, u: Node, c: nat, role: Role)
    requires Window(n, u, c)
    ensures |n.logs| > 0 && Window(ChangeRole(n, role), ChangeRole(u, role), c)
  {
    WindowFacts(n, u, c);
    hide Contiguous; hide Cut;
  }

  lemma SameStepDown(n: Node, u: Node, c: nat, term: nat)
    requires Window(n, u, c)
    ensures |n.logs| > 0 && Window(StepDown(n, term), StepDown(u, term), c)
  {
    SameRole(n, u, c, Follower);
    hide Contiguous; hide Cut; hide ChangeRole;
  }

  lemma SamePersist(n: Node, u: Node, c: nat)
    requires Window(n, u, c)
    ensures Window(Persist(n), Persist(u), c)
  {
    hide Contiguous; hide Cut;
  }

  /** A time-out asks for votes with the same request. */
  lemma TimeoutSame(n: Node, u: Node, c: nat)
    requires Window(n, u, c)
    ensures |n.logs| > 0
    ensures var (n2, request) := Timeout(n); var (u2, same) := Timeout(u);
            request == same && Window(n2, u2, c)
  {
    WindowFacts(n, u, c);
    SameRole(n, u, c, Candidate);
    hide Contiguous; hide Cut;
  }

  /** A vote request gets the same answer. */
  lemma RequestVoteSame(n: Node, u: Node, c: nat, request: VoteRequest)
    requires Window(n, u, c)
    ensures |n.logs| > 0
    ensures var (n2, response) := RequestVote(n, request); var (u2, same) := RequestVote(u, request);
            response == same && Window(n2, u2, c)
  {
    hide Contiguous; hide Cut; hide Window; hide Persist; hide StepDown;
    WindowFacts(n, u, c);
    SameStepDown(n, u, c, request.term);
    SamePersist(n, u, c);
    var n1 := if request.term > n.currentTerm then StepDown(n, request.term) else n;
    var u1 := if request.term > u.currentTerm then StepDown(u, request.term) else u;
    WindowFacts(n1, u1, c);
    SamePersist(n1, u1, c);
    SameVote(n1, u1, c, request.candidate);
    SamePersist(n1.(votedFor := request.candidate), u1.(votedFor := request.candidate), c);
  }

  lemma SameVote(n: Node, u: Node, c: nat, candidate: int)
    requires Window(n, u, c)
    ensures Window(n.(votedFor := candidate), u.(votedFor := candidate), c)
  {
    hide Contiguous; hide Cut;
  }

  lemma VoteReplySame(n: Node, u: Node, c: nat, from: nat, request: VoteRequest, response: VoteResponse)
    requires Window(n, u, c)
    ensures |n.logs| > 0 && Window(HandleVoteReply(n, from, request, response), HandleVoteReply(u, from, request, response), c)
  {
    hide Contiguous; hide Cut; hide Window; hide Persist; hide ChangeRole; hide StepDown;
    WindowFacts(n, u, c);
    SameGranters(n, u, c, n.granters + {from});
    SameRole(n.(granters := n.granters + {from}), u.(granters := n.granters + {from}), c, Leader);
    SameStepDown(n, u, c, response.term);
    SamePersist(StepDown(n, response.term), StepDown(u, response.term), c);
  }

  lemma SameGranters(n: Node, u: Node, c: nat, granters: set<nat>)
    requires Window(n, u, c)
    ensures n.granters == u.granters && Window(n.(granters := granters), u.(granters := granters), c)
  {
    hide Contiguous; hide Cut;
  }

  // ----- Replication -----

  /** From the dummy on, a leader sends the same requests. */
  lemma AppendRequestSame(n: Node, u: Node, c: nat, prev: nat)
    requires Window(n, u, c) && c <= prev <= u.Last().index
    ensures Contiguous(n.logs) && n.First() <= prev <= n.Last().index
    ensures AppendRequestFor(n, prev) == AppendRequestFor(u, prev)
  {
    WindowFacts(n, u, c);
    CutAtIndex(u.logs, c, prev);
    var first := u.First();
    assert n.logs[prev + 1 - c..] == u.logs[prev + 1 - first..];
  }

  lemma {:induction false} ReconcileSame(logs: seq<Entry>, c: nat, entries: seq<Entry>, k: nat)
    requires Contiguous(logs) && logs[0].index <= c < logs[0].index + |logs| && k <= |entries|
    requires forall j :: 0 <= j < |entries| ==> entries[j].index == entries[0].index + j
    requires k < |entries| ==> c < entries[k].index <= logs[0].index + |logs|
    ensures var cut := Cut(logs, c); var r := Reconcile(logs, entries, k);
            && Contiguous(cut) && cut[0].index == c && |cut| == |logs| - (c - logs[0].index)
            && c < r[0].index + |r| && Reconcile(cut, entries, k) == Cut(r, c)
    decreases |entries| - k
  {
    hide Contiguous; hide Cut;
    CutAtIndex(logs, c, c);
    if k < |entries| {
      var first, index := logs[0].index, entries[k].index;
      if index < first + |logs| {
        CutAtIndex(logs, c, index);
      }
      if index < first + |logs| && logs[index - first].term == entries[k].term {
        ReconcileSame(logs, c, entries, k + 1);
      } else {
        assert Reconcile(logs, entries, k) == logs[..index - first] + entries[k..];
        SplicedCut(logs, c, index, entries[k..]);
      }
    }
  }

  lemma SplicedCut(logs: seq<Entry>, c: nat, index: nat, tail: seq<Entry>)
    requires Contiguous(logs) && logs[0].index <= c < index <= logs[0].index + |logs|
    requires Contiguous(logs[..index - logs[0].index] + tail)
    ensures Contiguous(Cut(logs, c)) && index - c <= |Cut(logs, c)|
    ensures Cut(logs, c)[..index - c] + tail == Cut(logs[..index - logs[0].index] + tail, c)
  {
    var first := logs[0].index;
    CutAtIndex(logs, c, c);
    var r := logs[..index - first] + tail;
    assert Cut(logs, c)[..index - c] + tail == [Entry(c, logs[c - first].term, NoCommand)] + r[c - first + 1..];
  }

  /** The conflict scan stops at the dummy. */
  lemma {:induction false} ConflictScanSame(logs: seq<Entry>, c: nat, at: int, term: nat)
    requires Contiguous(logs) && logs[0].index <= c < logs[0].index + |logs| && c - 1 <= at < logs[0].index + |logs|
    ensures var cut := Cut(logs, c);
            && Contiguous(cut) && cut[0].index == c && |cut| == |logs| - (c - logs[0].index)
            && ConflictScan(cut, at, term) == Max(ConflictScan(logs, at, term), c - 1)
    decreases at - c + 1
  {
    CutAtIndex(logs, c, c);
    if at >= c {
      CutAtIndex(logs, c, at);
      if logs[at - logs[0].index].term == term { ConflictScanSame(logs, c, at - 1, term); }
    }
  }

  /** The same answer, except that a conflict below the dummy is reported right before it. */
  ghost predicate SameAnswer(response: AppendResponse, same: AppendResponse, c: nat) {
    response == same
    || (!same.success && response == same.(conflictIndex := Max(same.conflictIndex, c - 1)))
  }

  lemma RejectionSame(n: Node, u: Node, c: nat, request: AppendRequest)
    requires Window(n, u, c) && request.prevLogIndex >= c
    ensures Contiguous(n.logs) && n.First() <= request.prevLogIndex
    ensures !Rejection(u, request).success && SameAnswer(Rejection(n, request), Rejection(u, request), c)
  {
    WindowFacts(n, u, c);
    var prev := request.prevLogIndex;
    if prev <= u.Last().index {
      CutAtIndex(u.logs, c, prev);
      ConflictScanSame(u.logs, c, prev - 1, u.logs[prev - u.First()].term);
    }
  }

  lemma ObserveSame(n: Node, u: Node, c: nat, term: nat)
    requires Window(n, u, c)
    ensures |n.logs| > 0 && Window(ObserveLeader(n, term), ObserveLeader(u, term), c)
  {
    WindowFacts(n, u, c);
    hide Contiguous; hide Cut;
  }

  /** An accepted request leaves the same log behind, seen through the same window. */
  lemma AcceptSame(n: Node, u: Node, c: nat, request: AppendRequest)
    requires Window(n, u, c) && Continues(request) && request.prevLogIndex >= c && request.prevLogIndex <= u.Last().index
    ensures Contiguous(n.logs) && n.First() == c && |n.logs| == |u.logs| - (c - u.First())
    ensures var r := Reconcile(u.logs, request.entries, 0);
            && c < r[0].index + |r| && Reconcile(n.logs, request.entries, 0) == Cut(r, c)
            && |Cut(r, c)| > 0 && Cut(r, c)[|Cut(r, c)| - 1].index == r[|r| - 1].index
  {
    WindowFacts(n, u, c);
    ReconcileSame(u.logs, c, request.entries, 0);
    var r := Reconcile(u.logs, request.entries, 0);
    CutAtIndex(r, c, r[|r| - 1].index);
  }

  /** A request about indexes from the dummy on gets the same answer and the same effect. */
  lemma AppendEntriesSame(n: Node, u: Node, c: nat, request: AppendRequest)
    requires Window(n, u, c) && Continues(request) && request.prevLogIndex >= c
    ensures n.Valid()
    ensures var (n2, response) := AppendEntries(n, request); var (u2, same) := AppendEntries(u, request);
            SameAnswer(response, same, c) && Answered(n2, u2, c)
  {
    hide Contiguous; hide Cut; hide Window; hide Persist; hide ObserveLeader; hide Reconcile; hide Rejection;
    hide Continues; hide MatchLog;
    WindowFacts(n, u, c);
    if request.term < u.currentTerm {
      SamePersist(n, u, c);
      AnsweredAt(Persist(n), Persist(u), c);
    } else {
      ObserveSame(n, u, c, request.term);
      var n1, u1 := ObserveLeader(n, request.term), ObserveLeader(u, request.term);
      WindowFacts(n1, u1, c);
      SameMatch(n1, u1, c, request.prevLogTerm, request.prevLogIndex);
      RejectionSame(n1, u1, c, request);
      SamePersist(n1, u1, c);
      AnsweredAt(Persist(n1), Persist(u1), c);
      if MatchLog(u1, request.prevLogTerm, request.prevLogIndex) {
        MatchInside(u1, request.prevLogTerm, request.prevLogIndex);
        AcceptSame(n1, u1, c, request);
        AcceptedSame(n1, u1, c, request);
      }
    }
  }

  /** What the two nodes look like after any answer: the same but for the window. */
  ghost predicate Answered(n: Node, u: Node, c: nat) {
    && n == u.(logs := n.logs, saved := n.saved, snapshot := n.snapshot, nextIndex := n.nextIndex)
    && |n.nextIndex| == u.peers
    && Contiguous(u.logs) && u.First() <= c < u.First() + |u.logs| && n.logs == Cut(u.logs, c)
  }

  lemma AnsweredAt(n: Node, u: Node, c: nat)
    requires Window(n, u, c)
    ensures Answered(n, u, c)
  {
    hide Cut;
  }

  lemma MatchInside(u: Node, term: nat, index: nat)
    requires Contiguous(u.logs) && u.First() <= index && MatchLog(u, term, index)
    ensures index <= u.Last().index
  {
  }

  /** The accepting branch of the handler. */
  function Took(n: Node, request: AppendRequest, logs: seq<Entry>): Node
    requires |logs| > 0
  {
    Persist(n.(logs := logs, commitIndex := Max(n.commitIndex, Min(request.leaderCommit, logs[|logs| - 1].index))))
  }

  lemma AcceptedSame(n: Node, u: Node, c: nat, request: AppendRequest)
    requires Window(n, u, c) && Continues(request) && c <= request.prevLogIndex <= u.Last().index
    ensures Contiguous(n.logs) && n.First() == c && |n.logs| == |u.logs| - (c - u.First())
    ensures Answered(Took(n, request, Reconcile(n.logs, request.entries, 0)), Took(u, request, Reconcile(u.logs, request.entries, 0)), c)
  {
    AcceptSame(n, u, c, request);
    hide Cut; hide Reconcile; hide Continues;
  }

  lemma AdvanceSame(n: Node, u: Node, c: nat)
    requires Window(n, u, c)
    ensures n.Valid() && Window(AdvanceCommit(n), AdvanceCommit(u), c)
  {
    WindowFacts(n, u, c);
    var candidate := MajorityMatch(u.matchIndex);
    if candidate > u.commitIndex {
      SameMatch(n, u, c, u.currentTerm, candidate);
    }
    hide Cut; hide Contiguous; hide IsMajorityMatch;
  }

  /** The leader's scan for the conflicting term finds the same entry, unless only one below the dummy has it. */
  lemma {:induction false} TermScanSame(logs: seq<Entry>, c: nat, at: int, term: int)
    requires Contiguous(logs) && logs[0].index <= c < logs[0].index + |logs| && at < logs[0].index + |logs|
    ensures var cut := Cut(logs, c); var hit := TermScan(logs, at, term);
            && Contiguous(cut) && cut[0].index == c && |cut| == |logs| - (c - logs[0].index)
            && TermScan(cut, at, term) == if hit.Some? && hit.value < c then None else hit
    decreases at - c + 1
  {
    CutAtIndex(logs, c, c);
    if at >= c {
      CutAtIndex(logs, c, at);
      if logs[at - logs[0].index].term != term { TermScanSame(logs, c, at - 1, term); }
    }
  }

  /** The leader looks for its last entry of the conflicting term, as the code does for these replies only. */
  predicate Scans(leader: Node, request: AppendRequest, response: AppendResponse) {
    && leader.role == Leader && leader.currentTerm == request.term
    && !response.success && response.term == leader.currentTerm && response.conflictTerm != -1
  }

  /** The scan finds that entry, and finds it below the dummy of a log cut at c. */
  predicate FoundBelow(leader: Node, c: nat, request: AppendRequest, response: AppendResponse)
    requires Contiguous(leader.logs) && request.prevLogIndex <= leader.Last().index
  {
    var hit := TermScan(leader.logs, request.prevLogIndex, response.conflictTerm);
    response.conflictTerm != -1 && hit.Some? && hit.value < c
  }

  /** Every reply is counted alike; the hint for the peer is the same too unless the scan hits below the dummy. */
  lemma AppendReplySame(n: Node, u: Node, c: nat, peer: nat, request: AppendRequest, response: AppendResponse)
    requires Window(n, u, c) && peer < u.peers
    requires u.role == Leader && u.currentTerm == request.term ==> request.prevLogIndex <= u.Last().index
    ensures n.Valid()
    ensures n.role == Leader && n.currentTerm == request.term ==> request.prevLogIndex <= n.Last().index
    ensures Window(HandleAppendReply(n, peer, request, response), HandleAppendReply(u, peer, request, response), c)
    ensures n.nextIndex == u.nextIndex && (Scans(u, request, response) ==> !FoundBelow(u, c, request, response)) ==>
              HandleAppendReply(n, peer, request, response).nextIndex == HandleAppendReply(u, peer, request, response).nextIndex
  {
    hide Contiguous; hide Cut; hide Window; hide AdvanceCommit; hide BackOff; hide StepDown; hide MajorityMatch;
    hide Persist; hide TermScan;
    WindowFacts(n, u, c);
    if u.role == Leader && u.currentTerm == request.term {
      var at := request.prevLogIndex + |request.entries|;
      SamePeer(n, u, c, u.matchIndex[peer := at], n.nextIndex[peer := at + 1], u.nextIndex[peer := at + 1]);
      var n1 := n.(matchIndex := u.matchIndex[peer := at], nextIndex := n.nextIndex[peer := at + 1]);
      var u1 := u.(matchIndex := u.matchIndex[peer := at], nextIndex := u.nextIndex[peer := at + 1]);
      AdvanceSame(n1, u1, c);
      AdvanceKeepsNext(n1, u1, c);
      SameStepDown(n, u, c, response.term);
      SamePersist(StepDown(n, response.term), StepDown(u, response.term), c);
      SteppedNext(n, response.term);
      SteppedNext(u, response.term);
      BackOffValue(n, u, c, request, response);
      SamePeer(n, u, c, u.matchIndex, n.nextIndex[peer := BackOff(n, request, response)],
               u.nextIndex[peer := BackOff(u, request, response)]);
    }
  }

  lemma AdvanceKeepsNext(n: Node, u: Node, c: nat)
    requires Window(n, u, c)
    ensures n.Valid() && u.Valid()
    ensures AdvanceCommit(n).nextIndex == n.nextIndex && AdvanceCommit(u).nextIndex == u.nextIndex
  {
    WindowFacts(n, u, c);
    hide Contiguous; hide Cut; hide MajorityMatch; hide MatchLog;
  }

  lemma SteppedNext(n: Node, term: nat)
    requires |n.logs| > 0
    ensures Persist(StepDown(n, term)).nextIndex == n.nextIndex
  {
  }

  lemma BackOffValue(n: Node, u: Node, c: nat, request: AppendRequest, response: AppendResponse)
    requires Window(n, u, c) && request.prevLogIndex <= u.Last().index
    ensures n.Valid() && Contiguous(u.logs) && request.prevLogIndex <= n.Last().index
    ensures BackOff(n, request, response)
              == if FoundBelow(u, c, request, response) then response.conflictIndex else BackOff(u, request, response)
  {
    WindowFacts(n, u, c);
    TermScanSame(u.logs, c, request.prevLogIndex, response.conflictTerm);
    hide Cut; hide TermScan;
  }

  /**
    * The two hints differ exactly when the scan finds its entry below the dummy and the
    * follower's own hint does not happen to point right behind that entry.
    */
  lemma BackOffExact(n: Node, u: Node, c: nat, request: AppendRequest, response: AppendResponse)
    requires Window(n, u, c) && request.prevLogIndex <= u.Last().index
    ensures n.Valid() && Contiguous(u.logs) && request.prevLogIndex <= n.Last().index
    ensures BackOff(n, request, response) != BackOff(u, request, response) <==>
              && FoundBelow(u, c, request, response)
              && response.conflictIndex != TermScan(u.logs, request.prevLogIndex, response.conflictTerm).value + 1
  {
    BackOffValue(n, u, c, request, response);
    hide Window; hide TermScan;
  }

  /** A leader whose log [0/0, 1/1, 2/2, 3/3] is cut at 2, and a follower that reports term 1 from index 0 on. */
  lemma BackOffMayDiffer(u: Node, command: Command, request: AppendRequest, response: AppendResponse)
    requires u.Valid() && u.commitIndex >= 2
    requires u.logs == [DUMMY, Entry(1, 1, command), Entry(2, 2, command), Entry(3, 3, command)]
    requires request.prevLogIndex == 3 && response.conflictTerm == 1 && response.conflictIndex == 0
    ensures var n := u.(logs := Cut(u.logs, 2));
            && Window(n, u, 2) && Contiguous(n.logs) && request.prevLogIndex <= n.Last().index
            && BackOff(n, request, response) == 0 && BackOff(u, request, response) == 2
  {
    var n := u.(logs := Cut(u.logs, 2));
    assert Window(n, u, 2);
    assert TermScan(u.logs, 3, 1) == TermScan(u.logs, 2, 1) == TermScan(u.logs, 1, 1) == Some(1);
    BackOffValue(n, u, 2, request, response);
  }

  lemma SamePeer(n: Node, u: Node, c: nat, matched: seq<int>, next: seq<int>, same: seq<int>)
    requires Window(n, u, c) && |matched| == |next| == |same| == u.peers
    ensures Window(n.(matchIndex := matched, nextIndex := next), u.(matchIndex := matched, nextIndex := same), c)
  {
    hide Contiguous; hide Cut;
  }

  /** A snapshot request gets the same answer and hands the service the same snapshot. */
  lemma InstallRequestSame(n: Node, u: Node, c: nat, request: InstallRequest)
    requires Window(n, u, c)
    ensures |n.logs| > 0
    ensures var (n2, response, forService) := InstallSnapshot(n, request);
            var (u2, same, alike) := InstallSnapshot(u, request);
            response == same && forService == alike && Window(n2, u2, c)
  {
    hide Contiguous; hide Cut; hide Window; hide Persist; hide ChangeRole;
    WindowFacts(n, u, c);
    SameTerm(n, u, c, request.term);
    var n1, u1 := n.(currentTerm := request.term, votedFor := NOBODY), u.(currentTerm := request.term, votedFor := NOBODY);
    SamePersist(n1, u1, c);
    SameRole(if request.term > n.currentTerm then Persist(n1) else n,
             if request.term > u.currentTerm then Persist(u1) else u, c, Follower);
  }

  lemma SameTerm(n: Node, u: Node, c: nat, term: nat)
    requires Window(n, u, c)
    ensures Window(n.(currentTerm := term, votedFor := NOBODY), u.(currentTerm := term, votedFor := NOBODY), c)
  {
    hide Contiguous; hide Cut;
  }

  /** An answered snapshot is counted alike. */
  lemma InstallReplySame(n: Node, u: Node, c: nat, peer: nat, request: InstallRequest, response: InstallResponse)
    requires Window(n, u, c) && peer < u.peers
    ensures n.Valid()
    ensures Window(HandleInstallReply(n, peer, request, response), HandleInstallReply(u, peer, request, response), c)
  {
    hide Contiguous; hide Cut; hide Window; hide Persist; hide StepDown;
    WindowFacts(n, u, c);
    SameStepDown(n, u, c, response.term);
    SamePersist(StepDown(n, response.term), StepDown(u, response.term), c);
    var at := request.lastIncludedIndex;
    SamePeer(n, u, c, u.matchIndex[peer := at], n.nextIndex[peer := at + 1], u.nextIndex[peer := at + 1]);
  }

  /** A command is appended alike. */
  lemma StartSame(n: Node, u: Node, c: nat, command: Command)
    requires Window(n, u, c)
    ensures n.Valid()
    ensures var (n2, index, term, isLeader) := Start(n, command); var (u2, index2, term2, isLeader2) := Start(u, command);
            index == index2 && term == term2 && isLeader == isLeader2 && Window(n2, u2, c)
  {
    hide Cut; hide Window; hide Persist;
    WindowFacts(n, u, c);
    if u.role == Leader {
      var entry := Entry(u.Last().index + 1, u.currentTerm, command);
      SameAppended(n, u, c, entry);
      var n1, u1 := n.(logs := n.logs + [entry]), u.(logs := u.logs + [entry]);
      var matched := u.matchIndex[u.me := entry.index];
      var next, same := n.nextIndex[u.me := entry.index + 1], u.nextIndex[u.me := entry.index + 1];
      SamePeer(n1, u1, c, matched, next, same);
      SamePersist(n1.(matchIndex := matched, nextIndex := next), u1.(matchIndex := matched, nextIndex := same), c);
    }
  }

  lemma SameAppended(n: Node, u: Node, c: nat, entry: Entry)
    requires Window(n, u, c) && entry.index == u.Last().index + 1
    ensures Window(n.(logs := n.logs + [entry]), u.(logs := u.logs + [entry]), c)
  {
    hide Cut;
    LongerCut(u.logs, entry, c);
  }

  lemma LongerCut(logs: seq<Entry>, entry: Entry, c: nat)
    requires Contiguous(logs) && logs[0].index <= c < logs[0].index + |logs|
    requires entry.index == logs[0].index + |logs|
    ensures Contiguous(logs + [entry]) && Cut(logs + [entry], c) == Cut(logs, c) + [entry]
  {
    var first := logs[0].index;
    assert (logs + [entry])[c - first + 1..] == logs[c - first + 1..] + [entry];
  }

  // ----- Compaction itself -----

  /** Compacting at a committed index is a stutter step of the uncompacted node. */
  lemma SnapshotIsStutter(n: Node, u: Node, c: nat, index: nat, data: string)
    requires Window(n, u, c) && index <= u.commitIndex
    ensures n.Valid() && index <= n.Last().index
    ensures Window(Snapshot(n, index, data), u, if index > c then index else c)
  {
    WindowFacts(n, u, c);
    if index > c {
      CutAtIndex(u.logs, c, index);
      CutTwice(u.logs, c, index);
    }
  }

  lemma CutTwice(logs: seq<Entry>, c: nat, index: nat)
    requires Contiguous(logs) && logs[0].index <= c <= index < logs[0].index + |logs|
    ensures Contiguous(Cut(logs, c)) && Cut(logs, c)[0].index == c && |Cut(logs, c)| == |logs| - (c - logs[0].index)
    ensures Cut(Cut(logs, c), index) == Cut(logs, index)
  {
    CutAtIndex(logs, c, index);
    var first := logs[0].index;
    assert Cut(logs, c)[index - c + 1..] == logs[index - first + 1..];
  }

  /** What the uncompacted node does when it learns that everything up to `index` is committed. */
  function LearnCommit(u: Node, index: nat): Node {
    u.(lastApplied := index, commitIndex := index)
  }

  /** Installing a snapshot whose term matches the log only teaches a higher commit index. */
  lemma MatchingInstallIsCommit(n: Node, u: Node, c: nat, term: nat, index: nat, data: string)
    requires Window(n, u, c) && u.commitIndex < index <= u.Last().index && MatchLog(u, term, index)
    ensures n.Valid() && CondInstallSnapshot(n, term, index, data).1
    ensures Window(CondInstallSnapshot(n, term, index, data).0, LearnCommit(u, index), index)
  {
    WindowFacts(n, u, c);
    CutAtIndex(u.logs, c, index);
    CutTwice(u.logs, c, index);
  }

  /** A snapshot at or below the commit index changes nothing on either side. */
  lemma OldInstallIsRefused(n: Node, u: Node, c: nat, term: nat, index: nat, data: string)
    requires Window(n, u, c) && index <= u.commitIndex
    ensures n.Valid() && CondInstallSnapshot(n, term, index, data) == (n, false)
  {
    WindowFacts(n, u, c);
  }

  /** A request from below the dummy is answered with term 0, and a leader ignores that answer. */
  lemma BelowDummyIsIgnored(n: Node, request: AppendRequest, leader: Node, peer: nat)
    requires n.Valid() && Continues(request) && request.prevLogIndex < n.First() && request.term >= n.currentTerm
    requires leader.Valid() && peer < leader.peers && leader.currentTerm > 0
    requires leader.role == Leader && leader.currentTerm == request.term ==> request.prevLogIndex <= leader.Last().index
    ensures var (n2, response) := AppendEntries(n, request);
            && n2.logs == n.logs && n2.commitIndex == n.commitIndex && !response.success && response.term == 0
            && HandleAppendReply(leader, peer, request, response) == leader
  {
    hide Contiguous; hide Continues; hide Reconcile; hide MajorityMatch;
  }

  // ----- Whole runs of one node -----

  /** What can happen to a node: its own steps, requests, answers, and the two ways its log is cut. */
  datatype Event =
    | Expired
    | VoteAsked(vote: VoteRequest)
    | VoteAnswered(from: nat, vote: VoteRequest, voted: VoteResponse)
    | EntriesAsked(append: AppendRequest)
    | EntriesSent(prev: nat)
    | EntriesAnswered(peer: nat, append: AppendRequest, appended: AppendResponse)
    | SnapshotAsked(install: InstallRequest)
    | SnapshotAnswered(peer: nat, install: InstallRequest, installed: InstallResponse)
    | Proposed(command: Command)
    | Compacted(index: nat, data: string)
    | Installed(term: nat, index: nat, data: string)

  datatype Output =
    | Silent
    | AskVotes(vote: VoteRequest)
    | AnswerVote(voted: VoteResponse)
    | AnswerEntries(appended: AppendResponse)
    | SendEntries(append: AppendRequest)
    | AnswerSnapshot(installed: InstallResponse, forService: Option<SnapshotMsg>)
    | Accepted(index: int, term: int, isLeader: bool)

  /** The event can be handled without running off an array. */
  ghost predicate Handles(n: Node, e: Event)
    requires n.Valid()
  {
    match e
    case EntriesAsked(r) => Continues(r)
    case EntriesSent(prev) => n.First() <= prev <= n.Last().index
    case EntriesAnswered(peer, r, a) =>
      peer < n.peers && (n.role == Leader && n.currentTerm == r.term ==> r.prevLogIndex <= n.Last().index)
    case SnapshotAnswered(peer, r, a) => peer < n.peers
    case Compacted(index, data) => index <= n.commitIndex
    case _ => true
  }

  /** The node as the program runs it. */
  ghost function Handle(n: Node, e: Event): (Node, Output)
    requires n.Valid() && Handles(n, e)
  {
    match e
    case Expired => var (m, r) := Timeout(n); (m, AskVotes(r))
    case VoteAsked(r) => var (m, a) := RequestVote(n, r); (m, AnswerVote(a))
    case VoteAnswered(from, r, a) => (HandleVoteReply(n, from, r, a), Silent)
    case EntriesAsked(r) => var (m, a) := AppendEntries(n, r); (m, AnswerEntries(a))
    case EntriesSent(prev) => (n, SendEntries(AppendRequestFor(n, prev)))
    case EntriesAnswered(peer, r, a) => (HandleAppendReply(n, peer, r, a), Silent)
    case SnapshotAsked(r) => var (m, a, forService) := InstallSnapshot(n, r); (m, AnswerSnapshot(a, forService))
    case SnapshotAnswered(peer, r, a) => (HandleInstallReply(n, peer, r, a), Silent)
    case Proposed(command) => var (m, index, term, isLeader) := Start(n, command); (m, Accepted(index, term, isLeader))
    case Compacted(index, data) => (Snapshot(n, index, data), Silent)
    case Installed(term, index, data) => (CondInstallSnapshot(n, term, index, data).0, Silent)
  }

  /** The node that keeps its whole log: cutting it is no step, an installed snapshot teaches a commit index. */
  ghost function HandleWhole(u: Node, e: Event): (Node, Output)
    requires u.Valid() && Handles(u, e)
  {
    match e
    case Compacted(index, data) => (u, Silent)
    case Installed(term, index, data) => (if index > u.commitIndex then LearnCommit(u, index) else u, Silent)
    case _ => Handle(u, e)
  }

  /** Requests concern indexes from c on, and an installed snapshot agrees with the log; replies are unrestricted. */
  ghost predicate Above(u: Node, c: nat, e: Event)
    requires u.Valid()
  {
    match e
    case EntriesAsked(r) => r.prevLogIndex >= c
    case EntriesSent(prev) => prev >= c
    case Installed(term, index, data) => index > u.commitIndex ==> index <= u.Last().index && MatchLog(u, term, index)
    case _ => true
  }

  /** Where the window starts after the event. */
  function DummyAfter(u: Node, c: nat, e: Event): nat {
    match e
    case Compacted(index, data) => if index > c then index else c
    case Installed(term, index, data) => if index > u.commitIndex then index else c
    case _ => c
  }

  ghost predicate SameOutput(output: Output, same: Output, c: nat) {
    output == same
    || (output.AnswerEntries? && same.AnswerEntries? && SameAnswer(output.appended, same.appended, c))
  }

  /**
    * One event: the compacted node and the whole one give the same output, but that a
    * conflict below the dummy is reported right before it, and stay window and log.
    */
  lemma HandleRefines(n: Node, u: Node, c: nat, e: Event)
    requires Window(n, u, c) && u.Valid() && Handles(u, e) && Above(u, c, e)
    requires HandleWhole(u, e).0.Valid()
    ensures n.Valid() && Handles(n, e)
    ensures var (n2, output) := Handle(n, e); var (u2, same) := HandleWhole(u, e);
            SameOutput(output, same, c) && Window(n2, u2, DummyAfter(u, c, e))
  {
    hide Contiguous; hide Cut; hide Window; hide Timeout; hide RequestVote; hide HandleVoteReply; hide AppendEntries;
    hide HandleAppendReply; hide Start; hide Snapshot; hide CondInstallSnapshot; hide AppendRequestFor;
    hide InstallSnapshot; hide HandleInstallReply; hide Continues; hide LearnCommit; hide Answered;
    WindowFacts(n, u, c);
    match e
    case Expired => TimeoutSame(n, u, c);
    case VoteAsked(r) => RequestVoteSame(n, u, c, r);
    case VoteAnswered(from, r, a) => VoteReplySame(n, u, c, from, r, a);
    case EntriesAsked(r) =>
      AppendEntriesSame(n, u, c, r);
      CommitRises(u, r);
      AnsweredWindow(AppendEntries(n, r).0, AppendEntries(u, r).0, c);
    case EntriesSent(prev) => AppendRequestSame(n, u, c, prev);
    case EntriesAnswered(peer, r, a) => AppendReplySame(n, u, c, peer, r, a);
    case SnapshotAsked(r) => InstallRequestSame(n, u, c, r);
    case SnapshotAnswered(peer, r, a) => InstallReplySame(n, u, c, peer, r, a);
    case Proposed(command) => StartSame(n, u, c, command);
    case Compacted(index, data) => SnapshotIsStutter(n, u, c, index, data);
    case Installed(term, index, data) =>
      if index > u.commitIndex {
        MatchingInstallIsCommit(n, u, c, term, index, data);
      } else {
        OldInstallIsRefused(n, u, c, term, index, data);
      }
  }

  lemma CommitRises(u: Node, r: AppendRequest)
    requires u.Valid() && Continues(r)
    ensures AppendEntries(u, r).0.commitIndex >= u.commitIndex
  {
    hide Contiguous; hide Continues; hide Reconcile; hide Rejection;
  }

  lemma AnsweredWindow(n: Node, u: Node, c: nat)
    requires Answered(n, u, c) && u.Valid() && c <= u.commitIndex
    ensures Window(n, u, c)
  {
    hide Cut;
  }

  /** The two nodes and the start of the window after each event. */
  datatype Pair = Pair(n: Node, u: Node, c: nat, output: Output, same: Output)

  ghost predicate Follows(before: Pair, e: Event, after: Pair) {
    && before.u.Valid() && Handles(before.u, e) && Above(before.u, before.c, e) && HandleWhole(before.u, e).0.Valid()
    && before.n.Valid() && Handles(before.n, e)
    && (after.n, after.output) == Handle(before.n, e)
    && (after.u, after.same) == HandleWhole(before.u, e)
    && after.c == DummyAfter(before.u, before.c, e)
  }

  /**
    * Compaction refinement: two nodes that start alike and meet the same events, one
    * cutting its log whenever it is told to and the other never, give the same outputs all
    * along, except that a conflict below the dummy is reported right before the dummy. The
    * first one's array is always a window of the second one's log.
    */
  lemma {:induction false} CompactionRefines(pairs: seq<Pair>, events: seq<Event>, k: nat)
    requires |pairs| == |events| + 1 && k < |pairs|
    requires Window(pairs[0].n, pairs[0].u, pairs[0].c) && SameOutput(pairs[0].output, pairs[0].same, pairs[0].c)
    requires forall i :: 0 <= i < |events| ==> Follows(pairs[i], events[i], pairs[i + 1])
    ensures Window(pairs[k].n, pairs[k].u, pairs[k].c)
    ensures k > 0 ==> SameOutput(pairs[k].output, pairs[k].same, pairs[k - 1].c)
    decreases k
  {
    hide Window; hide Handle; hide HandleWhole; hide Above; hide Handles; hide SameOutput; hide DummyAfter;
    if k > 0 {
      CompactionRefines(pairs, events, k - 1);
      assert Follows(pairs[k - 1], events[k - 1], pairs[k]);
      HandleRefines(pairs[k - 1].n, pairs[k - 1].u, pairs[k - 1].c, events[k - 1]);
    }
  }
}
