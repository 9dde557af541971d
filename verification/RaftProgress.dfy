/** What a cluster does get done: votes, elections, appended and committed entries. */
module RaftProgress {
  import opened RaftTypes
  import opened RaftHandlers
  import opened RaftHistory
  import opened RaftHistorySteps
  import opened RaftCluster
  import opened RaftInvariant
  import opened RaftElectionSteps
  import opened RaftAppendSteps
  import opened RaftReplicationSteps
  import opened RaftSafety
  import opened MajorityIndex

  // ----- What a leader commits -----

  /** Along a node's array the terms never fall, and none is above the node's term. */
  lemma TermsAlong(s: Cluster, i: nat, p: nat, q: nat)
    requires Inv(s) && i < |s.nodes| && p <= q && Holds(s.nodes[i], p) && Holds(s.nodes[i], q)
    ensures EntryAt(s.nodes[i], p).term <= EntryAt(s.nodes[i], q).term <= s.nodes[i].currentTerm
  {
    hide Inv; hide HistoryOK; hide NodeOK; hide LogOK; hide TermsUpTo; hide Holds; hide EntryAt; hide ConfirmPart;
    NodeAt(s, i);
    HeldEntry(s, i, p);
    HeldEntry(s, i, q);
    LogFacts(s.h, i, s.nodes[i], s.full[i]);
    TermLogsAt(s.h);
    TermsRise(s.full[i], s.h.tl, p, q);
    TermAt(s.full[i], s.nodes[i].currentTerm, q);
  }

  lemma TermLogsAt(h: History)
    requires HistoryOK(h)
    ensures forall t :: t in h.tl ==> TermsUpTo(h.tl[t], t)
  {
    hide LogOK; hide TermsUpTo; hide LeadersComplete; hide VotesInformed;
  }

  lemma TermAt(log: seq<Entry>, term: nat, i: nat)
    requires TermsUpTo(log, term) && i < |log|
    ensures log[i].term <= term
  {
  }

  /** No matchIndex lies beyond the leader's log. */
  lemma MatchesInLog(s: Cluster, i: nat)
    requires Inv(s) && i < |s.nodes| && s.nodes[i].role == Leader
    ensures var n := s.nodes[i]; n.Valid() && forall p :: 0 <= p < |n.matchIndex| ==> n.matchIndex[p] <= n.Last().index
  {
    hide Inv; hide HistoryOK; hide NodeOK; hide LogOK; hide ConfirmPart; hide Contiguous; hide Covered;
    ShapedAt(s);
    NodeAt(s, i);
    var n, full := s.nodes[i], s.full[i];
    BaseAt(s.h, i, n, full);
    LogFacts(s.h, i, n, full);
    LengthOf(s.h.tl, n, full);
    LeaderFacts(s.h, i, n, full);
  }

  /** An index of the leader's term that a majority of matchIndex reaches. */
  ghost predicate Committable(n: Node, p: nat) {
    Holds(n, p) && EntryAt(n, p).term == n.currentTerm && |Reached(n.matchIndex, p)| >= n.peers / 2 + 1
  }

  lemma SomeoneReaches(m: seq<int>, v: int, top: int)
    requires |Reached(m, v)| >= |m| / 2 + 1
    requires forall p :: 0 <= p < |m| ==> m[p] <= top
    ensures v <= top
  {
    if Reached(m, v) == {} { assert false; }
    var i :| i in Reached(m, v);
  }

  /** Commits jump to the highest committable index, or stay where they are. */
  lemma AdvanceIsExact(n: Node)
    requires n.Valid()
    requires forall p :: 0 <= p < |n.matchIndex| ==> n.matchIndex[p] <= n.Last().index
    requires forall p: nat, q: nat :: p <= q && Holds(n, p) && Holds(n, q) ==>
               EntryAt(n, p).term <= EntryAt(n, q).term <= n.currentTerm
    ensures AdvanceCommit(n) == n.(commitIndex := AdvanceCommit(n).commitIndex)
    ensures forall p: nat :: Committable(n, p) ==> p <= AdvanceCommit(n).commitIndex
    ensures AdvanceCommit(n).commitIndex != n.commitIndex ==>
              AdvanceCommit(n).commitIndex > n.commitIndex && Committable(n, AdvanceCommit(n).commitIndex)
  {
    var top := MajorityMatch(n.matchIndex);
    SomeoneReaches(n.matchIndex, top, n.Last().index);
    forall p: nat | Committable(n, p) ensures p <= AdvanceCommit(n).commitIndex {
      assert p <= top;
      if top > n.commitIndex {
        assert Holds(n, top);
        assert EntryAt(n, p).term <= EntryAt(n, top).term <= n.currentTerm;
      }
    }
  }

  lemma TermsNeverFall(s: Cluster, i: nat)
    requires Inv(s) && i < |s.nodes|
    ensures var n := s.nodes[i]; forall p: nat, q: nat :: p <= q && Holds(n, p) && Holds(n, q) ==>
              EntryAt(n, p).term <= EntryAt(n, q).term <= n.currentTerm
  {
    hide Inv; hide Holds; hide EntryAt;
    var n := s.nodes[i];
    forall p: nat, q: nat | p <= q && Holds(n, p) && Holds(n, q)
      ensures EntryAt(n, p).term <= EntryAt(n, q).term <= n.currentTerm
    {
      TermsAlong(s, i, p, q);
    }
  }

  /** Node i counts an acceptance of its own term. */
  ghost predicate Counts(s: Cluster, a: Action) {
    && a.CountAppend? && a.m.AppendAnswer? && a.i < |s.nodes| && a.m.appended.success
    && s.nodes[a.i].role == Leader && s.nodes[a.i].currentTerm == a.m.append.term
  }

  /**
    * In every run, once a leader has counted an acceptance, every index of its own term that
    * a majority of matchIndex reaches is committed, and the commit index has moved only to
    * such an index. What is counted is the whole of the entries that were accepted.
    */
  lemma CountedIsCommitted(size: nat, states: seq<Cluster>, actions: seq<Action>, k: nat)
    requires Run(size, states, actions) && k < |actions| && Counts(states[k], actions[k])
    ensures var a, i := actions[k], actions[k].i;
            && i < |states[k + 1].nodes| && a.m.from < |states[k + 1].nodes[i].matchIndex| && |states[k + 1].nodes[i].nextIndex| == size
            && var was, now := states[k].nodes[i], states[k + 1].nodes[i];
               && now.role == Leader && now.currentTerm == was.currentTerm && now.logs == was.logs
               && now.matchIndex == was.matchIndex[a.m.from := a.m.append.prevLogIndex + |a.m.append.entries|]
               && now.nextIndex[a.m.from] == now.matchIndex[a.m.from] + 1
               && (forall p: nat :: Committable(now, p) ==> p <= now.commitIndex)
               && (now.commitIndex != was.commitIndex ==> now.commitIndex > was.commitIndex && Committable(now, now.commitIndex))
  {
    hide Inv; hide Holds; hide EntryAt; hide Commits; hide Observe;
    RunInv(size, states, actions, k);
    RunInv(size, states, actions, k + 1);
    SizeKept(size, states, actions, k);
    ShapedAt(states[k]);
    assert Goes(states[k], actions[k], states[k + 1]);
    hide Run;
    var a, i := actions[k], actions[k].i;
    var was, now := states[k].nodes[i], states[k + 1].nodes[i];
    assert was.Valid();
    var at := a.m.append.prevLogIndex + |a.m.append.entries|;
    var n := was.(matchIndex := was.matchIndex[a.m.from := at], nextIndex := was.nextIndex[a.m.from := at + 1]);
    assert now == AdvanceCommit(n);
    MatchesInLog(states[k + 1], i);
    TermsNeverFall(states[k + 1], i);
    SameHeld(n, now);
    AdvanceIsExact(n);
    SameCommittable(n, now);
  }

  lemma SameHeld(n: Node, n2: Node)
    requires n2.logs == n.logs
    ensures forall p :: Holds(n2, p) <==> Holds(n, p)
    ensures forall p :: Holds(n, p) ==> EntryAt(n2, p) == EntryAt(n, p)
  {
  }

  lemma SameCommittable(n: Node, n2: Node)
    requires n2.logs == n.logs && n2.matchIndex == n.matchIndex && n2.currentTerm == n.currentTerm && n2.peers == n.peers
    ensures forall p :: Committable(n2, p) <==> Committable(n, p)
  {
  }

  // ----- When a vote is granted -----

  /** A log that ends with (term, index) is not behind one that ends with (term2, index2). */
  predicate NotBehind(term: nat, index: nat, term2: nat, index2: nat) {
    term2 < term || (term2 == term && index2 <= index)
  }

  /** The node still has its vote for the candidate in the request's term. */
  predicate MayVote(n: Node, r: VoteRequest) {
    n.currentTerm < r.term || (n.currentTerm == r.term && (n.votedFor == NOBODY || n.votedFor == r.candidate))
  }

  /**
    * A vote is granted if and only if the node may still vote for the candidate and the
    * candidate's log is not behind its own. Then it is recorded and persisted; otherwise the
    * node only moves to a higher term, without a vote.
    */
  lemma VoteExact(s: Cluster, i: nat, m: Message)
    requires Shaped(s) && Enabled(s, AnswerVote(i, m))
    ensures |s.nodes[i].logs| > 0 && i < |Next(s, AnswerVote(i, m)).nodes|
    ensures var n, n2, r := s.nodes[i], Next(s, AnswerVote(i, m)).nodes[i], m.vote;
            var granted := MayVote(n, r) && NotBehind(r.lastLogTerm, r.lastLogIndex, n.Last().term, n.Last().index);
            && VoteAnswer(i, r, VoteResponse(n2.currentTerm, granted)) in Next(s, AnswerVote(i, m)).msgs
            && n2.currentTerm == Max(n.currentTerm, r.term) && n2.logs == n.logs && n2.commitIndex == n.commitIndex
            && (n.currentTerm < r.term ==> n2.role == Follower)
            && n2.votedFor == (if granted then r.candidate else if n.currentTerm < r.term then NOBODY else n.votedFor)
            && n2.saved == Some(Saved(n2.currentTerm, n2.votedFor, n2.logs))
  {
    hide Observe; hide Vote; hide Commits;
  }

  /** A voter whose whole log is a prefix of the one the candidate stood with does not refuse it. */
  lemma PrefixGetsVote(size: nat, states: seq<Cluster>, actions: seq<Action>, k: nat, i: nat, m: Message)
    requires Run(size, states, actions) && k < |actions| && actions[k] == AnswerVote(i, m) && m.VoteAsk?
    requires i < |states[k].nodes| && MayVote(states[k].nodes[i], m.vote) && i < |states[k].full|
    requires At(m.vote.term, m.vote.candidate) in states[k].h.cands
    requires states[k].full[i] <= states[k].h.cands[At(m.vote.term, m.vote.candidate)]
    ensures VoteAnswer(i, m.vote, VoteResponse(m.vote.term, true)) in states[k + 1].msgs
    ensures i < |states[k + 1].nodes|
    ensures var n2 := states[k + 1].nodes[i];
            && n2.currentTerm == m.vote.term && n2.votedFor == m.vote.candidate
            && n2.saved == Some(Saved(m.vote.term, m.vote.candidate, states[k].nodes[i].logs))
  {
    RunInv(size, states, actions, k);
    assert Goes(states[k], actions[k], states[k + 1]);
    hide Run; hide Inv; hide Next; hide MessageOK;
    VoterNotAhead(states[k], i, m);
    VoteExact(states[k], i, m);
  }

  lemma VoterNotAhead(s: Cluster, i: nat, m: Message)
    requires Inv(s) && i < |s.nodes| && |s.full| == |s.nodes| && m in s.msgs && m.VoteAsk?
    requires At(m.vote.term, m.vote.candidate) in s.h.cands
    requires s.full[i] <= s.h.cands[At(m.vote.term, m.vote.candidate)]
    ensures |s.nodes[i].logs| > 0
    ensures NotBehind(m.vote.lastLogTerm, m.vote.lastLogIndex, s.nodes[i].Last().term, s.nodes[i].Last().index)
  {
    hide Inv; hide HistoryOK; hide NodeOK; hide LogOK; hide TermsUpTo; hide ConfirmPart;
    NodeAt(s, i);
    MessageAt(s, m);
    var n, full, log := s.nodes[i], s.full[i], s.h.cands[At(m.vote.term, m.vote.candidate)];
    LogFacts(s.h, i, n, full);
    LengthOf(s.h.tl, n, full);
    CandidateFacts(s.h, At(m.vote.term, m.vote.candidate));
    TermLogsAt(s.h);
    TermsRise(log, s.h.tl, |full| - 1, |log| - 1);
    assert log[|full| - 1] == full[|full| - 1];
  }

  // ----- Who wins an election -----

  /** Voter v answers the candidate's request, and the candidate counts the answer. */
  function Poll(c: nat, r: VoteRequest, v: nat): seq<Action> {
    [AnswerVote(v, VoteAsk(r)), CountVote(c, VoteAnswer(v, r, VoteResponse(r.term, true)))]
  }

  /** The voters are polled one after the other. */
  function Polls(c: nat, r: VoteRequest, voters: seq<nat>): seq<Action> {
    if voters == [] then [] else Polls(c, r, voters[..|voters| - 1]) + Poll(c, r, voters[|voters| - 1])
  }

  /** Different nodes other than c in terms below `term`, whose logs c's log is not behind. */
  ghost predicate Electorate(s: Cluster, c: nat, term: nat, voters: seq<nat>) {
    && c < |s.nodes| && |s.nodes[c].logs| > 0
    && (forall i, j :: 0 <= i < j < |voters| ==> voters[i] != voters[j])
    && forall v :: v in voters ==> Elects(s, c, term, v)
  }

  ghost predicate Elects(s: Cluster, c: nat, term: nat, v: nat)
    requires c < |s.nodes| && |s.nodes[c].logs| > 0
  {
    && v < |s.nodes| && v != c && |s.nodes[v].logs| > 0 && s.nodes[v].currentTerm < term
    && NotBehind(s.nodes[c].Last().term, s.nodes[c].Last().index, s.nodes[v].Last().term, s.nodes[v].Last().index)
  }

  /** After some voters were polled: a candidate with their votes and its own, or the leader. */
  ghost predicate Polled(n: Node, was: Node, r: VoteRequest, counted: set<nat>) {
    && n.currentTerm == r.term && n.logs == was.logs && n.peers == was.peers && |n.logs| > 0
    && if 2 * |counted| > n.peers && |counted| > 1 then Leads(n) else n.role == Candidate && n.granters == counted
  }

  /** A new leader knows nothing of its peers and tries them all from the end of its log. */
  ghost predicate Leads(n: Node) {
    && n.role == Leader && |n.logs| > 0
    && n.matchIndex == seq(n.peers, _ => 0) && n.nextIndex == seq(n.peers, _ => n.Last().index + 1)
  }

  function Voters(c: nat, voters: seq<nat>): set<nat> {
    {c} + set v | v in voters
  }

  /** One more step of a run. */
  lemma RunOn(size: nat, states: seq<Cluster>, actions: seq<Action>, a: Action) returns (states2: seq<Cluster>)
    requires Run(size, states, actions)
    requires Shaped(states[|states| - 1]) && Enabled(states[|states| - 1], a)
    ensures Safe(states[|states| - 1], a) && states2 == states + [Next(states[|states| - 1], a)]
    ensures Run(size, states2, actions + [a])
  {
    hide Inv; hide Next; hide Shaped; hide Enabled; hide Safe; hide Init;
    RunInv(size, states, actions, |states| - 1);
    EnabledIsSafe(states[|states| - 1], a);
    states2 := states + [Next(states[|states| - 1], a)];
    var actions2 := actions + [a];
    forall k | 0 <= k < |actions2| ensures Goes(states2[k], actions2[k], states2[k + 1]) {
      if k < |actions| {
        assert Goes(states[k], actions[k], states[k + 1]);
        assert states2[k] == states[k] && states2[k + 1] == states[k + 1] && actions2[k] == actions[k];
      }
    }
  }

  lemma LastShaped(size: nat, states: seq<Cluster>, actions: seq<Action>)
    requires Run(size, states, actions)
    ensures |states| > 0 && Shaped(states[|states| - 1]) && |states[|states| - 1].nodes| == size
    ensures forall n :: n in states[|states| - 1].nodes ==> n.Valid() && |n.logs| > 0 && n.peers == size
  {
    RunInv(size, states, actions, |states| - 1);
    ShapedAt(states[|states| - 1]);
    SizeKept(size, states, actions, |states| - 1);
    hide Inv; hide Run;
  }

  /** The candidate's timeout: the request names the end of its log, and only its own vote is counted. */
  lemma Stood(s: Cluster, c: nat)
    requires Shaped(s) && c < |s.nodes|
    ensures Enabled(s, Expire(c))
    ensures var s2, n := Next(s, Expire(c)), s.nodes[c];
            && |n.logs| > 0 && |s2.nodes| == |s.nodes|
            && (var r := VoteRequest(n.currentTerm + 1, c, n.Last().index, n.Last().term);
                VoteAsk(r) in s2.msgs && Polled(s2.nodes[c], n, r, {c}))
            && forall v :: 0 <= v < |s.nodes| && v != c ==> s2.nodes[v] == s.nodes[v]
  {
    hide Vote; hide Stand; hide Observe; hide Commits;
  }

  /** A voter of the electorate grants its vote; nobody else moves. */
  lemma Voted(s: Cluster, c: nat, r: VoteRequest, v: nat)
    requires Shaped(s) && v < |s.nodes| && v != c && r.candidate == c && VoteAsk(r) in s.msgs
    requires |s.nodes[v].logs| > 0 && s.nodes[v].currentTerm < r.term
    requires NotBehind(r.lastLogTerm, r.lastLogIndex, s.nodes[v].Last().term, s.nodes[v].Last().index)
    ensures Enabled(s, AnswerVote(v, VoteAsk(r)))
    ensures var s2 := Next(s, AnswerVote(v, VoteAsk(r)));
            && |s2.nodes| == |s.nodes| && s.msgs <= s2.msgs
            && VoteAnswer(v, r, VoteResponse(r.term, true)) in s2.msgs
            && forall u :: 0 <= u < |s.nodes| && u != v ==> s2.nodes[u] == s.nodes[u]
  {
    VoteExact(s, v, VoteAsk(r));
    hide RequestVote; hide Vote; hide Observe; hide Commits;
  }

  /** The candidate counts a new vote, or is leader already. */
  lemma Counted(s: Cluster, c: nat, was: Node, r: VoteRequest, v: nat, counted: set<nat>)
    requires Shaped(s) && c < |s.nodes| && r.candidate == c && v !in counted && counted != {}
    requires VoteAnswer(v, r, VoteResponse(r.term, true)) in s.msgs && Polled(s.nodes[c], was, r, counted)
    ensures Enabled(s, CountVote(c, VoteAnswer(v, r, VoteResponse(r.term, true))))
    ensures var s2 := Next(s, CountVote(c, VoteAnswer(v, r, VoteResponse(r.term, true))));
            && |s2.nodes| == |s.nodes| && s.msgs <= s2.msgs && Polled(s2.nodes[c], was, r, counted + {v})
            && forall u :: 0 <= u < |s.nodes| && u != c ==> s2.nodes[u] == s.nodes[u]
  {
    hide Elect; hide Observe; hide Commits;
    var n := s.nodes[c];
    assert |counted + {v}| == |counted| + 1;
    assert |counted| > 0;
    var n2 := HandleVoteReply(n, v, r, VoteResponse(r.term, true));
    assert Polled(n2, was, r, counted + {v});
  }

  /** The polled voters have voted, the others are as they were. */
  ghost predicate Polling(s: Cluster, s0: Cluster, c: nat, r: VoteRequest, voters: seq<nat>, j: nat)
    requires j <= |voters| && c < |s0.nodes|
  {
    && |s.nodes| == |s0.nodes| && VoteAsk(r) in s.msgs && Polled(s.nodes[c], s0.nodes[c], r, Voters(c, voters[..j]))
    && forall i :: j <= i < |voters| ==> voters[i] < |s0.nodes| && s.nodes[voters[i]] == s0.nodes[voters[i]]
  }

  lemma VotersGrow(c: nat, voters: seq<nat>, j: nat)
    requires j < |voters| && voters[j] != c
    requires forall i, k :: 0 <= i < k < |voters| ==> voters[i] != voters[k]
    ensures voters[j] !in Voters(c, voters[..j]) && Voters(c, voters[..j]) != {}
    ensures Voters(c, voters[..j + 1]) == Voters(c, voters[..j]) + {voters[j]}
    ensures |Voters(c, voters[..j + 1])| == |Voters(c, voters[..j])| + 1
  {
    assert voters[..j + 1] == voters[..j] + [voters[j]];
    assert c in Voters(c, voters[..j]);
  }

  lemma PollOne(size: nat, states: seq<Cluster>, actions: seq<Action>, s0: Cluster, c: nat, r: VoteRequest, voters: seq<nat>, j: nat)
    returns (states2: seq<Cluster>)
    requires Run(size, states, actions) && |states| > 0 && j < |voters|
    requires Electorate(s0, c, r.term, voters) && r.candidate == c
    requires r.lastLogTerm == s0.nodes[c].Last().term && r.lastLogIndex == s0.nodes[c].Last().index
    requires Polling(states[|states| - 1], s0, c, r, voters, j)
    ensures Run(size, states2, actions + Poll(c, r, voters[j])) && states <= states2 && |states2| > 0
    ensures Polling(states2[|states2| - 1], s0, c, r, voters, j + 1)
  {
    hide Run; hide Next; hide Polled; hide Shaped; hide NotBehind; hide Enabled; hide Voters;
    var v := voters[j];
    var ask, count := AnswerVote(v, VoteAsk(r)), CountVote(c, VoteAnswer(v, r, VoteResponse(r.term, true)));
    assert v in voters && Elects(s0, c, r.term, v);
    LastShaped(size, states, actions);
    VotersGrow(c, voters, j);
    Voted(states[|states| - 1], c, r, v);
    var s1 := RunOn(size, states, actions, ask);
    LastShaped(size, s1, actions + [ask]);
    Counted(s1[|s1| - 1], c, s0.nodes[c], r, v, Voters(c, voters[..j]));
    states2 := RunOn(size, s1, actions + [ask], count);
    assert actions + [ask] + [count] == actions + Poll(c, r, v);
    var last := states2[|states2| - 1];
    forall i | j + 1 <= i < |voters| ensures voters[i] < |s0.nodes| && last.nodes[voters[i]] == s0.nodes[voters[i]] {
      assert voters[i] in voters && Elects(s0, c, r.term, voters[i]);
    }
  }

  lemma {:induction false} PollAll(size: nat, states: seq<Cluster>, actions: seq<Action>, s0: Cluster, c: nat, r: VoteRequest,
                                   voters: seq<nat>, j: nat)
    returns (states2: seq<Cluster>)
    requires j <= |voters| && Run(size, states, actions) && |states| > 0
    requires Electorate(s0, c, r.term, voters) && r.candidate == c
    requires r.lastLogTerm == s0.nodes[c].Last().term && r.lastLogIndex == s0.nodes[c].Last().index
    requires Polling(states[|states| - 1], s0, c, r, voters, 0)
    ensures Run(size, states2, actions + Polls(c, r, voters[..j])) && states <= states2 && |states2| > 0
    ensures Polling(states2[|states2| - 1], s0, c, r, voters, j)
    decreases j
  {
    hide Run; hide Polling; hide Electorate; hide Poll;
    if j == 0 {
      states2 := states;
      assert actions + Polls(c, r, voters[..0]) == actions;
    } else {
      var s1 := PollAll(size, states, actions, s0, c, r, voters, j - 1);
      states2 := PollOne(size, s1, actions + Polls(c, r, voters[..j - 1]), s0, c, r, voters, j - 1);
      assert voters[..j][..j - 1] == voters[..j - 1];
      assert actions + Polls(c, r, voters[..j - 1]) + Poll(c, r, voters[j - 1]) == actions + Polls(c, r, voters[..j]);
    }
  }

  lemma AllPolled(s: Cluster, s0: Cluster, c: nat, r: VoteRequest, voters: seq<nat>)
    requires Electorate(s0, c, r.term, voters) && Polling(s, s0, c, r, voters, |voters|)
    requires voters != [] && 2 * (|voters| + 1) > s0.nodes[c].peers
    ensures c < |s.nodes|
    ensures Leads(s.nodes[c]) && s.nodes[c].currentTerm == r.term && s.nodes[c].logs == s0.nodes[c].logs
  {
    hide Leads; hide NotBehind;
    CountVoters(c, voters, |voters|);
  }

  lemma {:induction false} CountVoters(c: nat, voters: seq<nat>, j: nat)
    requires j <= |voters| && c !in voters && forall i, k :: 0 <= i < k < |voters| ==> voters[i] != voters[k]
    ensures |Voters(c, voters[..j])| == j + 1
    decreases j
  {
    if j == 0 {
      assert Voters(c, voters[..0]) == {c};
    } else {
      hide Voters;
      CountVoters(c, voters, j - 1);
      VotersGrow(c, voters, j - 1);
    }
  }

  /**
    * From every reachable state and for every cluster size: a node whose timer expires and
    * whose log is not behind those of enough nodes in lower terms, a strict majority with
    * itself, is leader of the new term once they have answered and it has counted.
    */
  lemma ElectionSucceeds(size: nat, states: seq<Cluster>, actions: seq<Action>, c: nat, voters: seq<nat>)
    returns (states2: seq<Cluster>, r: VoteRequest)
    requires Run(size, states, actions) && |states| > 0 && c < |states[|states| - 1].nodes|
    requires Electorate(states[|states| - 1], c, states[|states| - 1].nodes[c].currentTerm + 1, voters)
    requires voters != [] && 2 * (|voters| + 1) > size
    ensures Run(size, states2, actions + [Expire(c)] + Polls(c, r, voters)) && states <= states2 && |states2| > 0
    ensures r.term == states[|states| - 1].nodes[c].currentTerm + 1 && r.candidate == c
    ensures c < |states2[|states2| - 1].nodes|
    ensures var was, now := states[|states| - 1].nodes[c], states2[|states2| - 1].nodes[c];
            now.currentTerm == was.currentTerm + 1 && now.logs == was.logs && Leads(now)
  {
    hide Run; hide Next; hide Shaped; hide Enabled; hide Leads;
    var s0 := states[|states| - 1];
    var n := s0.nodes[c];
    LastShaped(size, states, actions);
    Stood(s0, c);
    var s1 := RunOn(size, states, actions, Expire(c));
    r := VoteRequest(n.currentTerm + 1, c, n.Last().index, n.Last().term);
    PollStarts(s1[|s1| - 1], s0, c, r, voters);
    hide Polling;
    states2 := PollAll(size, s1, actions + [Expire(c)], s0, c, r, voters, |voters|);
    hide Electorate;
    assert voters[..|voters|] == voters;
    AllPolled(states2[|states2| - 1], s0, c, r, voters);
  }

  lemma PollStarts(s: Cluster, s0: Cluster, c: nat, r: VoteRequest, voters: seq<nat>)
    requires c < |s0.nodes| == |s.nodes| && VoteAsk(r) in s.msgs && Polled(s.nodes[c], s0.nodes[c], r, {c})
    requires forall v :: 0 <= v < |s0.nodes| && v != c ==> s.nodes[v] == s0.nodes[v]
    requires Electorate(s0, c, r.term, voters)
    ensures Polling(s, s0, c, r, voters, 0)
  {
    hide Polled; hide NotBehind;
    assert Voters(c, voters[..0]) == {c};
    forall i | 0 <= i < |voters| ensures voters[i] < |s0.nodes| && s.nodes[voters[i]] == s0.nodes[voters[i]] {
      assert voters[i] in voters;
    }
  }

  /** With no peer there is no answer to count, and only counting makes a leader. */
  lemma {:induction false} AloneNeverLeads(states: seq<Cluster>, actions: seq<Action>, k: nat)
    requires Run(1, states, actions) && k < |states|
    ensures |states[k].nodes| == 1 && states[k].nodes[0].role != Leader
    ensures forall m :: m in states[k].msgs ==> m.VoteAsk? && m.vote.candidate == 0
    decreases k
  {
    hide Contiguous; hide Commits; hide Observe; hide Vote; hide Elect; hide Stand; hide RequestVote; hide HandleVoteReply;
    hide AppendEntries; hide HandleAppendReply; hide InstallSnapshot; hide HandleInstallReply;
    if k > 0 {
      AloneNeverLeads(states, actions, k - 1);
      assert Goes(states[k - 1], actions[k - 1], states[k]);
    }
  }

  // ----- Who steps down -----

  /** The term a handled message carries. */
  function TermIn(a: Action): nat {
    match a
    case AnswerVote(_, m) => if m.VoteAsk? then m.vote.term else 0
    case CountVote(_, m) => if m.VoteAnswer? && !m.voted.granted then m.voted.term else 0
    case AnswerAppend(_, m) => if m.AppendAsk? then m.append.term else 0
    case CountAppend(_, m) => if m.AppendAnswer? && !m.appended.success then m.appended.term else 0
    case AnswerInstall(_, m) => if m.InstallAsk? then m.install.term else 0
    case CountInstall(_, m) => if m.InstallAnswer? then m.installed.term else 0
    case _ => 0
  }

  /** Answers are heard only by a node that is still what it was when it asked. */
  predicate Listens(n: Node, a: Action) {
    match a
    case CountVote(_, m) => m.VoteAnswer? && n.role == Candidate && n.currentTerm == m.vote.term
    case CountAppend(_, m) => m.AppendAnswer? && n.role == Leader && n.currentTerm == m.append.term
    case CountInstall(_, m) => m.InstallAnswer? && n.role == Leader && n.currentTerm == m.install.term
    case _ => true
  }

  /** A follower in this term whose state is persisted. */
  ghost predicate FollowsIn(n: Node, term: nat) {
    n.role == Follower && n.currentTerm == term && n.saved == Some(Saved(n.currentTerm, n.votedFor, n.logs))
  }

  lemma DeposedByAsk(n: Node, vote: VoteRequest, append: AppendRequest, install: InstallRequest)
    requires n.Valid() && Continues(append)
    ensures |n.logs| > 0
    ensures vote.term > n.currentTerm ==>
              var m := RequestVote(n, vote).0; FollowsIn(m, vote.term) && (m.votedFor == NOBODY || m.votedFor == vote.candidate)
    ensures append.term > n.currentTerm ==> var m := AppendEntries(n, append).0; FollowsIn(m, append.term) && m.votedFor == NOBODY
    ensures install.term > n.currentTerm ==> var m := InstallSnapshot(n, install).0; FollowsIn(m, install.term) && m.votedFor == NOBODY
  {
    hide Reconcile; hide Rejection; hide MatchLog; hide Continues; hide UpToDate;
  }

  lemma DeposedByAnswer(n: Node, peer: nat, vote: VoteRequest, voted: VoteResponse, append: AppendRequest, appended: AppendResponse,
                        install: InstallRequest, installed: InstallResponse)
    requires n.Valid()
    requires n.role == Leader && n.currentTerm == append.term ==> append.prevLogIndex <= n.Last().index
    ensures |n.logs| > 0
    ensures n.role == Candidate && n.currentTerm == vote.term && !voted.granted && voted.term > n.currentTerm ==>
              var m := HandleVoteReply(n, peer, vote, voted); FollowsIn(m, voted.term) && m.votedFor == NOBODY
    ensures peer < n.peers && n.role == Leader && n.currentTerm == append.term && !appended.success && appended.term > n.currentTerm ==>
              var m := HandleAppendReply(n, peer, append, appended); FollowsIn(m, appended.term) && m.votedFor == NOBODY
    ensures peer < n.peers && n.role == Leader && n.currentTerm == install.term && installed.term > n.currentTerm ==>
              var m := HandleInstallReply(n, peer, install, installed); FollowsIn(m, installed.term) && m.votedFor == NOBODY
  {
    hide BackOff; hide AdvanceCommit;
  }

  /** A node that hears of a higher term follows in that term; its vote there is free, or was just given. */
  lemma HigherTermDeposes(s: Cluster, a: Action)
    requires Shaped(s) && Enabled(s, a) && Safe(s, a)
    requires Listens(s.nodes[a.i], a) && TermIn(a) > s.nodes[a.i].currentTerm
    ensures a.i < |Next(s, a).nodes|
    ensures var n2 := Next(s, a).nodes[a.i];
            FollowsIn(n2, TermIn(a)) && (n2.votedFor == NOBODY || (a.AnswerVote? && n2.votedFor == a.m.vote.candidate))
  {
    hide Observe; hide Vote; hide Elect; hide Commits; hide HistoryAfterAppend; hide FullAfterAppend; hide Continues;
    hide FollowsIn; hide RequestVote; hide AppendEntries; hide InstallSnapshot; hide HandleVoteReply; hide HandleAppendReply;
    hide HandleInstallReply;
    var n := s.nodes[a.i];
    assert n.Valid();
    var v, e, i := VoteRequest(0, 0, 0, 0), AppendRequest(0, 0, 0, 0, 0, []), InstallRequest(0, 0, 0, 0, "");
    var vr, er, ir := VoteResponse(0, false), AppendResponse(0, false, 0, 0), InstallResponse(0);
    match a
    case AnswerVote(_, m) => NothingContinues(); DeposedByAsk(n, m.vote, e, i);
    case AnswerAppend(_, m) => DeposedByAsk(n, v, m.append, i);
    case AnswerInstall(_, m) => NothingContinues(); DeposedByAsk(n, v, e, m.install);
    case CountVote(_, m) => DeposedByAnswer(n, m.from, m.vote, m.voted, e, er, i, ir);
    case CountAppend(_, m) => DeposedByAnswer(n, m.from, v, vr, m.append, m.appended, i, ir);
    case CountInstall(_, m) => DeposedByAnswer(n, m.from, v, vr, e, er, m.install, m.installed);
    case _ =>
  }

  lemma NothingContinues()
    ensures Continues(AppendRequest(0, 0, 0, 0, 0, []))
  {
  }

  /** Whoever hears from a leader of its own term or a higher one follows in that term. */
  lemma LeaderIsFollowed(s: Cluster, a: Action)
    requires Shaped(s) && Enabled(s, a) && Safe(s, a)
    requires (a.AnswerAppend? || a.AnswerInstall?) && TermIn(a) >= s.nodes[a.i].currentTerm
    ensures a.i < |Next(s, a).nodes|
    ensures Next(s, a).nodes[a.i].role == Follower && Next(s, a).nodes[a.i].currentTerm == TermIn(a)
  {
    hide Observe; hide Commits; hide HistoryAfterAppend; hide FullAfterAppend;
    hide Reconcile; hide Rejection; hide MatchLog; hide Continues;
  }

  // ----- What a leader appends -----

  /** A leader appends a proposed command behind its log, in its term, and persists it; others change nothing. */
  lemma ProposedIsAppended(s: Cluster, i: nat, command: Command)
    requires Shaped(s) && i < |s.nodes|
    ensures |s.nodes[i].logs| > 0 && i < |Next(s, Propose(i, command)).nodes|
    ensures var n, n2 := s.nodes[i], Next(s, Propose(i, command)).nodes[i];
            if n.role != Leader then n2 == n
            else
              var entry := Entry(n.Last().index + 1, n.currentTerm, command);
              && n2.logs == n.logs + [entry] && i < |n2.matchIndex| && i < |n2.nextIndex| && n2.role == Leader
              && n2.matchIndex == n.matchIndex[i := entry.index] && n2.nextIndex == n.nextIndex[i := entry.index + 1]
              && n2.currentTerm == n.currentTerm && n2.commitIndex == n.commitIndex
              && n2.saved == Some(Saved(n2.currentTerm, n2.votedFor, n2.logs))
  {
    hide Observe; hide Commits; hide Extend; hide Acknowledge;
  }
}
