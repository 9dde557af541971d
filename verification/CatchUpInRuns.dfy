/** The catch-up rounds start from what every run of a cluster provides. */
module CatchUpInRuns {
  import opened RaftTypes
  import opened RaftHandlers
  import opened RaftHistory
  import opened RaftHistorySteps
  import opened RaftCluster
  import opened RaftInvariant
  import opened RaftElectionSteps
  import opened RaftReplicationSteps
  import opened RaftSafety
  import opened RaftProgress
  import opened MajorityIndex
  import C = CatchUp

  /** An array shows at an index what its full log has there; at the dummy only the term. */
  ghost predicate ShowsFull(logs: seq<Entry>, full: seq<Entry>) {
    forall p :: C.Shown(logs, p) ==>
      && 0 <= p < |full| && C.EntryIn(logs, p).term == full[p].term
      && (p > logs[0].index ==> C.EntryIn(logs, p) == full[p])
  }

  lemma AnchoredShows(logs: seq<Entry>, full: seq<Entry>)
    requires Shows(logs, full) && Anchored(logs, full)
    ensures ShowsFull(logs, full)
  {
  }

  lemma AgreeAlike(a: seq<Entry>, b: seq<Entry>, fa: seq<Entry>, fb: seq<Entry>, p: nat)
    requires ShowsFull(a, fa) && ShowsFull(b, fb) && Agree(fa, fb, p)
    ensures C.AlikeTo(a, b, p)
  {
    forall q | q <= p ensures C.Alike(a, b, q) {
      if C.Shown(a, q) && C.Shown(b, q) {
        AgreeShorter(fa, fb, p, q);
      }
    }
  }

  /** What the follower has committed is in the log of a leader of its term or a higher one. */
  lemma CommittedAtLeader(s: Cluster, a: nat, b: nat)
    requires Inv(s) && a < |s.nodes| && b < |s.nodes| && |s.full| == |s.nodes|
    requires s.nodes[a].role == Leader && s.nodes[b].currentTerm <= s.nodes[a].currentTerm
    ensures var l, f := s.nodes[a], s.nodes[b];
            && |l.logs| > 0 && |f.logs| > 0 && f.commitIndex <= l.Last().index == |s.full[a]| - 1
            && C.AlikeTo(l.logs, f.logs, f.commitIndex)
            && s.full[a][f.First()].term == f.logs[0].term
  {
    hide Inv; hide HistoryOK; hide LogOK; hide ConfirmPart; hide VotePart; hide Chosen; hide Agree;
    ShapedAt(s);
    NodeAt(s, a);
    NodeAt(s, b);
    var l, f, fl, ff := s.nodes[a], s.nodes[b], s.full[a], s.full[b];
    LeaderFacts(s.h, a, l, fl);
    LogFacts(s.h, a, l, fl);
    LogFacts(s.h, b, f, ff);
    hide RolePart; hide BasePart;
    AnchoredShows(l.logs, fl);
    if f.commitIndex == 0 {
      ZeroAlike(s.h.tl, l.logs, fl, f.logs, ff);
    } else {
      var t, k :| CommittedVia(s.h, f.logs, ff, f.commitIndex, f.currentTerm, t, k);
      assert Own(s.h, t, k) by { ChosenIsOwn(s.h, t, k); }
      ChosenInLaterLeader(s.h, t, k, l.currentTerm);
      AgreeShorter(fl, s.h.tl[t], k, f.commitIndex);
      AgreeShorter(fl, s.h.tl[t], k, f.First());
      ViaAlike(s.h.tl[t], l.logs, fl, f.logs, ff, f.commitIndex);
    }
  }

  lemma ChosenIsOwn(h: History, t: nat, k: nat)
    requires Chosen(h, t, k)
    ensures Own(h, t, k)
  {
    hide Own;
  }

  lemma ZeroAlike(tl: map<nat, seq<Entry>>, a: seq<Entry>, fa: seq<Entry>, b: seq<Entry>, fb: seq<Entry>)
    requires Shows(a, fa) && Anchored(a, fa) && Shows(b, fb) && Anchored(b, fb) && LogOK(fa, tl) && LogOK(fb, tl)
    requires b[0].index == 0
    ensures C.AlikeTo(a, b, 0) && fa[0].term == b[0].term
  {
    AnchoredShows(a, fa);
    AnchoredShows(b, fb);
    assert fa[..1] == [DUMMY] == fb[..1];
    AgreeAlike(a, b, fa, fb, 0);
  }

  lemma ViaAlike(log: seq<Entry>, a: seq<Entry>, fa: seq<Entry>, b: seq<Entry>, fb: seq<Entry>, commit: nat)
    requires ShowsFull(a, fa) && |a| > 0 && Shows(b, fb) && Agree(fa, log, commit) && b[0].index <= commit
    requires b[0].term == log[b[0].index].term
    requires if Anchored(b, fb) then Agree(fb, log, commit) else commit == b[0].index
    ensures C.AlikeTo(a, b, commit)
  {
    AgreeShorter(fa, log, commit, b[0].index);
    if Anchored(b, fb) {
      AnchoredShows(b, fb);
      AgreeAlike(a, b, fa, fb, commit);
    }
  }

  /** Log Matching, from a leader's array to any other. */
  lemma MatchesLeader(s: Cluster, a: nat, b: nat)
    requires Inv(s) && a < |s.nodes| && b < |s.nodes|
    requires s.nodes[a].role == Leader && s.nodes[b].currentTerm <= s.nodes[a].currentTerm
    ensures C.Matching(s.nodes[a].logs, s.nodes[b].logs)
  {
    hide Inv; hide HistoryOK; hide LogOK; hide ConfirmPart; hide C.AlikeTo; hide C.Alike; hide CommitPart; hide RolePart;
    hide TermsUpTo; hide VotePart; hide BasePart;
    ShapedAt(s);
    NodeAt(s, a);
    NodeAt(s, b);
    var l, f, fl, ff := s.nodes[a], s.nodes[b], s.full[a], s.full[b];
    LeaderFacts(s.h, a, l, fl);
    LogFacts(s.h, a, l, fl);
    LogFacts(s.h, b, f, ff);
    CommittedAtLeader(s, a, b);
    AnchoredShows(l.logs, fl);
    forall p | C.Shown(l.logs, p) && C.Shown(f.logs, p) && C.EntryIn(l.logs, p).term == C.EntryIn(f.logs, p).term
      ensures C.AlikeTo(l.logs, f.logs, p)
    {
      if p == f.First() {
        AlikeLower(l.logs, f.logs, p, f.commitIndex);
      } else {
        assert C.EntryIn(f.logs, p) == ff[p];
        SameTermSamePrefix(fl, ff, s.h.tl, p);
        AgreeShorter(fl, ff, p, f.First());
        AnchoredShows(f.logs, ff);
        AgreeAlike(l.logs, f.logs, fl, ff, p);
      }
    }
  }

  lemma AlikeLower(a: seq<Entry>, b: seq<Entry>, p: int, q: int)
    requires C.AlikeTo(a, b, q) && p <= q
    ensures C.AlikeTo(a, b, p)
  {
  }

  /** A leader and any node in no higher term are a pair as the catch-up rounds need them, in every run. */
  lemma PairInRun(size: nat, states: seq<Cluster>, actions: seq<Action>, k: nat, a: nat, b: nat)
    requires Run(size, states, actions) && k < |states| && a < |states[k].nodes| && b < |states[k].nodes|
    requires states[k].nodes[a].role == Leader && states[k].nodes[b].currentTerm <= states[k].nodes[a].currentTerm
    ensures C.Pair(states[k].nodes[a], states[k].nodes[b], b)
  {
    hide Run; hide Inv; hide HistoryOK; hide NodeOK; hide C.Matching; hide C.AlikeTo; hide Contiguous;
    RunInv(size, states, actions, k);
    var s := states[k];
    ShapedAt(s);
    NodeAt(s, a);
    CommittedAtLeader(s, a, b);
    MatchesLeader(s, a, b);
    NextBounded(s.h, a, s.nodes[a], s.full[a], b);
    LeaderFacts(s.h, a, s.nodes[a], s.full[a]);
    TermsPositive(s.h);
  }

  lemma TermsPositive(h: History)
    requires HistoryOK(h)
    ensures forall t :: t in h.tl ==> t > 0
  {
    hide LogOK; hide TermsUpTo; hide LeadersComplete; hide VotesInformed;
  }

  // ----- A round is a few steps of the cluster -----

  /** Nothing but the two nodes has changed. */
  ghost predicate OnlyMoves(s: Cluster, s2: Cluster, a: nat, b: nat) {
    && |s2.nodes| == |s.nodes|
    && forall c :: 0 <= c < |s.nodes| && c != a && c != b ==> s2.nodes[c] == s.nodes[c]
  }

  lemma SentRound(s: Cluster, a: nat, b: nat)
    requires Shaped(s) && Enabled(s, Replicate(a, b)) && Safe(s, Replicate(a, b))
    ensures var n, s2, prev := s.nodes[a], Next(s, Replicate(a, b)), s.nodes[a].nextIndex[b] - 1;
            && n.Valid() && |n.logs| > 0 && s2.nodes == s.nodes
            && (prev < n.First() ==> InstallAsk(b, InstallRequestFor(n)) in s2.msgs)
            && (prev >= n.First() ==> prev <= n.Last().index && AppendAsk(b, AppendRequestFor(n, prev)) in s2.msgs)
  {
    hide Commits;
  }

  lemma AnsweredAppend(s: Cluster, b: nat, r: AppendRequest)
    requires Shaped(s) && b < |s.nodes| && AppendAsk(b, r) in s.msgs && Safe(s, AnswerAppend(b, AppendAsk(b, r)))
    ensures Enabled(s, AnswerAppend(b, AppendAsk(b, r))) && s.nodes[b].Valid() && Continues(r)
    ensures var s2 := Next(s, AnswerAppend(b, AppendAsk(b, r)));
            && s2.nodes == s.nodes[b := AppendEntries(s.nodes[b], r).0]
            && AppendAnswer(b, r, AppendEntries(s.nodes[b], r).1) in s2.msgs
  {
    hide Commits; hide HistoryAfterAppend; hide FullAfterAppend; hide AppendEntries;
  }

  lemma CountedAppend(s: Cluster, a: nat, b: nat, r: AppendRequest, response: AppendResponse)
    requires Shaped(s) && a < |s.nodes| && AppendAnswer(b, r, response) in s.msgs && r.leader == a
    requires Enabled(s, CountAppend(a, AppendAnswer(b, r, response))) && Safe(s, CountAppend(a, AppendAnswer(b, r, response)))
    ensures s.nodes[a].Valid() && b < s.nodes[a].peers
    ensures Next(s, CountAppend(a, AppendAnswer(b, r, response))).nodes
         == s.nodes[a := HandleAppendReply(s.nodes[a], b, r, response)]
  {
    hide Commits; hide HandleAppendReply; hide Observe;
  }

  lemma AppendRound(size: nat, states: seq<Cluster>, actions: seq<Action>, a: nat, b: nat)
    returns (states2: seq<Cluster>, actions2: seq<Action>)
    requires Run(size, states, actions) && |states| > 0 && a < |states[|states| - 1].nodes| && b < |states[|states| - 1].nodes| && a != b
    requires var l := states[|states| - 1].nodes[a];
             l.role == Leader && states[|states| - 1].nodes[b].currentTerm <= l.currentTerm && b < |l.nextIndex|
    requires C.Pair(states[|states| - 1].nodes[a], states[|states| - 1].nodes[b], b)
    requires states[|states| - 1].nodes[a].nextIndex[b] - 1 >= states[|states| - 1].nodes[a].First()
    ensures Run(size, states2, actions2) && states <= states2 && |states2| > 0
    ensures OnlyMoves(states[|states| - 1], states2[|states2| - 1], a, b)
    ensures var s, s2 := states[|states| - 1], states2[|states2| - 1];
            (s2.nodes[a], s2.nodes[b]) == C.Round(s.nodes[a], s.nodes[b], b)
  {
    hide Run; hide Next; hide Shaped; hide Safe; hide C.Pair; hide AppendEntries; hide HandleAppendReply; hide Contiguous;
    hide AppendRequestFor; hide Continues;
    var s := states[|states| - 1];
    LastShaped(size, states, actions);
    var s1 := RunOn(size, states, actions, Replicate(a, b));
    var acts := actions + [Replicate(a, b)];
    SentRound(s, a, b);
    var r := AppendRequestFor(s.nodes[a], s.nodes[a].nextIndex[b] - 1);
    assert r.leader == a by { RequestLeader(s, a, s.nodes[a].nextIndex[b] - 1); }
    var ask := AnswerAppend(b, AppendAsk(b, r));
    LastShaped(size, s1, acts);
    var s2 := RunOn(size, s1, acts, ask);
    acts := acts + [ask];
    AnsweredAppend(s1[|s1| - 1], b, r);
    var response := AppendEntries(s.nodes[b], r).1;
    var count := CountAppend(a, AppendAnswer(b, r, response));
    LastShaped(size, s2, acts);
    states2 := RunOn(size, s2, acts, count);
    actions2 := acts + [count];
    CountedAppend(s2[|s2| - 1], a, b, r, response);
  }

  lemma RequestLeader(s: Cluster, a: nat, prev: nat)
    requires Shaped(s) && a < |s.nodes| && s.nodes[a].First() <= prev <= s.nodes[a].Last().index
    ensures Contiguous(s.nodes[a].logs) && AppendRequestFor(s.nodes[a], prev).leader == a
  {
  }

  lemma AnsweredInstall(s: Cluster, b: nat, r: InstallRequest)
    requires Shaped(s) && b < |s.nodes| && InstallAsk(b, r) in s.msgs
    ensures Enabled(s, AnswerInstall(b, InstallAsk(b, r))) && |s.nodes[b].logs| > 0
    ensures var s2, (n, response, offered) := Next(s, AnswerInstall(b, InstallAsk(b, r))), InstallSnapshot(s.nodes[b], r);
            && s2.nodes == s.nodes[b := n] && InstallAnswer(b, r, response) in s2.msgs
            && (offered.Some? ==> SnapshotReady(b, r.term, offered.value) in s2.msgs)
  {
    hide Commits; hide InstallSnapshot; hide Observe;
  }

  lemma ServicedInRun(size: nat, states: seq<Cluster>, actions: seq<Action>, b: nat, sender: nat, offered: Option<SnapshotMsg>)
    returns (states2: seq<Cluster>, actions2: seq<Action>)
    requires Run(size, states, actions) && |states| > 0 && b < |states[|states| - 1].nodes|
    requires offered.Some? ==> SnapshotReady(b, sender, offered.value) in states[|states| - 1].msgs
    ensures Run(size, states2, actions2) && states <= states2 && |states2| > 0 && states[|states| - 1].nodes[b].Valid()
    ensures states[|states| - 1].msgs <= states2[|states2| - 1].msgs
    ensures states2[|states2| - 1].nodes
         == states[|states| - 1].nodes[b := C.Serviced(states[|states| - 1].nodes[b], offered)]
  {
    hide Run; hide Shaped; hide Commits; hide CondInstallSnapshot; hide FullAfterInstall;
    LastShaped(size, states, actions);
    states2, actions2 := states, actions;
    if offered.Some? {
      states2 := RunOn(size, states, actions, Install(b, SnapshotReady(b, sender, offered.value)));
      actions2 := actions + [Install(b, SnapshotReady(b, sender, offered.value))];
    }
  }

  lemma CountedInstall(s: Cluster, a: nat, b: nat, r: InstallRequest, response: InstallResponse)
    requires Shaped(s) && a < |s.nodes| && InstallAnswer(b, r, response) in s.msgs && r.leader == a
    requires Enabled(s, CountInstall(a, InstallAnswer(b, r, response))) && Safe(s, CountInstall(a, InstallAnswer(b, r, response)))
    ensures s.nodes[a].Valid() && b < s.nodes[a].peers
    ensures Next(s, CountInstall(a, InstallAnswer(b, r, response))).nodes
         == s.nodes[a := HandleInstallReply(s.nodes[a], b, r, response)]
  {
    hide Commits; hide HandleInstallReply; hide Observe;
  }

  lemma InstallRound(size: nat, states: seq<Cluster>, actions: seq<Action>, a: nat, b: nat)
    returns (states2: seq<Cluster>, actions2: seq<Action>)
    requires Run(size, states, actions) && |states| > 0 && a < |states[|states| - 1].nodes| && b < |states[|states| - 1].nodes| && a != b
    requires var l := states[|states| - 1].nodes[a];
             l.role == Leader && states[|states| - 1].nodes[b].currentTerm <= l.currentTerm && b < |l.nextIndex| && |l.logs| > 0
    requires C.Pair(states[|states| - 1].nodes[a], states[|states| - 1].nodes[b], b)
    requires states[|states| - 1].nodes[a].nextIndex[b] - 1 < states[|states| - 1].nodes[a].First()
    ensures Run(size, states2, actions2) && states <= states2 && |states2| > 0
    ensures OnlyMoves(states[|states| - 1], states2[|states2| - 1], a, b)
    ensures var s, s2 := states[|states| - 1], states2[|states2| - 1];
            (s2.nodes[a], s2.nodes[b]) == C.Round(s.nodes[a], s.nodes[b], b)
  {
    hide Run; hide Next; hide Shaped; hide Safe; hide C.Pair; hide InstallSnapshot; hide HandleInstallReply; hide Contiguous;
    hide C.Serviced;
    var s := states[|states| - 1];
    LastShaped(size, states, actions);
    var s1 := RunOn(size, states, actions, Replicate(a, b));
    var acts := actions + [Replicate(a, b)];
    SentRound(s, a, b);
    var r := InstallRequestFor(s.nodes[a]);
    assert r.leader == a by { OwnName(s, a); }
    LastShaped(size, s1, acts);
    AnsweredInstall(s1[|s1| - 1], b, r);
    var s2 := RunOn(size, s1, acts, AnswerInstall(b, InstallAsk(b, r)));
    acts := acts + [AnswerInstall(b, InstallAsk(b, r))];
    var (f, response, offered) := InstallSnapshot(s.nodes[b], r);
    var s3, acts3 := ServicedInRun(size, s2, acts, b, r.term, offered);
    LastShaped(size, s3, acts3);
    var count := CountInstall(a, InstallAnswer(b, r, response));
    states2 := RunOn(size, s3, acts3, count);
    actions2 := acts3 + [count];
    CountedInstall(s3[|s3| - 1], a, b, r, response);
  }

  lemma OwnName(s: Cluster, a: nat)
    requires Shaped(s) && a < |s.nodes|
    ensures s.nodes[a].me == a && |s.nodes[a].logs| > 0
  {
  }

  /** Every round of a leader and a peer in no higher term is a continuation of the run that moves only the two. */
  lemma RoundInRun(size: nat, states: seq<Cluster>, actions: seq<Action>, a: nat, b: nat)
    returns (states2: seq<Cluster>, actions2: seq<Action>)
    requires Run(size, states, actions) && |states| > 0 && a < |states[|states| - 1].nodes| && b < |states[|states| - 1].nodes| && a != b
    requires var l := states[|states| - 1].nodes[a];
             l.role == Leader && states[|states| - 1].nodes[b].currentTerm <= l.currentTerm
    ensures C.Pair(states[|states| - 1].nodes[a], states[|states| - 1].nodes[b], b)
    ensures Run(size, states2, actions2) && states <= states2 && |states2| > 0
    ensures OnlyMoves(states[|states| - 1], states2[|states2| - 1], a, b)
    ensures var s, s2 := states[|states| - 1], states2[|states2| - 1];
            (s2.nodes[a], s2.nodes[b]) == C.Round(s.nodes[a], s.nodes[b], b)
  {
    hide Run; hide C.Round; hide OnlyMoves; hide C.Pair;
    PairInRun(size, states, actions, |states| - 1, a, b);
    var l, f := states[|states| - 1].nodes[a], states[|states| - 1].nodes[b];
    C.PairShape(l, f, b);
    if l.nextIndex[b] - 1 < l.First() {
      states2, actions2 := InstallRound(size, states, actions, a, b);
    } else {
      states2, actions2 := AppendRound(size, states, actions, a, b);
    }
  }

  // ----- All rounds, and a command that gets committed -----

  /** The last state of a run shows this pair at nodes a and b, and the others as in s. */
  ghost predicate Stands(s: Cluster, s2: Cluster, a: nat, b: nat, pair: (Node, Node)) {
    a < |s2.nodes| && b < |s2.nodes| && OnlyMoves(s, s2, a, b) && (s2.nodes[a], s2.nodes[b]) == pair
  }

  lemma {:induction false} RoundsInRun(size: nat, states: seq<Cluster>, actions: seq<Action>, a: nat, b: nat,
                                       rounds: seq<(Node, Node)>, j: nat)
    returns (states2: seq<Cluster>, actions2: seq<Action>)
    requires Run(size, states, actions) && |states| > 0 && a != b && C.Rounds(rounds, b) && j < |rounds|
    requires Stands(states[|states| - 1], states[|states| - 1], a, b, rounds[0])
    ensures Run(size, states2, actions2) && states <= states2 && |states2| > 0
    ensures Stands(states[|states| - 1], states2[|states2| - 1], a, b, rounds[j])
    decreases j
  {
    hide Run; hide C.Round; hide C.Pair;
    states2, actions2 := states, actions;
    if j > 0 {
      var states1, actions1 := RoundsInRun(size, states, actions, a, b, rounds, j - 1);
      assert C.Goes(rounds[j - 1], rounds[j], b);
      PairRoles(rounds[j - 1].0, rounds[j - 1].1, b);
      states2, actions2 := RoundInRun(size, states1, actions1, a, b);
    }
  }

  lemma PairRoles(leader: Node, follower: Node, peer: nat)
    requires C.Pair(leader, follower, peer)
    ensures leader.role == Leader && follower.currentTerm <= leader.currentTerm
  {
  }

  /** From every reachable state: a peer that has not compacted further than the leader can be caught up. */
  lemma CatchesUpInRun(size: nat, states: seq<Cluster>, actions: seq<Action>, a: nat, b: nat)
    returns (states2: seq<Cluster>, actions2: seq<Action>)
    requires Run(size, states, actions) && |states| > 0 && Follows(states[|states| - 1], a, b)
    ensures Run(size, states2, actions2) && states <= states2 && |states2| > 0
    ensures a < |states2[|states2| - 1].nodes| && b < |states2[|states2| - 1].nodes|
    ensures var s, s2 := states[|states| - 1], states2[|states2| - 1];
            && OnlyMoves(s, s2, a, b) && C.SameLeader(s.nodes[a], s2.nodes[a], b)
            && C.CaughtUp(s2.nodes[a], s2.nodes[b], b, s.nodes[a].commitIndex) && C.Advanced(s2.nodes[a], s.nodes[a].commitIndex)
  {
    hide Run; hide C.Pair; hide C.Rounds; hide C.CaughtUp; hide C.Advanced; hide C.SameLeader;
    var s := states[|states| - 1];
    PairInRun(size, states, actions, |states| - 1, a, b);
    var rounds := C.CatchesUp(s.nodes[a], s.nodes[b], b);
    assert |rounds| > 0 by { SomeRound(rounds, b); }
    states2, actions2 := RoundsInRun(size, states, actions, a, b, rounds, |rounds| - 1);
  }

  lemma SomeRound(rounds: seq<(Node, Node)>, peer: nat)
    requires C.Rounds(rounds, peer)
    ensures |rounds| > 0
  {
    hide C.Goes;
  }

  /** Node b is in no higher term than leader a and has not compacted further. */
  ghost predicate Follows(s: Cluster, a: nat, b: nat) {
    && a < |s.nodes| && b < |s.nodes| && a != b && |s.nodes[a].logs| > 0 && |s.nodes[b].logs| > 0
    && s.nodes[a].role == Leader && s.nodes[b].currentTerm <= s.nodes[a].currentTerm
    && s.nodes[b].First() <= s.nodes[a].First()
  }

  ghost predicate AllFollow(s: Cluster, a: nat, peers: seq<nat>, from: nat) {
    forall i :: from <= i < |peers| ==> Follows(s, a, peers[i])
  }

  /** The leader knows that these peers, and itself, have its whole log. */
  ghost predicate Knows(n: Node, a: nat, peers: seq<nat>, j: nat)
    requires j <= |peers|
  {
    && |n.logs| > 0 && a < |n.matchIndex| && n.matchIndex[a] == n.Last().index
    && forall i :: 0 <= i < j ==> peers[i] < |n.matchIndex| && n.matchIndex[peers[i]] == n.Last().index
  }

  lemma {:induction false} AllCatchUp(size: nat, states: seq<Cluster>, actions: seq<Action>, a: nat, peers: seq<nat>, j: nat)
    returns (states2: seq<Cluster>, actions2: seq<Action>)
    requires Run(size, states, actions) && |states| > 0 && AllFollow(states[|states| - 1], a, peers, 0) && 0 < j <= |peers|
    requires forall i, k :: 0 <= i < k < |peers| ==> peers[i] != peers[k]
    requires a < |states[|states| - 1].nodes| && Knows(states[|states| - 1].nodes[a], a, peers, 0)
    ensures Run(size, states2, actions2) && states <= states2 && |states2| > 0 && a < |states2[|states2| - 1].nodes|
    ensures AllFollow(states2[|states2| - 1], a, peers, j)
    ensures var was, now := states[|states| - 1].nodes[a], states2[|states2| - 1].nodes[a];
            && Knows(now, a, peers, j) && now.logs == was.logs && now.role == Leader && now.currentTerm == was.currentTerm
            && exists commit :: C.Advanced(now, commit)
    decreases j
  {
    hide Run; hide C.CaughtUp; hide C.Advanced;
    var states1, actions1 := states, actions;
    if j > 1 {
      states1, actions1 := AllCatchUp(size, states, actions, a, peers, j - 1);
    }
    var b := peers[j - 1];
    var s1 := states1[|states1| - 1];
    assert Follows(s1, a, b);
    states2, actions2 := CatchesUpInRun(size, states1, actions1, a, b);
    var s2 := states2[|states2| - 1];
    MatchesB(s2.nodes[a], s2.nodes[b], b, s1.nodes[a].commitIndex);
    assert C.Advanced(s2.nodes[a], s1.nodes[a].commitIndex);
    forall i | j <= i < |peers| ensures Follows(s2, a, peers[i]) {
      assert Follows(s1, a, peers[i]);
    }
  }

  lemma MatchesB(l: Node, f: Node, b: nat, commit: nat)
    requires C.CaughtUp(l, f, b, commit)
    ensures |l.logs| > 0 && b < |l.matchIndex| && l.matchIndex[b] == l.Last().index
  {
    hide C.AlikeTo;
  }

  lemma {:induction false} KnownReach(m: seq<int>, a: nat, peers: seq<nat>, j: nat, v: int)
    requires j <= |peers| && a < |m| && m[a] >= v && a !in peers
    requires forall i, k :: 0 <= i < k < |peers| ==> peers[i] != peers[k]
    requires forall i :: 0 <= i < j ==> peers[i] < |m| && m[peers[i]] >= v
    ensures |Voters(a, peers[..j])| == j + 1 && Voters(a, peers[..j]) <= Reached(m, v) && |Reached(m, v)| >= j + 1
  {
    CountVoters(a, peers, j);
    forall x | x in Voters(a, peers[..j]) ensures x in Reached(m, v) {
    }
    SubsetSize(Voters(a, peers[..j]), Reached(m, v));
  }

  /** What the leader knows suffices for the commit rule. */
  lemma KnownIsCommitted(s: Cluster, a: nat, peers: seq<nat>, commit: nat)
    requires Inv(s) && a < |s.nodes| && s.nodes[a].role == Leader && Knows(s.nodes[a], a, peers, |peers|)
    requires a !in peers && forall i, k :: 0 <= i < k < |peers| ==> peers[i] != peers[k]
    requires |peers| + 1 >= s.nodes[a].peers / 2 + 1 && C.Advanced(s.nodes[a], commit)
    requires s.nodes[a].First() < s.nodes[a].Last().index && s.nodes[a].Last().term == s.nodes[a].currentTerm
    ensures s.nodes[a].commitIndex == s.nodes[a].Last().index
  {
    hide Inv; hide AdvanceCommit;
    var now := s.nodes[a];
    var n := now.(commitIndex := commit);
    MatchesInLog(s, a);
    TermsNeverFall(s, a);
    SameHeld(n, now);
    AdvanceIsExact(n);
    KnownReach(now.matchIndex, a, peers, |peers|, now.Last().index);
    assert Committable(n, now.Last().index);
  }

  /**
    * From every reachable state and for every cluster size: a command proposed to a leader is
    * committed there once enough peers, a strict majority with itself, have been caught up.
    * The peers may have any logs, as long as they are in no higher term and have not
    * compacted further than the leader.
    */
  lemma CommandCommits(size: nat, states: seq<Cluster>, actions: seq<Action>, a: nat, command: Command, peers: seq<nat>)
    returns (states2: seq<Cluster>, actions2: seq<Action>)
    requires Run(size, states, actions) && |states| > 0 && AllFollow(states[|states| - 1], a, peers, 0)
    requires a < |states[|states| - 1].nodes| && peers != [] && 2 * (|peers| + 1) > size
    requires forall i, k :: 0 <= i < k < |peers| ==> peers[i] != peers[k]
    ensures Run(size, states2, actions2) && states <= states2 && |states2| > 0 && a < |states2[|states2| - 1].nodes|
    ensures |states[|states| - 1].nodes[a].logs| > 0
    ensures var was, now := states[|states| - 1].nodes[a], states2[|states2| - 1].nodes[a];
            var entry := Entry(was.Last().index + 1, was.currentTerm, command);
            now.role == Leader && now.logs == was.logs + [entry] && now.commitIndex == entry.index
  {
    hide Run; hide Next; hide Shaped; hide C.Advanced; hide Inv;
    var s := states[|states| - 1];
    assert Follows(s, a, peers[0]);
    LastShaped(size, states, actions);
    ProposedIsAppended(s, a, command);
    ProposeMoves(s, a, command);
    var states1 := RunOn(size, states, actions, Propose(a, command));
    var s1 := states1[|states1| - 1];
    var actions1 := actions + [Propose(a, command)];
    forall i | 0 <= i < |peers| ensures Follows(s1, a, peers[i]) {
      assert Follows(s, a, peers[i]);
    }
    states2, actions2 := AllCatchUp(size, states1, actions1, a, peers, |peers|);
    var s2 := states2[|states2| - 1];
    var commit :| C.Advanced(s2.nodes[a], commit);
    LastShaped(size, states2, actions2);
    RunInv(size, states2, actions2, |states2| - 1);
    hide AllFollow;
    NewestEntry(s.nodes[a], s2.nodes[a], command);
    KnownIsCommitted(s2, a, peers, commit);
  }

  lemma ProposeMoves(s: Cluster, a: nat, command: Command)
    requires Shaped(s) && a < |s.nodes|
    ensures Enabled(s, Propose(a, command)) && |Next(s, Propose(a, command)).nodes| == |s.nodes|
    ensures forall c :: 0 <= c < |s.nodes| && c != a ==> Next(s, Propose(a, command)).nodes[c] == s.nodes[c]
  {
    hide Commits; hide Start; hide Extend; hide Acknowledge;
  }

  lemma NewestEntry(was: Node, now: Node, command: Command)
    requires was.Valid() && now.logs == was.logs + [Entry(was.logs[|was.logs| - 1].index + 1, was.currentTerm, command)]
    requires now.currentTerm == was.currentTerm
    ensures now.First() < now.Last().index && now.Last().term == now.currentTerm
  {
  }
}
