/**
  * A follower that handles an AppendEntries request keeps the cluster invariant. Where its
  * log meets the request at the previous index, it agrees afterwards with the log of the
  * request's leader up to the last entry sent, in each of the three cases of the scan, and
  * the record confirms that much of it. The commit index moves only inside it.
  */
module RaftAppendSteps {
  import opened RaftTypes
  import opened RaftHandlers
  import opened RaftHistory
  import opened RaftHistorySteps
  import opened RaftCluster
  import opened RaftInvariant
  import opened RaftElectionSteps
  import opened MajorityIndex

  // ----- The scan -----

  predicate Matches(logs: seq<Entry>, e: Entry)
    requires |logs| > 0
  {
    logs[0].index <= e.index < logs[0].index + |logs| && logs[e.index - logs[0].index].term == e.term
  }

  /** The scan stops at the first entry j that does not match, or accepts all of them. */
  lemma ReconcileCases(logs: seq<Entry>, entries: seq<Entry>, k: nat) returns (j: nat)
    requires Contiguous(logs)
    requires forall x :: 0 <= x < |entries| ==> entries[x].index == entries[0].index + x
    requires k <= |entries|
    requires k < |entries| ==> logs[0].index < entries[k].index <= logs[0].index + |logs|
    ensures k <= j <= |entries|
    ensures forall x :: k <= x < j ==> Matches(logs, entries[x])
    ensures j == |entries| ==> Reconcile(logs, entries, k) == logs
    ensures j < |entries| ==>
              && !Matches(logs, entries[j])
              && logs[0].index < entries[j].index <= logs[0].index + |logs|
              && Reconcile(logs, entries, k) == logs[..entries[j].index - logs[0].index] + entries[j..]
    decreases |entries| - k
  {
    if k == |entries| || !Matches(logs, entries[k]) {
      j := k;
    } else {
      j := ReconcileCases(logs, entries, k + 1);
    }
  }

  // ----- What a node knows about the log of its term's leader -----

  lemma CommittedFacts(h: History, i: nat, n: Node, full: seq<Entry>)
    requires NodeOK(h, i, n, full)
    ensures |n.logs| > 0 && n.First() <= n.commitIndex < |full|
    ensures n.commitIndex == 0 ==> Anchored(n.logs, full)
    ensures n.commitIndex > 0 ==> exists t: nat, k: nat :: CommittedVia(h, n.logs, full, n.commitIndex, n.currentTerm, t, k)
    ensures !Anchored(n.logs, full) ==> n.commitIndex == n.First() && |n.logs| >= 2
  {
    hide LogOK; hide TermsUpTo; hide VotePart; hide ConfirmPart; hide RolePart; hide CommittedVia;
  }

  /** The node's commit index lies on the leader's log, and so does its dummy. */
  lemma CommitOnLeader(h: History, i: nat, n: Node, full: seq<Entry>, term: nat)
    requires HistoryOK(h) && NodeOK(h, i, n, full) && term in h.tl && n.currentTerm <= term
    ensures |n.logs| > 0 && n.First() <= n.commitIndex < |full| && n.commitIndex < |h.tl[term]|
    ensures n.logs[0].term == h.tl[term][n.First()].term
    ensures Covered(h, term, n.commitIndex)
    ensures Anchored(n.logs, full) ==> Agree(full, h.tl[term], n.commitIndex)
    ensures !Anchored(n.logs, full) ==> n.commitIndex == n.First() && !Agree(full, h.tl[term], n.First())
  {
    CommittedFacts(h, i, n, full);
    LogFacts(h, i, n, full);
    TermLogFacts(h);
    if n.commitIndex == 0 {
      hide NodeOK; hide HistoryOK;
      SameTermSamePrefix(full, h.tl[term], h.tl, 0);
    } else {
      var t: nat, k: nat :| CommittedVia(h, n.logs, full, n.commitIndex, n.currentTerm, t, k);
      hide NodeOK; hide HistoryOK; hide LogOK; hide LogPart; hide ConfirmPart;
      ChosenInLaterLeader(h, t, k, term);
      AgreeShorter(h.tl[term], h.tl[t], k, n.commitIndex);
      AgreeShorter(h.tl[term], h.tl[t], k, n.First());
      if Anchored(n.logs, full) {
        AgreeBack(full, h.tl[term], h.tl[t], n.commitIndex);
      } else if Agree(full, h.tl[term], n.First()) {
        AgreeShorter(full, h.tl[term], n.First(), n.First());
      }
    }
  }

  lemma AgreeBack(a: seq<Entry>, b: seq<Entry>, c: seq<Entry>, k: nat)
    requires Agree(a, c, k) && Agree(b, c, k)
    ensures Agree(a, b, k)
  {
  }

  /** A matching term at a visible position means the logs agree up to it. */
  lemma MatchAgrees(h: History, i: nat, n: Node, full: seq<Entry>, pos: nat)
    requires HistoryOK(h) && NodeOK(h, i, n, full) && n.currentTerm in h.tl && pos < |h.tl[n.currentTerm]|
    requires |n.logs| > 0 && n.First() <= pos < n.First() + |n.logs|
    requires n.logs[pos - n.First()].term == h.tl[n.currentTerm][pos].term
    ensures Anchored(n.logs, full) ==> Agree(full, h.tl[n.currentTerm], pos)
    ensures !Anchored(n.logs, full) ==> pos == n.First()
  {
    hide HistoryOK; hide NodeOK; hide ConfirmPart; hide LogOK; hide TermsUpTo; hide Agree;
    LogFacts(h, i, n, full);
    TermLogFacts(h);
    CommitOnLeader(h, i, n, full, n.currentTerm);
    if pos > n.First() || Anchored(n.logs, full) {
      ShownAt(n.logs, full, pos);
      SameTermSamePrefix(full, h.tl[n.currentTerm], h.tl, pos);
      AgreeShorter(full, h.tl[n.currentTerm], pos, n.First());
    }
  }

  // ----- The follower's log becomes a prefix of the leader's -----

  /** Replacing a log that leaves the leader's at p keeps everything confirmed before. */
  lemma ReplacedConfirms(h: History, i: nat, full: seq<Entry>, term: nat, upTo: nat, p: nat)
    requires HistoryOK(h) && ConfirmPart(h, i, full) && i < |h.terms| && h.terms[i] <= term && term in h.tl
    requires p <= upTo < |h.tl[term]| && !Agree(full, h.tl[term], p)
    ensures ConfirmPart(h, i, h.tl[term][..upTo + 1])
  {
    forall t: nat, k: nat | Own(h, t, k) && Acked(h, t, i) >= k
      ensures t in h.tl && KeptOrDead(h, h.tl[term][..upTo + 1], t, k)
    {
      hide HistoryOK; hide ConfirmPart; hide Dead; hide Agree; hide Own; hide Acked;
      AckedTerm(h, i, t, k);
      ConfirmAt(h, i, full, t, k);
      if Agree(full, h.tl[t], k) {
        ReplacedKeeps(h, full, term, upTo, p, t, k);
      }
    }
  }

  lemma ConfirmAt(h: History, i: nat, full: seq<Entry>, t: nat, k: nat)
    requires ConfirmPart(h, i, full) && Own(h, t, k) && Acked(h, t, i) >= k
    ensures t in h.tl && KeptOrDead(h, full, t, k)
  {
    hide KeptOrDead;
  }

  lemma ReplacedKeeps(h: History, full: seq<Entry>, term: nat, upTo: nat, p: nat, t: nat, k: nat)
    requires HistoryOK(h) && term in h.tl && t <= term && Own(h, t, k) && t in h.tl && k < |h.tl[t]|
    requires p <= upTo < |h.tl[term]| && !Agree(full, h.tl[term], p) && Agree(full, h.tl[t], k)
    ensures KeptOrDead(h, h.tl[term][..upTo + 1], t, k)
  {
    hide HistoryOK; hide Dead; hide Agree; hide Own;
    if t < term {
      KeepsAllAt(h, term, t, k);
    } else {
      OwnAgrees(h.tl[t], k);
    }
    if Agree(h.tl[term], h.tl[t], k) {
      AgreeBack(full, h.tl[term], h.tl[t], k);
      if k >= p {
        AgreeShorter(full, h.tl[term], k, p);
      }
      CutAgrees(h.tl[term], upTo, k);
      AgreeThrough(h.tl[term][..upTo + 1], h.tl[term], h.tl[t], k);
    }
  }

  lemma OwnAgrees(a: seq<Entry>, k: nat)
    requires k < |a|
    ensures Agree(a, a, k)
  {
  }

  lemma CutAgrees(a: seq<Entry>, upTo: nat, k: nat)
    requires k <= upTo < |a|
    ensures Agree(a[..upTo + 1], a, k)
  {
    AgreePrefix(a[..upTo + 1], a, k);
  }

  lemma AckedTerm(h: History, i: nat, t: nat, k: nat)
    requires HistoryOK(h) && Own(h, t, k) && Acked(h, t, i) >= k && i < |h.terms|
    ensures t <= h.terms[i] && t in h.tl && k < |h.tl[t]|
  {
    hide LogOK; hide KeepsAll; hide Informed; hide ElectionOK;
  }

  /** The committed part of a log that agrees with the leader's. */
  lemma CommitFromLeader(h: History, logs: seq<Entry>, full: seq<Entry>, commit: nat, term: nat)
    requires HistoryOK(h) && term in h.tl && Covered(h, term, commit) && Agree(full, h.tl[term], commit)
    requires |logs| > 0 && logs[0].index <= commit && Anchored(logs, full)
    ensures CommitPart(h, logs, full, commit, term)
  {
    if commit > 0 {
      var t: nat, k: nat :| t <= term && commit <= k && Chosen(h, t, k);
      ChosenInLaterLeader(h, t, k, term);
      hide HistoryOK; hide Chosen;
      AgreeShorter(h.tl[term], h.tl[t], k, commit);
      AgreeThrough(full, h.tl[term], h.tl[t], commit);
      AgreeShorter(full, h.tl[t], commit, logs[0].index);
      assert CommittedVia(h, logs, full, commit, term, t, k);
    }
  }

  lemma CoveredMax(h: History, term: nat, c: int, d: int)
    requires Covered(h, term, c) && Covered(h, term, d)
    ensures Covered(h, term, Max(c, d))
  {
  }

  // ----- Recording the confirmation -----

  ghost function Confirmed(h: History, i: nat, upTo: nat): History
    requires i < |h.terms|
  {
    if Acked(h, h.terms[i], i) <= upTo then Acknowledge(h, i, upTo) else h
  }

  lemma ConfirmedOK(h: History, i: nat, full: seq<Entry>, upTo: nat)
    requires HistoryOK(h) && ConfirmPart(h, i, full) && i < |h.terms| && h.terms[i] in h.tl
    requires Agree(full, h.tl[h.terms[i]], upTo)
    ensures var h2 := Confirmed(h, i, upTo);
            && HistoryOK(h2) && Grows(h, h2) && ConfirmPart(h2, i, full) && Acked(h2, h.terms[i], i) >= upTo
            && h2.ballots == h.ballots && h2.elections == h.elections && h2.terms == h.terms && h2.size == h.size
            && forall j: nat :: j < |h.terms| && j != i ==> Untouched(h, h2, j)
  {
    hide HistoryOK; hide ConfirmPart; hide Grows; hide Untouched;
    StaysOK(h, i);
    if Acked(h, h.terms[i], i) <= upTo {
      AcknowledgeOK(h, i, upTo);
      AcknowledgeTouchesNobodyElse(h, i, upTo);
      NewlyConfirmed(h, Acknowledge(h, i, upTo), i, full, upTo);
    }
  }

  lemma AcknowledgeTouchesNobodyElse(h: History, i: nat, k: nat)
    requires HistoryOK(h) && i < |h.terms| && Grows(h, Acknowledge(h, i, k))
    ensures forall j: nat :: j < |h.terms| && j != i ==> Untouched(h, Acknowledge(h, i, k), j)
  {
    ElectedHaveLogs(h);
    hide HistoryOK; hide Grows;
  }

  lemma NewlyConfirmed(h: History, h2: History, i: nat, full: seq<Entry>, upTo: nat)
    requires i < |h.terms| && h.terms[i] in h.tl && ConfirmPart(h, i, full) && HistoryOK(h)
    requires Agree(full, h.tl[h.terms[i]], upTo)
    requires h2 == Acknowledge(h, i, upTo) && Grows(h, h2)
    ensures ConfirmPart(h2, i, full)
  {
    SizeOf(h);
    hide HistoryOK;
    forall t: nat, k: nat | Own(h2, t, k) && Acked(h2, t, i) >= k ensures t in h2.tl && KeptOrDead(h2, full, t, k) {
      assert Own(h, t, k);
      if t == h.terms[i] {
        hide Dead; hide Grows; hide ConfirmPart;
        AgreeShorter(full, h.tl[t], upTo, k);
      } else {
        assert KeptOrDead(h, full, t, k);
        hide Dead; hide Agree; hide ConfirmPart;
        KeptOrDeadGrows(h, h2, full, t, k);
      }
    }
  }

  // ----- The accepted request -----

  /** The state a follower reaches by accepting `r`, and the log behind it. */
  function Accepted(n: Node, r: AppendRequest): Node
    requires n.Valid() && Continues(r) && n.First() <= r.prevLogIndex <= n.Last().index
  {
    var logs := Reconcile(n.logs, r.entries, 0);
    Persist(n.(logs := logs, commitIndex := Max(n.commitIndex, Min(r.leaderCommit, logs[|logs| - 1].index))))
  }

  ghost predicate Accepting(h: History, i: nat, n: Node, full: seq<Entry>, r: AppendRequest) {
    && HistoryOK(h) && NodeOK(h, i, n, full) && n.Valid() && i < |h.terms|
    && n.role == Follower && n.currentTerm == r.term == h.terms[i]
    && RequestOK(h, r) && Continues(r)
    && n.First() <= r.prevLogIndex && MatchLog(n, r.prevLogTerm, r.prevLogIndex)
  }

  ghost function AfterAccept(h: History, i: nat, n2: Node, full2: seq<Entry>, upTo: nat): History
    requires i < |h.terms|
  {
    if Anchored(n2.logs, full2) then Confirmed(h, i, upTo) else h
  }

  /** What an accepted request leads to, given the log behind the new array. */
  ghost predicate AcceptedOK(h: History, i: nat, n2: Node, full2: seq<Entry>, upTo: nat)
  {
    && i < |h.terms|
    && var h2 := AfterAccept(h, i, n2, full2, upTo);
       && HistoryOK(h2) && Grows(h, h2) && NodeOK(h2, i, n2, full2)
       && (upTo == 0 || Acked(h2, h.terms[i], i) >= upTo || Covered(h2, h.terms[i], upTo))
       && forall j: nat :: j < |h.terms| && j != i ==> Untouched(h, h2, j)
  }

  /** Everything the cases below use about an accepting node and its request. */
  lemma AcceptingFacts(h: History, i: nat, n: Node, full: seq<Entry>, r: AppendRequest)
    requires Accepting(h, i, n, full, r)
    ensures HistoryOK(h) && NodeOK(h, i, n, full) && Continues(r) && n.role == Follower
    ensures n.Valid() && |n.logs| > 0 && i < |h.terms| && n.currentTerm == r.term == h.terms[i]
    ensures n.First() <= r.prevLogIndex <= n.Last().index == |full| - 1 && |full| == n.First() + |n.logs|
    ensures n.logs[r.prevLogIndex - n.First()].term == r.prevLogTerm
    ensures Shows(n.logs, full) && LogOK(full, h.tl) && TermsUpTo(full, r.term) && ConfirmPart(h, i, full)
    ensures r.term in h.tl && r.prevLogIndex + |r.entries| < |h.tl[r.term]|
    ensures r.leaderCommit <= r.prevLogIndex + |r.entries| && Covered(h, r.term, r.leaderCommit)
    ensures r.prevLogTerm == h.tl[r.term][r.prevLogIndex].term
    ensures forall x :: 0 <= x < |r.entries| ==> r.entries[x] == h.tl[r.term][r.prevLogIndex + 1 + x]
    ensures LogOK(h.tl[r.term], h.tl) && TermsUpTo(h.tl[r.term], r.term)
  {
    hide HistoryOK; hide NodeOK; hide RequestOK; hide Continues; hide LogPart; hide LogOK; hide TermsUpTo;
    hide ConfirmPart; hide Covered; hide Shows;
    BaseAt(h, i, n, full);
    LogFacts(h, i, n, full);
    LengthOf(h.tl, n, full);
    RequestBounds(h, r);
    TermLogFacts(h);
  }

  /** The result is fine once its log agrees with the leader's up to the request's end. */
  lemma AgreeingOK(h: History, i: nat, n: Node, full: seq<Entry>, r: AppendRequest, n2: Node, full2: seq<Entry>)
    requires Accepting(h, i, n, full, r)
    requires n2 == Persist(n.(logs := n2.logs, commitIndex := n2.commitIndex)) && n2.Valid()
    requires Shows(n2.logs, full2) && LogOK(full2, h.tl) && TermsUpTo(full2, n.currentTerm) && Anchored(n2.logs, full2)
    requires ConfirmPart(h, i, full2) && r.term in h.tl
    requires Agree(full2, h.tl[r.term], r.prevLogIndex + |r.entries|)
    requires Agree(full2, h.tl[r.term], n2.commitIndex) && Covered(h, r.term, n2.commitIndex)
    ensures AcceptedOK(h, i, n2, full2, r.prevLogIndex + |r.entries|)
  {
    hide HistoryOK; hide LogOK; hide TermsUpTo; hide ConfirmPart; hide Grows; hide Agree; hide Untouched;
    hide Contiguous; hide Accepting; hide LogPart; hide CommitPart; hide RolePart; hide RequestOK; hide Covered;
    hide Acked; hide Shows; hide Anchored; hide MatchLog; hide Confirmed; hide VotePart;
    AcceptingFacts(h, i, n, full, r);
    var upTo := r.prevLogIndex + |r.entries|;
    ConfirmedOK(h, i, full2, upTo);
    var h2 := Confirmed(h, i, upTo);
    NonEmptyLog(n2);
    CommitFromLeader(h, n2.logs, full2, n2.commitIndex, r.term);
    CommitPartGrows(h, h2, n2.logs, full2, n2.commitIndex, r.term, r.term);
    WindowOK(h.tl, n2.logs, full2, n2.commitIndex, r.term);
    LogPartGrows(h, h2, n2.logs, full2, n2.commitIndex, r.term, r.term);
    FollowerRole(h2, i, n2, full2);
  }

  lemma NonEmptyLog(n: Node)
    requires n.Valid()
    ensures |n.logs| > 0 && n.logs[0].index <= n.commitIndex
  {
  }

  lemma WindowOK(tl: map<nat, seq<Entry>>, logs: seq<Entry>, full: seq<Entry>, commit: nat, term: nat)
    requires Shows(logs, full) && LogOK(full, tl) && TermsUpTo(full, term) && Anchored(logs, full)
    ensures LogPart(tl, logs, full, commit, term)
  {
  }

  lemma FollowerRole(h: History, i: nat, n: Node, full: seq<Entry>)
    requires n.role == Follower
    ensures RolePart(h, i, n, full)
  {
  }

  // ----- The three cases of an accepted request -----

  /** Everything in the request is already there. */
  lemma NothingNewOK(h: History, i: nat, n: Node, full: seq<Entry>, r: AppendRequest)
    requires Accepting(h, i, n, full, r) && Anchored(n.logs, full) && r.term in h.tl
    requires Agree(full, h.tl[r.term], r.prevLogIndex + |r.entries|)
    requires Accepted(n, r).logs == n.logs
    ensures AcceptedOK(h, i, Accepted(n, r), full, r.prevLogIndex + |r.entries|)
  {
    hide HistoryOK; hide NodeOK; hide LogOK; hide TermsUpTo; hide ConfirmPart; hide AcceptedOK; hide RequestOK;
    hide Contiguous; hide Shows; hide Accepting; hide Agree; hide Covered; hide Anchored; hide Reconcile;
    AcceptingFacts(h, i, n, full, r);
    CommitOnLeader(h, i, n, full, r.term);
    var upTo := r.prevLogIndex + |r.entries|;
    AgreeLength(full, h.tl[r.term], upTo);
    var n2 := Accepted(n, r);
    assert n2.commitIndex == Max(n.commitIndex, r.leaderCommit);
    CoveredMax(h, r.term, n.commitIndex, r.leaderCommit);
    AgreeShorter(full, h.tl[r.term], upTo, r.leaderCommit);
    AgreeingOK(h, i, n, full, r, n2, full);
  }

  lemma AgreeLength(a: seq<Entry>, b: seq<Entry>, k: nat)
    requires Agree(a, b, k)
    ensures k < |a|
  {
  }

  lemma LengthOf(tl: map<nat, seq<Entry>>, n: Node, full: seq<Entry>)
    requires LogPart(tl, n.logs, full, n.commitIndex, n.currentTerm)
    ensures |n.logs| > 0 && n.Last().index == |full| - 1 && Shows(n.logs, full) && |full| == n.First() + |n.logs|
  {
    hide LogOK; hide TermsUpTo;
  }

  lemma RequestBounds(h: History, r: AppendRequest)
    requires RequestOK(h, r)
    ensures r.term in h.tl && r.prevLogIndex + |r.entries| < |h.tl[r.term]|
    ensures r.leaderCommit <= r.prevLogIndex + |r.entries| && Covered(h, r.term, r.leaderCommit)
    ensures r.prevLogTerm == h.tl[r.term][r.prevLogIndex].term
    ensures forall x :: 0 <= x < |r.entries| ==> r.entries[x] == h.tl[r.term][r.prevLogIndex + 1 + x]
  {
  }

  /** The request replaces the log from a position p where it leaves the leader's. */
  lemma ReplacingOK(h: History, i: nat, n: Node, full: seq<Entry>, r: AppendRequest, j: nat, p: nat)
    requires Accepting(h, i, n, full, r) && j < |r.entries| && r.term in h.tl
    requires n.Valid() && Continues(r) && n.First() <= r.prevLogIndex <= n.Last().index
    requires r.prevLogIndex + |r.entries| < |h.tl[r.term]|
    requires var at := r.prevLogIndex + 1 + j;
             && at <= n.First() + |n.logs|
             && Reconcile(n.logs, r.entries, 0) == n.logs[..at - n.First()] + r.entries[j..]
             && (n.First() < at - 1 ==> Agree(full, h.tl[r.term], at - 1))
             && n.commitIndex < at
    requires p <= r.prevLogIndex + |r.entries| && !Agree(full, h.tl[r.term], p)
    ensures AcceptedOK(h, i, Accepted(n, r), h.tl[r.term][..r.prevLogIndex + |r.entries| + 1], r.prevLogIndex + |r.entries|)
  {
    hide HistoryOK; hide NodeOK; hide LogOK; hide TermsUpTo; hide ConfirmPart; hide AcceptedOK; hide RequestOK;
    hide Contiguous; hide Shows; hide Accepting; hide Agree; hide Covered; hide Anchored; hide Reconcile;
    AcceptingFacts(h, i, n, full, r);
    CommitOnLeader(h, i, n, full, r.term);
    var upTo := r.prevLogIndex + |r.entries|;
    var full2 := h.tl[r.term][..upTo + 1];
    var n2 := Accepted(n, r);
    ReplacedConfirms(h, i, full, r.term, upTo, p);
    PrefixOK(h.tl[r.term], h.tl, upTo + 1);
    PrefixTerms(h.tl[r.term], r.term, upTo + 1);
    ReplacedShows(n, full, r, h.tl[r.term], j);
    ShownLength(n2.logs, full2);
    assert n2.commitIndex == Max(n.commitIndex, r.leaderCommit);
    CoveredMax(h, r.term, n.commitIndex, r.leaderCommit);
    CutAgrees(h.tl[r.term], upTo, upTo);
    CutAgrees(h.tl[r.term], upTo, n2.commitIndex);
    AnchoredOn(n2.logs, full2, h.tl[r.term], upTo);
    AgreeingOK(h, i, n, full, r, n2, full2);
  }

  lemma AnchoredOn(logs: seq<Entry>, full: seq<Entry>, leader: seq<Entry>, upTo: nat)
    requires |logs| > 0 && upTo < |leader| && full == leader[..upTo + 1]
    requires logs[0].index <= upTo && logs[0].term == leader[logs[0].index].term
    ensures Anchored(logs, full)
  {
  }

  lemma ShownLength(logs: seq<Entry>, full: seq<Entry>)
    requires Shows(logs, full)
    ensures |logs| > 0 && Contiguous(logs) && logs[|logs| - 1].index == |full| - 1
  {
  }

  lemma PrefixTerms(log: seq<Entry>, term: nat, k: nat)
    requires TermsUpTo(log, term) && k <= |log|
    ensures TermsUpTo(log[..k], term)
  {
  }

  /** Array and log after a replacement: kept entries agree, new ones are the leader's. */
  lemma ReplacedShows(n: Node, full: seq<Entry>, r: AppendRequest, leader: seq<Entry>, j: nat)
    requires n.Valid() && Shows(n.logs, full) && Continues(r) && j < |r.entries|
    requires r.prevLogIndex + |r.entries| < |leader| && n.First() <= r.prevLogIndex <= n.Last().index
    requires forall x :: 0 <= x < |r.entries| ==> r.entries[x] == leader[r.prevLogIndex + 1 + x]
    requires var at := r.prevLogIndex + 1 + j;
             && at <= n.First() + |n.logs|
             && Reconcile(n.logs, r.entries, 0) == n.logs[..at - n.First()] + r.entries[j..]
             && (n.First() < at - 1 ==> Agree(full, leader, at - 1))
    ensures var logs := Reconcile(n.logs, r.entries, 0);
            Shows(logs, leader[..r.prevLogIndex + |r.entries| + 1]) && logs[0] == n.logs[0]
  {
    var b, at := n.First(), r.prevLogIndex + 1 + j;
    var logs := Reconcile(n.logs, r.entries, 0);
    var full2 := leader[..r.prevLogIndex + |r.entries| + 1];
    forall k | 1 <= k < |logs| ensures logs[k] == full2[b + k] {
      if k < at - b {
        assert logs[k] == n.logs[k] == full[b + k];
        AgreeShorter(full, leader, at - 1, b + k);
      } else {
        assert logs[k] == r.entries[j..][k - (at - b)] == r.entries[j + k - (at - b)];
      }
    }
  }

  /** A heartbeat that reaches a node whose dummy hides a mismatch: nothing changes. */
  lemma HiddenHeartbeatOK(h: History, i: nat, n: Node, full: seq<Entry>, r: AppendRequest)
    requires Accepting(h, i, n, full, r) && !Anchored(n.logs, full)
    requires n.Valid() && Continues(r) && n.First() <= r.prevLogIndex <= n.Last().index
    requires r.entries == [] && r.prevLogIndex == n.First()
    ensures AcceptedOK(h, i, Accepted(n, r), full, r.prevLogIndex + |r.entries|)
  {
    hide HistoryOK; hide NodeOK; hide LogOK; hide TermsUpTo; hide ConfirmPart; hide RequestOK; hide Contiguous;
    hide Shows; hide Accepting; hide Agree; hide Covered; hide Anchored; hide Grows; hide Untouched; hide Acked;
    AcceptingFacts(h, i, n, full, r);
    CommitOnLeader(h, i, n, full, r.term);
    assert Accepted(n, r) == Persist(n);
    PersistedOK(h, i, n, full);
    StaysOK(h, i);
  }

  /** Whatever the request and the follower's log: the three cases cover everything. */
  lemma AcceptOK(h: History, i: nat, n: Node, full: seq<Entry>, r: AppendRequest)
    requires Accepting(h, i, n, full, r)
    ensures n.Valid() && Continues(r) && n.First() <= r.prevLogIndex <= n.Last().index
    ensures var upTo := r.prevLogIndex + |r.entries|;
            var n2 := Accepted(n, r);
            r.term in h.tl && upTo < |h.tl[r.term]|
            && AcceptedOK(h, i, n2, if n2.logs != n.logs then h.tl[r.term][..upTo + 1] else full, upTo)
  {
    hide HistoryOK; hide NodeOK; hide AcceptedOK; hide RequestOK; hide LogPart; hide LogOK; hide TermsUpTo;
    hide ConfirmPart; hide Covered; hide Accepting; hide Agree; hide Anchored; hide Contiguous; hide Shows;
    hide Reconcile; hide Matches; hide Continues; hide MatchLog; hide TermsUpTo; hide Own; hide Chosen;
    AcceptingFacts(h, i, n, full, r);
    CommitOnLeader(h, i, n, full, r.term);
    ContinuesFacts(r);
    var j := ReconcileCases(n.logs, r.entries, 0);
    var at := r.prevLogIndex + 1 + j;
    MatchedBefore(h, i, n, full, r, j);
    MatchedAt(h, i, n, full, r, at - 1);
    if j == |r.entries| {
      if Anchored(n.logs, full) {
        NothingNewOK(h, i, n, full, r);
      } else {
        HiddenHeartbeatOK(h, i, n, full, r);
      }
    } else {
      MismatchBreaks(h, n, full, r, j);
      ReplacingOK(h, i, n, full, r, j, if Anchored(n.logs, full) then at else n.First());
      ReplacedDiffers(n, r, j);
    }
  }

  lemma ContinuesFacts(r: AppendRequest)
    requires Continues(r)
    ensures forall x :: 0 <= x < |r.entries| ==> r.entries[x].index == r.entries[0].index + x
    ensures forall x :: 0 <= x < |r.entries| ==> r.entries[x].index == r.prevLogIndex + 1 + x
  {
  }

  /** The position before the scan's stop matches the leader's log. */
  lemma MatchedBefore(h: History, i: nat, n: Node, full: seq<Entry>, r: AppendRequest, j: nat)
    requires Accepting(h, i, n, full, r) && |n.logs| > 0 && j <= |r.entries|
    requires forall x :: 0 <= x < j ==> Matches(n.logs, r.entries[x])
    ensures r.term in h.tl && r.prevLogIndex + j < |h.tl[r.term]|
    ensures h.tl[r.term][r.prevLogIndex + j].index == r.prevLogIndex + j
    ensures Matches(n.logs, h.tl[r.term][r.prevLogIndex + j])
  {
    hide HistoryOK; hide NodeOK; hide Accepting; hide LogOK; hide TermsUpTo; hide ConfirmPart; hide Covered;
    hide Shows;
    AcceptingFacts(h, i, n, full, r);
    LeaderIndex(h, r.term, r.prevLogIndex + j);
    if j > 0 {
      assert Matches(n.logs, r.entries[j - 1]);
    }
  }

  lemma LeaderIndex(h: History, term: nat, k: nat)
    requires HistoryOK(h) && term in h.tl && k < |h.tl[term]|
    ensures h.tl[term][k].index == k
  {
    TermLogFacts(h);
    hide HistoryOK;
  }

  lemma MatchedAt(h: History, i: nat, n: Node, full: seq<Entry>, r: AppendRequest, pos: nat)
    requires Accepting(h, i, n, full, r) && r.term in h.tl && pos < |h.tl[r.term]| && |n.logs| > 0
    requires h.tl[r.term][pos].index == pos && Matches(n.logs, h.tl[r.term][pos])
    ensures Anchored(n.logs, full) ==> Agree(full, h.tl[r.term], pos)
    ensures !Anchored(n.logs, full) ==> pos == n.First()
  {
    hide HistoryOK; hide NodeOK; hide RequestOK; hide Agree; hide Anchored; hide Contiguous; hide Continues;
    MatchAgrees(h, i, n, full, pos);
  }

  /** At a mismatch the follower's log leaves the leader's, above everything committed. */
  lemma MismatchBreaks(h: History, n: Node, full: seq<Entry>, r: AppendRequest, j: nat)
    requires n.Valid() && Shows(n.logs, full) && r.term in h.tl && Continues(r)
    requires j < |r.entries| && r.prevLogIndex + |r.entries| < |h.tl[r.term]|
    requires r.entries[j] == h.tl[r.term][r.prevLogIndex + 1 + j] && n.First() <= r.prevLogIndex
    requires !Matches(n.logs, r.entries[j])
    requires n.commitIndex < |h.tl[r.term]|
    requires Anchored(n.logs, full) ==> Agree(full, h.tl[r.term], n.commitIndex)
    requires !Anchored(n.logs, full) ==> n.commitIndex == n.First()
    ensures !Agree(full, h.tl[r.term], r.prevLogIndex + 1 + j)
    ensures n.commitIndex < r.prevLogIndex + 1 + j
  {
    var at: nat := r.prevLogIndex + 1 + j;
    if Agree(full, h.tl[r.term], at) {
      AgreeShorter(full, h.tl[r.term], at, at);
      ShownAt(n.logs, full, at);
    }
    if Anchored(n.logs, full) && at <= n.commitIndex {
      AgreeShorter(full, h.tl[r.term], n.commitIndex, at);
    }
  }

  lemma ReplacedDiffers(n: Node, r: AppendRequest, j: nat)
    requires n.Valid() && Continues(r) && n.First() <= r.prevLogIndex <= n.Last().index && j < |r.entries|
    requires !Matches(n.logs, r.entries[j])
    requires var at := r.prevLogIndex + 1 + j - n.First();
             at <= |n.logs| && Reconcile(n.logs, r.entries, 0) == n.logs[..at] + r.entries[j..]
    ensures Accepted(n, r).logs != n.logs
  {
    var at := r.prevLogIndex + 1 + j - n.First();
    var logs := Reconcile(n.logs, r.entries, 0);
    assert logs[at] == r.entries[j];
  }

  // ----- The whole handler -----

  /** Hearing from a leader of the node's term or a later one. */
  lemma HeardOK(h: History, i: nat, n: Node, full: seq<Entry>, term: nat)
    requires HistoryOK(h) && NodeOK(h, i, n, full) && |n.logs| > 0 && term >= n.currentTerm && i < |h.terms|
    ensures var p := Persist(ObserveLeader(n, term));
            var h1 := Observe(h, i, term);
            && HistoryOK(h1) && Grows(h, h1) && NodeOK(h1, i, p, full)
            && forall j: nat :: j < |h.terms| && j != i ==> Untouched(h, h1, j)
  {
    hide HistoryOK; hide NodeOK; hide Grows; hide Untouched; hide Contiguous;
    BaseAt(h, i, n, full);
    ObserveOK(h, i, term);
    ObserveTouchesNobodyElse(h, i, term);
    var p := Persist(ObserveLeader(n, term));
    if term > n.currentTerm {
      SeenOK(h, i, n, full, p);
    } else {
      SameTermObserve(h, i);
      DemotedOK(h, i, n, full, p);
    }
  }

  lemma AnswerAppendOK(s: Cluster, i: nat, m: Message)
    requires Inv(s) && i < |s.nodes| && m in s.msgs && m.AppendAsk? && m.to == i
    ensures Continues(m.append)
    ensures Inv(NextAnswerAppend(s, i, m))
  {
    hide Inv; hide HistoryOK; hide NodeOK; hide Grows; hide Untouched; hide Shaped; hide RequestOK; hide Continues;
    ShapedAt(s);
    NodeAt(s, i);
    MessageAt(s, m);
    var n, full, r := s.nodes[i], s.full[i], m.append;
    RequestContinues(s.h, r);
    BaseAt(s.h, i, n, full);
    var (n2, response) := AppendEntries(n, r);
    var full2 := FullAfterAppend(s, i, n2, r);
    AppendEntriesOK(s, i, r);
    var h2 := HistoryAfterAppend(s, i, n2, full2, r, response.success);
    RequestGrows(s.h, h2, r);
    hide AppendEntries; hide HistoryAfterAppend; hide FullAfterAppend; hide Covered; hide Acked;
    SizesStay(s.h, h2);
    MoveKeepsInv(s, i, n2, full2, h2, {AppendAnswer(i, r, response)});
  }

  lemma SizesStay(h: History, h2: History)
    requires Grows(h, h2)
    ensures h2.size == h.size && |h2.terms| == |h.terms|
  {
  }

  lemma RequestContinues(h: History, r: AppendRequest)
    requires HistoryOK(h) && RequestOK(h, r)
    ensures Continues(r)
  {
    hide HistoryOK; hide LogOK; hide Covered;
    TermLogFacts(h);
    forall k | 0 <= k < |r.entries| ensures r.entries[k].index == r.prevLogIndex + 1 + k {
      LogAt(h.tl[r.term], h.tl, r.prevLogIndex + 1 + k);
      assert r.entries[k] == h.tl[r.term][r.prevLogIndex + 1 + k];
    }
  }

  /** What the handler does, in terms of the record: refuse, reject, or accept. */
  lemma AppendEntriesOK(s: Cluster, i: nat, r: AppendRequest)
    requires Shaped(s) && i < |s.nodes| && HistoryOK(s.h) && NodeOK(s.h, i, s.nodes[i], s.full[i])
    requires RequestOK(s.h, r) && Continues(r)
    ensures var (n2, response) := AppendEntries(s.nodes[i], r);
            var full2 := FullAfterAppend(s, i, n2, r);
            var h2 := HistoryAfterAppend(s, i, n2, full2, r, response.success);
            var upTo := r.prevLogIndex + |r.entries|;
            && HistoryOK(h2) && Grows(s.h, h2) && NodeOK(h2, i, n2, full2)
            && (response.success ==> upTo == 0 || Acked(h2, r.term, i) >= upTo || Covered(h2, r.term, upTo))
            && (!response.success && response.term == r.term ==> response.conflictIndex <= r.prevLogIndex)
            && forall j: nat :: j < |s.nodes| && j != i ==> Untouched(s.h, h2, j)
  {
    hide HistoryOK; hide NodeOK; hide Grows; hide Untouched; hide RequestOK; hide Contiguous; hide Continues;
    var n, full, h := s.nodes[i], s.full[i], s.h;
    BaseAt(h, i, n, full);
    SameTermObserve(h, i);
    if r.term < n.currentTerm {
      StaysOK(h, i);
      PersistedOK(h, i, n, full);
      LeaderTermPositive(h, r);
    } else {
      HeardOK(h, i, n, full, r.term);
      var p := Persist(ObserveLeader(n, r.term));
      var h1 := Observe(h, i, r.term);
      LeaderTermPositive(h, r);
      if n.First() <= r.prevLogIndex && MatchLog(p, r.prevLogTerm, r.prevLogIndex) {
        RequestGrows(h, h1, r);
        AcceptOK(h1, i, p, full, r);
        AcceptedIsResult(n, r);
        SizesStay(h, h1);
        AcceptedRecord(s, h1, i, r);
      } else {
        RejectedIsResult(n, r);
      }
    }
  }

  lemma LeaderTermPositive(h: History, r: AppendRequest)
    requires HistoryOK(h) && RequestOK(h, r)
    ensures r.term > 0
  {
    TermLogFacts(h);
    hide HistoryOK;
  }

  lemma RejectedIsResult(n: Node, r: AppendRequest)
    requires n.Valid() && Continues(r) && r.term >= n.currentTerm
    requires n.First() > r.prevLogIndex || !MatchLog(Persist(ObserveLeader(n, r.term)), r.prevLogTerm, r.prevLogIndex)
    ensures var (n2, response) := AppendEntries(n, r);
            && n2 == Persist(ObserveLeader(n, r.term)) && !response.success
            && (response.term == r.term && r.term > 0 ==> response.conflictIndex <= r.prevLogIndex)
  {
  }

  lemma AcceptedIsResult(n: Node, r: AppendRequest)
    requires n.Valid() && Continues(r) && r.term >= n.currentTerm && n.First() <= r.prevLogIndex
    requires MatchLog(Persist(ObserveLeader(n, r.term)), r.prevLogTerm, r.prevLogIndex)
    ensures var p := Persist(ObserveLeader(n, r.term));
            var (n2, response) := AppendEntries(n, r);
            && p.Valid() && p.First() <= r.prevLogIndex <= p.Last().index && p.logs == n.logs
            && n2 == Accepted(p, r) && response.success && n2.currentTerm == r.term && |n2.logs| > 0
  {
  }

  lemma AcceptedFacts(h: History, i: nat, n2: Node, full2: seq<Entry>, upTo: nat, h2: History)
    requires AcceptedOK(h, i, n2, full2, upTo) && i < |h.terms|
    requires h2 == AfterAccept(h, i, n2, full2, upTo)
    ensures HistoryOK(h2) && Grows(h, h2) && NodeOK(h2, i, n2, full2)
    ensures upTo == 0 || Acked(h2, h.terms[i], i) >= upTo || Covered(h2, h.terms[i], upTo)
    ensures forall j: nat :: j < |h.terms| && j != i ==> Untouched(h, h2, j)
  {
    hide HistoryOK; hide NodeOK; hide Grows; hide Untouched; hide Covered; hide Acked; hide Confirmed; hide Anchored;
  }

  /** The bookkeeping of a step records exactly what an accepted request confirms. */
  lemma AcceptedRecord(s: Cluster, h1: History, i: nat, r: AppendRequest)
    requires Shaped(s) && i < |s.nodes| && |s.nodes[i].logs| > 0 && s.nodes[i].Valid() && Continues(r)
    requires i < |s.h.terms| && h1 == Observe(s.h, i, r.term) && Grows(s.h, h1)
    requires forall j: nat :: j < |s.h.terms| && j != i ==> Untouched(s.h, h1, j)
    requires var (n2, response) := AppendEntries(s.nodes[i], r);
             var upTo := r.prevLogIndex + |r.entries|;
             && n2.currentTerm == r.term && |n2.logs| > 0 && r.term in s.h.tl && upTo < |s.h.tl[r.term]|
             && AcceptedOK(h1, i, n2, if n2.logs != s.nodes[i].logs then s.h.tl[r.term][..upTo + 1] else s.full[i], upTo)
    ensures var (n2, response) := AppendEntries(s.nodes[i], r);
            var full2 := FullAfterAppend(s, i, n2, r);
            var h2 := HistoryAfterAppend(s, i, n2, full2, r, true);
            var upTo := r.prevLogIndex + |r.entries|;
            && HistoryOK(h2) && Grows(s.h, h2) && NodeOK(h2, i, n2, full2)
            && (upTo == 0 || Acked(h2, r.term, i) >= upTo || Covered(h2, r.term, upTo))
            && forall j: nat :: j < |s.h.terms| && j != i ==> Untouched(s.h, h2, j)
  {
    hide HistoryOK; hide NodeOK; hide Grows; hide Untouched; hide AppendEntries; hide Covered; hide Acked;
    hide Contiguous; hide Continues;
    var (n2, response) := AppendEntries(s.nodes[i], r);
    var full2 := FullAfterAppend(s, i, n2, r);
    var h2 := HistoryAfterAppend(s, i, n2, full2, r, true);
    SizesStay(s.h, h1);
    var upTo := r.prevLogIndex + |r.entries|;
    assert h2 == AfterAccept(h1, i, n2, full2, upTo);
    AcceptedFacts(h1, i, n2, full2, upTo, h2);
    GrowsThrough(s.h, h1, h2);
    forall j: nat | j < |s.h.terms| && j != i ensures Untouched(s.h, h2, j) {
      UntouchedThrough(s.h, h1, h2, j);
    }
  }
}
