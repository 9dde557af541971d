/** Catching up a follower, with a fixed leader and logs cut anywhere on both sides. */
module CatchUp {
  import opened RaftTypes
  import opened RaftHandlers
  import opened MajorityIndex

  // ----- Two arrays of one cluster -----

  predicate Shown(logs: seq<Entry>, p: int) {
    |logs| > 0 && logs[0].index <= p < logs[0].index + |logs|
  }

  function EntryIn(logs: seq<Entry>, p: int): Entry
    requires Shown(logs, p)
  {
    logs[p - logs[0].index]
  }

  /** Where both show index p they have one term there, and above both dummies one entry. */
  predicate Alike(a: seq<Entry>, b: seq<Entry>, p: int) {
    Shown(a, p) && Shown(b, p) ==>
      && EntryIn(a, p).term == EntryIn(b, p).term
      && (p > a[0].index && p > b[0].index ==> EntryIn(a, p) == EntryIn(b, p))
  }

  ghost predicate AlikeTo(a: seq<Entry>, b: seq<Entry>, p: int) {
    forall q :: q <= p ==> Alike(a, b, q)
  }

  /** Log Matching: one term at one index makes two arrays alike up to there. */
  ghost predicate Matching(a: seq<Entry>, b: seq<Entry>) {
    forall p :: Shown(a, p) && Shown(b, p) && EntryIn(a, p).term == EntryIn(b, p).term ==> AlikeTo(a, b, p)
  }

  /**
    * A leader and a peer of it that has seen no higher term: their arrays match, and what
    * the peer has committed is in the leader's log.
    */
  ghost predicate Pair(leader: Node, follower: Node, peer: nat) {
    && leader.Valid() && follower.Valid() && peer < leader.peers
    && leader.role == Leader && 0 < leader.currentTerm && follower.currentTerm <= leader.currentTerm
    && Matching(leader.logs, follower.logs)
    && follower.commitIndex <= leader.Last().index && AlikeTo(leader.logs, follower.logs, follower.commitIndex)
    && leader.nextIndex[peer] - 1 <= leader.Last().index
  }

  /** One round of replication whose messages all arrive; the service takes a snapshot it is offered. */
  ghost function Round(leader: Node, follower: Node, peer: nat): (Node, Node)
    requires Pair(leader, follower, peer)
  {
    var prev := leader.nextIndex[peer] - 1;
    if prev < leader.First() then
      var request := InstallRequestFor(leader);
      var (f, response, offered) := InstallSnapshot(follower, request);
      (HandleInstallReply(leader, peer, request, response), Serviced(f, offered))
    else
      var request := AppendRequestFor(leader, prev);
      SuffixContinues(leader, prev);
      var (f, response) := AppendEntries(follower, request);
      (HandleAppendReply(leader, peer, request, response), f)
  }

  function Serviced(n: Node, offered: Option<SnapshotMsg>): Node
    requires n.Valid()
  {
    if offered.None? then n
    else CondInstallSnapshot(n, offered.value.term, offered.value.index, offered.value.data).0
  }

  lemma SuffixContinues(leader: Node, prev: nat)
    requires Contiguous(leader.logs) && leader.First() <= prev <= leader.Last().index
    ensures Continues(AppendRequestFor(leader, prev))
  {
    var request := AppendRequestFor(leader, prev);
    forall k | 0 <= k < |request.entries| ensures request.entries[k].index == prev + 1 + k {
      assert request.entries[k] == leader.logs[prev + 1 - leader.First() + k];
    }
  }

  /**
    * The follower shows the leader's log from its own dummy on, has committed what the leader
    * had committed, and the leader knows that it has the log.
    */
  ghost predicate CaughtUp(leader: Node, follower: Node, peer: nat, commit: nat) {
    && |leader.logs| > 0 && |follower.logs| > 0 && AlikeTo(leader.logs, follower.logs, leader.Last().index)
    && follower.First() <= leader.Last().index <= follower.Last().index && follower.commitIndex >= commit
    && peer < |leader.matchIndex| && leader.matchIndex[peer] == leader.Last().index
    && peer < |leader.nextIndex| && leader.nextIndex[peer] == leader.Last().index + 1
  }

  /** The same leader with the same log, which knows the same of its other peers. */
  ghost predicate SameLeader(leader: Node, l: Node, peer: nat) {
    && l == leader.(commitIndex := l.commitIndex, matchIndex := l.matchIndex, nextIndex := l.nextIndex)
    && |l.matchIndex| == |leader.matchIndex|
    && forall p :: 0 <= p < |l.matchIndex| && p != peer ==> l.matchIndex[p] == leader.matchIndex[p]
  }

  /** The commit rule has been applied to what the leader knows, from this commit index on. */
  ghost predicate Advanced(l: Node, commit: nat) {
    var n := l.(commitIndex := commit);
    n.Valid() && l == AdvanceCommit(n)
  }

  /** The leader tries the peer at an index it still has and the peer has compacted away. */
  predicate Trapped(leader: Node, follower: Node, peer: nat) {
    && |leader.logs| > 0 && |follower.logs| > 0 && peer < |leader.nextIndex|
    && leader.First() <= leader.nextIndex[peer] - 1 < follower.First()
  }

  // ----- The trap -----

  /** A request from below the peer's dummy is answered with term 0, which the leader ignores. */
  lemma TrapHolds(leader: Node, follower: Node, peer: nat)
    requires Pair(leader, follower, peer) && Trapped(leader, follower, peer)
    ensures var (l, f) := Round(leader, follower, peer);
            l == leader && f.logs == follower.logs && Pair(l, f, peer) && Trapped(l, f, peer)
  {
    hide Matching; hide AlikeTo; hide Contiguous; hide Continues; hide Reconcile; hide Rejection;
    SuffixContinues(leader, leader.nextIndex[peer] - 1);
  }

  // ----- The snapshot branch -----

  /** The follower's log and commit index after the snapshot of the leader's dummy, taken or not needed. */
  predicate Took(leader: Node, follower: Node, f: Node)
    requires leader.Valid() && follower.Valid()
  {
    var c, term := leader.First(), leader.logs[0].term;
    if c <= follower.commitIndex then f.logs == follower.logs && f.commitIndex == follower.commitIndex
    else
      && f.logs == (if c <= follower.Last().index then CutAt(follower.logs, c, term) else [Entry(c, term, NoCommand)])
      && f.commitIndex == c && f.snapshot == leader.snapshot
  }

  lemma TookShape(leader: Node, follower: Node, f: Node)
    requires leader.Valid() && follower.Valid() && Took(leader, follower, f)
    ensures Contiguous(f.logs) && f.First() <= f.commitIndex <= f.Last().index
    ensures leader.First() > follower.commitIndex ==> f.First() == leader.First()
  {
    var c, term := leader.First(), leader.logs[0].term;
    if follower.commitIndex < c <= follower.Last().index { CutFacts(follower.logs, c, term); }
  }

  lemma OfferedTo(leader: Node, follower: Node) returns (f: Node, response: InstallResponse)
    requires leader.Valid() && follower.Valid() && follower.currentTerm <= leader.currentTerm
    ensures InstallSnapshot(follower, InstallRequestFor(leader)).0.Valid()
    ensures f == Serviced(InstallSnapshot(follower, InstallRequestFor(leader)).0, InstallSnapshot(follower, InstallRequestFor(leader)).2)
    ensures response == InstallSnapshot(follower, InstallRequestFor(leader)).1 && response.term <= leader.currentTerm
    ensures f.currentTerm == leader.currentTerm && f.Valid() && Took(leader, follower, f)
  {
    hide Contiguous; hide CutAt;
    ContiguousFacts(follower.logs);
    ContiguousFacts(leader.logs);
    var (f1, r, offered) := InstallSnapshot(follower, InstallRequestFor(leader));
    f, response := Serviced(f1, offered), r;
    TookShape(leader, follower, f);
  }

  lemma OfferCounted(leader: Node, peer: nat, response: InstallResponse)
    requires leader.Valid() && leader.role == Leader && peer < leader.peers && response.term <= leader.currentTerm
    ensures var l := HandleInstallReply(leader, peer, InstallRequestFor(leader), response);
            && l == leader.(matchIndex := l.matchIndex, nextIndex := l.nextIndex) && l.Valid()
            && l.nextIndex[peer] == leader.First() + 1 && SameLeader(leader, l, peer)
  {
  }

  lemma CutPair(leader: Node, follower: Node, l: Node, f: Node, peer: nat)
    requires Pair(leader, follower, peer) && l.Valid() && f.Valid() && f.currentTerm == leader.currentTerm
    requires l == leader.(matchIndex := l.matchIndex, nextIndex := l.nextIndex) && l.nextIndex[peer] == leader.First() + 1
    requires Took(leader, follower, f)
    ensures Pair(l, f, peer)
  {
    hide Matching; hide AlikeTo; hide Contiguous; hide CutAt;
    ContiguousFacts(leader.logs);
    ContiguousFacts(follower.logs);
    if leader.First() > follower.commitIndex {
      CutMatches(leader.logs, follower.logs, leader.First(), f.logs);
    }
  }

  /** The follower takes the leader's snapshot, or has committed as much; the leader goes on behind it. */
  lemma SnapshotRound(leader: Node, follower: Node, peer: nat)
    requires Pair(leader, follower, peer) && leader.nextIndex[peer] - 1 < leader.First()
    ensures var (l, f) := Round(leader, follower, peer);
            && Pair(l, f, peer) && SameLeader(leader, l, peer) && l.commitIndex == leader.commitIndex
            && l.nextIndex[peer] == leader.First() + 1
            && |f.logs| > 0 && f.commitIndex == Max(follower.commitIndex, leader.First())
            && (if leader.First() <= follower.commitIndex then f.logs == follower.logs
                else f.First() == leader.First() && f.snapshot == leader.snapshot)
  {
    hide Matching; hide AlikeTo; hide Contiguous; hide CutAt; hide InstallSnapshot; hide Serviced; hide HandleInstallReply;
    PairShape(leader, follower, peer);
    var f, response := OfferedTo(leader, follower);
    TookShape(leader, follower, f);
    OfferCounted(leader, peer, response);
    var l := HandleInstallReply(leader, peer, InstallRequestFor(leader), response);
    CutPair(leader, follower, l, f, peer);
    PairShape(l, f, peer);
  }

  lemma CutMatches(a: seq<Entry>, b: seq<Entry>, c: nat, cut: seq<Entry>)
    requires Contiguous(a) && Contiguous(b) && Matching(a, b) && a[0].index == c && b[0].index <= c
    requires cut == if c < b[0].index + |b| then CutAt(b, c, a[0].term) else [Entry(c, a[0].term, NoCommand)]
    ensures Matching(a, cut) && AlikeTo(a, cut, c)
  {
    forall p | Shown(a, p) && Shown(cut, p) && EntryIn(a, p).term == EntryIn(cut, p).term ensures AlikeTo(a, cut, p) {
      if p > c {
        assert EntryIn(cut, p) == EntryIn(b, p);
        forall q | q <= p ensures Alike(a, cut, q) {
          assert Alike(a, b, q);
        }
      }
    }
  }

  // ----- A rejection -----

  /** The scan back passes exactly the entries of the conflicting term. */
  lemma {:induction false} ScanPasses(logs: seq<Entry>, at: int, term: nat)
    requires Contiguous(logs) && logs[0].index - 1 <= at < logs[0].index + |logs|
    ensures var r := ConflictScan(logs, at, term);
            && (forall q :: r < q <= at ==> EntryIn(logs, q).term == term)
            && (r >= logs[0].index ==> EntryIn(logs, r).term != term)
    decreases at
  {
    if at >= logs[0].index && logs[at - logs[0].index].term == term { ScanPasses(logs, at - 1, term); }
  }

  /** The leader's scan finds the last index of that term, if it has one. */
  lemma {:induction false} ScanFinds(logs: seq<Entry>, at: int, term: int)
    requires Contiguous(logs) && at < logs[0].index + |logs|
    ensures var hit := TermScan(logs, at, term);
            forall q :: Shown(logs, q) && (if hit.Some? then hit.value < q <= at else q <= at) ==> EntryIn(logs, q).term != term
    decreases at
  {
    if at >= logs[0].index && logs[at - logs[0].index].term != term { ScanFinds(logs, at - 1, term); }
  }

  /** The follower rejects at an index it shows, with another term than the leader's there. */
  predicate Conflict(leader: seq<Entry>, follower: seq<Entry>, prev: int) {
    Shown(leader, prev) && Shown(follower, prev) && EntryIn(leader, prev).term != EntryIn(follower, prev).term
  }

  /** Nothing the leader shows from `low` to `prev` has this term. */
  predicate Without(logs: seq<Entry>, low: int, prev: int, term: nat) {
    forall q :: low <= q <= prev && Shown(logs, q) ==> EntryIn(logs, q).term != term
  }

  /** Everything shown above `low` up to `prev` has this term. */
  predicate OneTerm(logs: seq<Entry>, low: int, prev: int, term: nat) {
    forall q :: low < q <= prev && Shown(logs, q) ==> EntryIn(logs, q).term == term
  }

  lemma BackOffParts(leader: Node, follower: Node, prev: nat)
    requires Contiguous(leader.logs) && Contiguous(follower.logs) && Shown(leader.logs, prev) && follower.First() <= prev
    ensures BackOff(leader, AppendRequestFor(leader, prev), Rejection(follower, AppendRequestFor(leader, prev)))
         == if !Shown(follower.logs, prev) then follower.Last().index + 1
            else
              var term := EntryIn(follower.logs, prev).term;
              var hit := TermScan(leader.logs, prev, term);
              if hit.Some? then hit.value + 1 else ConflictScan(follower.logs, prev - 1, term)
  {
    hide TermScan; hide ConflictScan;
  }

  /**
    * Where the leader tries next: at or below the rejected index; behind the end of a log that
    * is too short; behind its own last entry of the conflicting term; or, if it has none, at
    * the follower's last entry of another term, so that one round skips a whole term.
    */
  lemma BackOffLowers(leader: Node, follower: Node, prev: nat)
    requires Contiguous(leader.logs) && Contiguous(follower.logs) && Shown(leader.logs, prev) && follower.First() <= prev
    requires !MatchLog(follower, EntryIn(leader.logs, prev).term, prev)
    ensures var next := BackOff(leader, AppendRequestFor(leader, prev), Rejection(follower, AppendRequestFor(leader, prev)));
            && next <= prev
            && if !Shown(follower.logs, prev) then next == follower.Last().index + 1
               else
                 var term := EntryIn(follower.logs, prev).term;
                 && Without(leader.logs, next, prev, term)
                 && (|| (Shown(leader.logs, next - 1) && EntryIn(leader.logs, next - 1).term == term)
                     || (&& Without(leader.logs, leader.First(), prev, term) && OneTerm(follower.logs, next, prev, term)
                         && follower.First() - 1 <= next
                         && (Shown(follower.logs, next) ==> EntryIn(follower.logs, next).term != term)))
    ensures var next := BackOff(leader, AppendRequestFor(leader, prev), Rejection(follower, AppendRequestFor(leader, prev)));
            !Shown(follower.logs, prev) || EntryIn(follower.logs, prev).term != follower.logs[0].term ==>
              next >= Min(leader.First() + 1, follower.First())
  {
    hide BackOff; hide Rejection; hide AppendRequestFor; hide TermScan; hide ConflictScan;
    BackOffParts(leader, follower, prev);
    if Shown(follower.logs, prev) {
      var term := EntryIn(follower.logs, prev).term;
      ScanPasses(follower.logs, prev - 1, term);
      ScanFinds(leader.logs, prev, term);
      assert EntryIn(leader.logs, prev).term != term;
      assert EntryIn(follower.logs, follower.First()) == follower.logs[0];
    }
  }

  /** The leader has an entry of this term below `high`. */
  predicate HasBelow(logs: seq<Entry>, high: int, term: nat) {
    exists q :: 0 <= q < |logs| && logs[q].index < high && logs[q].term == term
  }

  /**
    * The rejection that traps the leader: the peer has compacted further, from its dummy to the
    * rejected index the leader has nothing of the conflicting term, and it has some below the
    * dummy, or the peer has nothing but that term above its dummy.
    */
  predicate LosesTrack(leader: seq<Entry>, follower: seq<Entry>, prev: int)
    requires |leader| > 0 && |follower| > 0
  {
    && leader[0].index < follower[0].index && Conflict(leader, follower, prev)
    && var term := EntryIn(follower, prev).term;
       && Without(leader, follower[0].index, prev, term)
       && (HasBelow(leader, follower[0].index, term) || OneTerm(follower, follower[0].index, prev, term))
  }

  lemma TrapExact(leader: Node, follower: Node, prev: nat, next: int)
    requires leader.Valid() && follower.Valid() && Shown(leader.logs, prev) && follower.First() <= prev
    requires AlikeTo(leader.logs, follower.logs, follower.commitIndex)
    requires !MatchLog(follower, EntryIn(leader.logs, prev).term, prev)
    requires next == BackOff(leader, AppendRequestFor(leader, prev), Rejection(follower, AppendRequestFor(leader, prev)))
    ensures leader.First() <= next - 1 < follower.First() <==> LosesTrack(leader.logs, follower.logs, prev)
  {
    BackOffLowers(leader, follower, prev);
    var ff, lf := follower.First(), leader.First();
    assert Alike(leader.logs, follower.logs, ff);
    if Shown(follower.logs, prev) && lf < ff {
      var term := EntryIn(follower.logs, prev).term;
      if Shown(leader.logs, next - 1) && EntryIn(leader.logs, next - 1).term == term {
        if next - 1 < ff { assert leader.logs[next - 1 - lf].index < ff; }
      }
      if HasBelow(leader.logs, ff, term) {
        var q :| 0 <= q < |leader.logs| && leader.logs[q].index < ff && leader.logs[q].term == term;
        assert EntryIn(leader.logs, lf + q).term == term;
      }
    }
  }

  lemma ObservedKeeps(n: Node, term: nat)
    requires n.Valid() && n.currentTerm <= term
    ensures var m := ObserveLeader(n, term);
            m.logs == n.logs && m.commitIndex == n.commitIndex && m.currentTerm == term && m.Valid()
  {
  }

  lemma RejectedBy(leader: Node, follower: Node, prev: nat)
    requires leader.Valid() && follower.Valid() && follower.currentTerm <= leader.currentTerm
    requires Shown(leader.logs, prev) && follower.First() <= prev && !MatchLog(follower, EntryIn(leader.logs, prev).term, prev)
    ensures Continues(AppendRequestFor(leader, prev))
    ensures var (f, response) := AppendEntries(follower, AppendRequestFor(leader, prev));
            && f.logs == follower.logs && f.commitIndex == follower.commitIndex && f.currentTerm == leader.currentTerm && f.Valid()
            && !response.success && response.term == leader.currentTerm
            && response == Rejection(ObserveLeader(follower, leader.currentTerm), AppendRequestFor(leader, prev))
  {
    hide Reconcile; hide ConflictScan; hide Continues;
    SuffixContinues(leader, prev);
    ObservedKeeps(follower, leader.currentTerm);
  }

  lemma RejectionCounted(leader: Node, peer: nat, prev: nat, response: AppendResponse)
    requires leader.Valid() && leader.role == Leader && peer < leader.peers && Shown(leader.logs, prev)
    requires !response.success && response.term == leader.currentTerm
    ensures var next := BackOff(leader, AppendRequestFor(leader, prev), response);
            HandleAppendReply(leader, peer, AppendRequestFor(leader, prev), response)
              == leader.(nextIndex := leader.nextIndex[peer := next])
  {
    hide BackOff;
  }

  /** A rejection lowers the next index and changes no log; it springs the trap exactly as said above. */
  lemma Rejected(leader: Node, follower: Node, peer: nat)
    requires Pair(leader, follower, peer) && leader.nextIndex[peer] > leader.First() && !Trapped(leader, follower, peer)
    requires !MatchLog(follower, EntryIn(leader.logs, leader.nextIndex[peer] - 1).term, leader.nextIndex[peer] - 1)
    ensures var (l, f) := Round(leader, follower, peer);
            && Pair(l, f, peer) && SameLeader(leader, l, peer) && f.logs == follower.logs
            && l.commitIndex == leader.commitIndex && f.commitIndex == follower.commitIndex
            && l.nextIndex[peer] < leader.nextIndex[peer]
            && (Trapped(l, f, peer) <==> LosesTrack(leader.logs, follower.logs, leader.nextIndex[peer] - 1))
  {
    hide Matching; hide AlikeTo; hide Contiguous; hide AppendEntries; hide HandleAppendReply; hide BackOff; hide Rejection;
    hide LosesTrack; hide Conflict; hide Without; hide OneTerm; hide ObserveLeader;
    PairShape(leader, follower, peer);
    var prev := leader.nextIndex[peer] - 1;
    RejectedBy(leader, follower, prev);
    ObservedKeeps(follower, leader.currentTerm);
    var seen := ObserveLeader(follower, leader.currentTerm);
    var response := Rejection(seen, AppendRequestFor(leader, prev));
    RejectionCounted(leader, peer, prev, response);
    BackOffLowers(leader, seen, prev);
    TrapExact(leader, seen, prev, BackOff(leader, AppendRequestFor(leader, prev), response));
  }

  // ----- Acceptance -----

  /** What the leader has after index prev. */
  ghost predicate After(leader: seq<Entry>, prev: nat, entries: seq<Entry>) {
    && Shown(leader, prev) && |entries| == leader[0].index + |leader| - 1 - prev
    && forall j :: 0 <= j < |entries| ==> entries[j] == EntryIn(leader, prev + 1 + j) && entries[j].index == prev + 1 + j
  }

  lemma SuffixIsAfter(leader: seq<Entry>, prev: nat)
    requires Contiguous(leader) && Shown(leader, prev)
    ensures After(leader, prev, leader[prev + 1 - leader[0].index..])
  {
  }

  lemma ContiguousFacts(logs: seq<Entry>)
    requires Contiguous(logs)
    ensures |logs| > 0 && logs[|logs| - 1].index == logs[0].index + |logs| - 1
  {
  }

  lemma MatchingAt(a: seq<Entry>, b: seq<Entry>, p: int)
    requires Matching(a, b) && Shown(a, p) && Shown(b, p) && EntryIn(a, p).term == EntryIn(b, p).term
    ensures AlikeTo(a, b, p)
  {
  }

  /** Where the terms agree so does everything before: the scan ends with the leader's entries in place. */
  lemma {:induction false} ReconcileInstalls(leader: seq<Entry>, logs: seq<Entry>, entries: seq<Entry>, prev: nat, k: nat)
    requires Contiguous(leader) && Contiguous(logs) && Matching(leader, logs) && After(leader, prev, entries)
    requires Shown(logs, prev) && k <= |entries| && Shown(logs, prev + k) && AlikeTo(leader, logs, prev + k)
    ensures forall j :: 0 <= j < |entries| ==> entries[j].index == entries[0].index + j
    ensures k < |entries| ==> logs[0].index < entries[k].index <= logs[0].index + |logs|
    ensures var r := Reconcile(logs, entries, k);
            && AlikeTo(leader, r, prev + |entries|) && r[0] == logs[0]
            && r[0].index + |r| > prev + |entries|
    decreases |entries| - k
  {
    hide Matching; hide AlikeTo; hide Contiguous;
    ContiguousFacts(logs);
    if k < |entries| {
      var p := prev + 1 + k;
      var at := p - logs[0].index;
      if at < |logs| && logs[at].term == entries[k].term {
        MatchingAt(leader, logs, p);
        ReconcileInstalls(leader, logs, entries, prev, k + 1);
      } else {
        ReplacedIsAlike(leader, logs, entries, prev, k);
      }
    }
  }

  lemma ReplacedIsAlike(leader: seq<Entry>, logs: seq<Entry>, entries: seq<Entry>, prev: nat, k: nat)
    requires Contiguous(leader) && Contiguous(logs) && After(leader, prev, entries)
    requires Shown(logs, prev) && k < |entries| && Shown(logs, prev + k) && AlikeTo(leader, logs, prev + k)
    ensures var r := logs[..prev + 1 + k - logs[0].index] + entries[k..];
            && |r| > 0 && r[0] == logs[0] && AlikeTo(leader, r, prev + |entries|) && r[0].index + |r| == prev + |entries| + 1
  {
    var r := logs[..prev + 1 + k - logs[0].index] + entries[k..];
    forall q | q <= prev + |entries| ensures Alike(leader, r, q) {
      assert Alike(leader, logs, q) || q > prev + k;
    }
  }

  lemma AlikeMatches(a: seq<Entry>, b: seq<Entry>, last: int)
    requires |a| > 0 && last == a[0].index + |a| - 1 && AlikeTo(a, b, last)
    ensures Matching(a, b) && forall p :: p <= last ==> AlikeTo(a, b, p)
  {
  }

  lemma FollowerAfter(leader: Node, follower: Node, prev: nat)
    requires leader.Valid() && follower.Valid() && follower.currentTerm <= leader.currentTerm
    requires Shown(leader.logs, prev) && Shown(follower.logs, prev) && Matching(leader.logs, follower.logs)
    requires EntryIn(leader.logs, prev).term == EntryIn(follower.logs, prev).term
    requires follower.commitIndex <= leader.Last().index
    ensures Continues(AppendRequestFor(leader, prev))
    ensures var (f, response) := AppendEntries(follower, AppendRequestFor(leader, prev));
            && response == AppendResponse(leader.currentTerm, true, 0, 0)
            && f.Valid() && f.First() == follower.First() && f.currentTerm == leader.currentTerm
            && AlikeTo(leader.logs, f.logs, leader.Last().index) && leader.Last().index <= f.Last().index
            && leader.commitIndex <= f.commitIndex <= leader.Last().index
  {
    hide Matching; hide AlikeTo; hide Reconcile; hide Rejection; hide Continues;
    var request := AppendRequestFor(leader, prev);
    SuffixContinues(leader, prev);
    SuffixIsAfter(leader.logs, prev);
    MatchingAt(leader.logs, follower.logs, prev);
    ReconcileInstalls(leader.logs, follower.logs, request.entries, prev, 0);
    ObservedKeeps(follower, leader.currentTerm);
  }

  lemma LeaderAfter(leader: Node, peer: nat, prev: nat, response: AppendResponse)
    requires leader.Valid() && peer < leader.peers && leader.role == Leader && response.success && Shown(leader.logs, prev)
    ensures var l := HandleAppendReply(leader, peer, AppendRequestFor(leader, prev), response);
            && l.Valid() && SameLeader(leader, l, peer) && Advanced(l, leader.commitIndex) && l.commitIndex >= leader.commitIndex
            && l.matchIndex[peer] == leader.Last().index && l.nextIndex[peer] == leader.Last().index + 1
  {
    SuffixIsAfter(leader.logs, prev);
    hide Reached;
  }

  /** An accepted round leaves the follower with the leader's log and commit index, and the leader knowing it. */
  lemma Accepted(leader: Node, follower: Node, peer: nat)
    requires Pair(leader, follower, peer) && leader.nextIndex[peer] > leader.First() && !Trapped(leader, follower, peer)
    requires MatchLog(follower, EntryIn(leader.logs, leader.nextIndex[peer] - 1).term, leader.nextIndex[peer] - 1)
    ensures var (l, f) := Round(leader, follower, peer);
            && CaughtUp(l, f, peer, leader.commitIndex) && Pair(l, f, peer) && SameLeader(leader, l, peer)
            && Advanced(l, leader.commitIndex) && |f.logs| > 0 && f.First() == follower.First()
  {
    hide Matching; hide AlikeTo; hide Contiguous; hide AppendEntries; hide HandleAppendReply; hide AppendRequestFor;
    ContiguousFacts(leader.logs);
    ContiguousFacts(follower.logs);
    var prev := leader.nextIndex[peer] - 1;
    FollowerAfter(leader, follower, prev);
    var response := AppendResponse(leader.currentTerm, true, 0, 0);
    LeaderAfter(leader, peer, prev, response);
    var (l, f) := Round(leader, follower, peer);
    AlikeMatches(leader.logs, f.logs, leader.Last().index);
  }

  // ----- All rounds -----

  /** The rounds, in order. */
  ghost predicate Rounds(run: seq<(Node, Node)>, peer: nat) {
    && |run| > 0
    && forall i :: 0 <= i < |run| - 1 ==> Goes(run[i], run[i + 1], peer)
  }

  ghost predicate Goes(before: (Node, Node), after: (Node, Node), peer: nat) {
    Pair(before.0, before.1, peer) && after == Round(before.0, before.1, peer)
  }

  /** Behind its snapshot the leader is either trapped, because the peer has compacted further, or accepted. */
  lemma AfterSnapshot(leader: Node, follower: Node, peer: nat)
    requires Pair(leader, follower, peer) && leader.nextIndex[peer] - 1 < leader.First()
    ensures var (l, f) := Round(leader, follower, peer);
            && Pair(l, f, peer) && SameLeader(leader, l, peer) && l.commitIndex == leader.commitIndex
            && l.nextIndex[peer] == leader.First() + 1
            && (Trapped(l, f, peer) <==> leader.First() < follower.First())
            && (!Trapped(l, f, peer) ==> MatchLog(f, EntryIn(l.logs, leader.First()).term, leader.First()))
  {
    hide Matching;
    SnapshotRound(leader, follower, peer);
    var (l, f) := Round(leader, follower, peer);
    hide Round;
    assert Alike(l.logs, f.logs, leader.First());
  }

  /** Outside the trap every round succeeds, lowers the next index, or is the snapshot behind which the next one is tried. */
  lemma RoundProgress(leader: Node, follower: Node, peer: nat)
    requires Pair(leader, follower, peer) && !Trapped(leader, follower, peer)
    ensures var (l, f) := Round(leader, follower, peer);
            && SameLeader(leader, l, peer) && Pair(l, f, peer)
            && (|| CaughtUp(l, f, peer, leader.commitIndex)
                || (f.logs == follower.logs && l.nextIndex[peer] < leader.nextIndex[peer])
                || (leader.nextIndex[peer] <= leader.First() && l.nextIndex[peer] == leader.First() + 1))
  {
    hide Matching; hide AlikeTo; hide Contiguous; hide Round; hide CaughtUp;
    PairShape(leader, follower, peer);
    var next := leader.nextIndex[peer];
    if next - 1 < leader.First() {
      SnapshotRound(leader, follower, peer);
    } else if MatchLog(follower, EntryIn(leader.logs, next - 1).term, next - 1) {
      Accepted(leader, follower, peer);
    } else {
      Rejected(leader, follower, peer);
    }
  }

  /** At most one round for each index down to the leader's dummy, the snapshot, and one behind it. */
  function Most(leader: Node, peer: nat): nat
    requires |leader.logs| > 0 && peer < |leader.nextIndex|
  {
    Max(leader.nextIndex[peer] - leader.First(), 0) + 2
  }

  /**
    * After at most that many rounds, at most one of them with a snapshot, the follower has
    * caught up, unless the leader got trapped. It never is if the peer has not compacted
    * further than the leader, and without a snapshot only by rejections as in LosesTrack.
    */
  lemma {:induction false} CatchesUp(leader: Node, follower: Node, peer: nat) returns (run: seq<(Node, Node)>)
    requires Pair(leader, follower, peer)
    ensures Rounds(run, peer) && run[0] == (leader, follower) && |run| <= Most(leader, peer) + 1
    ensures var (l, f) := run[|run| - 1];
            && SameLeader(leader, l, peer) && Pair(l, f, peer)
            && (Trapped(l, f, peer) || (CaughtUp(l, f, peer, leader.commitIndex) && Advanced(l, leader.commitIndex)))
            && (Trapped(l, f, peer) ==> leader.First() < follower.First())
    ensures forall i, j :: 0 <= i < j < |run| - 1 && Offers(run[i], peer) ==> !Offers(run[j], peer)
    decreases Max(leader.nextIndex[peer] - leader.First(), 0)
  {
    hide Pair; hide CaughtUp; hide Round;
    PairShape(leader, follower, peer);
    var next := leader.nextIndex[peer];
    var (l, f) := Round(leader, follower, peer);
    if Trapped(leader, follower, peer) {
      run := [(leader, follower)];
    } else if next - 1 < leader.First() {
      AfterSnapshot(leader, follower, peer);
      PairShape(l, f, peer);
      if Trapped(l, f, peer) {
        run := [(leader, follower), (l, f)];
      } else {
        Accepted(l, f, peer);
        run := [(leader, follower), (l, f), Round(l, f, peer)];
      }
    } else if MatchLog(follower, EntryIn(leader.logs, next - 1).term, next - 1) {
      Accepted(leader, follower, peer);
      run := [(leader, follower), (l, f)];
    } else {
      Rejected(leader, follower, peer);
      PairShape(l, f, peer);
      var rest := CatchesUp(l, f, peer);
      run := [(leader, follower)] + rest;
      LongerRun((leader, follower), rest, peer);
    }
  }

  /** The leader sends its snapshot in this round. */
  predicate Offers(at: (Node, Node), peer: nat) {
    peer < |at.0.nextIndex| && |at.0.logs| > 0 && at.0.nextIndex[peer] - 1 < at.0.First()
  }

  lemma LongerRun(start: (Node, Node), rest: seq<(Node, Node)>, peer: nat)
    requires Rounds(rest, peer) && Goes(start, rest[0], peer) && !Offers(start, peer)
    requires forall i, j :: 0 <= i < j < |rest| - 1 && Offers(rest[i], peer) ==> !Offers(rest[j], peer)
    ensures var run := [start] + rest;
            && Rounds(run, peer)
            && forall i, j :: 0 <= i < j < |run| - 1 && Offers(run[i], peer) ==> !Offers(run[j], peer)
  {
    var run := [start] + rest;
    forall i | 0 <= i < |run| - 1 ensures Goes(run[i], run[i + 1], peer) {
      if i > 0 { assert run[i] == rest[i - 1] && run[i + 1] == rest[i]; }
    }
    forall i, j | 0 <= i < j < |run| - 1 && Offers(run[i], peer) ensures !Offers(run[j], peer) {
      assert run[i] == rest[i - 1] && run[j] == rest[j - 1];
    }
  }

  lemma PairShape(leader: Node, follower: Node, peer: nat)
    requires Pair(leader, follower, peer)
    ensures peer < |leader.nextIndex| && |leader.logs| > 0 && |follower.logs| > 0
    ensures Contiguous(leader.logs) && Contiguous(follower.logs) && follower.First() <= follower.commitIndex
    ensures Shown(leader.logs, leader.nextIndex[peer] - 1) <==> leader.nextIndex[peer] > leader.First()
  {
  }

  /** Once trapped the leader stays as it is for any number of rounds. */
  lemma {:induction false} TrapForever(run: seq<(Node, Node)>, peer: nat, i: nat, j: nat)
    requires Rounds(run, peer) && i <= j < |run| && Trapped(run[i].0, run[i].1, peer)
    ensures run[j].0 == run[i].0 && Trapped(run[j].0, run[j].1, peer) && run[j].1.logs == run[i].1.logs
    decreases j - i
  {
    hide Pair; hide Round; hide Trapped;
    if i < j {
      assert Goes(run[i], run[i + 1], peer);
      TrapHolds(run[i].0, run[i].1, peer);
      TrapForever(run, peer, i + 1, j);
    }
  }

  /**
    * The trap can be sprung: the peer has compacted index 1 and holds an uncommitted entry of
    * term 2 at index 2, the leader of term 3 has one of term 1 there and tries it.
    */
  lemma TrapWitness(c: Command) returns (leader: Node, follower: Node)
    ensures leader.logs == [DUMMY, Entry(1, 1, c), Entry(2, 1, c), Entry(3, 3, c)]
    ensures follower.logs == [Entry(1, 1, NoCommand), Entry(2, 2, c)] && follower.commitIndex == 1
    ensures Pair(leader, follower, 1) && leader.nextIndex[1] == 3 && !Trapped(leader, follower, 1)
    ensures var (l, f) := Round(leader, follower, 1); Pair(l, f, 1) && Trapped(l, f, 1)
  {
    leader := Node(0, 5, Leader, 3, 0, [DUMMY, Entry(1, 1, c), Entry(2, 1, c), Entry(3, 3, c)], 1, 1,
                   [4, 3, 4, 4, 4], [3, 0, 0, 0, 0], {}, None, "");
    follower := Node(1, 5, Follower, 2, 2, [Entry(1, 1, NoCommand), Entry(2, 2, c)], 1, 1,
                     [0, 0, 0, 0, 0], [0, 0, 0, 0, 0], {}, None, "");
    WitnessAlike(leader.logs, follower.logs, c);
    hide Matching; hide AlikeTo;
    assert OneTerm(follower.logs, 1, 2, 2);
    assert Without(leader.logs, 1, 2, 2);
    Rejected(leader, follower, 1);
  }

  lemma WitnessAlike(a: seq<Entry>, b: seq<Entry>, c: Command)
    requires a == [DUMMY, Entry(1, 1, c), Entry(2, 1, c), Entry(3, 3, c)]
    requires b == [Entry(1, 1, NoCommand), Entry(2, 2, c)]
    ensures Matching(a, b) && AlikeTo(a, b, 1)
  {
    assert forall p :: p <= 1 ==> Alike(a, b, p);
    forall p | Shown(a, p) && Shown(b, p) && EntryIn(a, p).term == EntryIn(b, p).term ensures AlikeTo(a, b, p) {
      assert p == 1;
    }
  }

  /** One more round after it caught up brings the follower the leader's commit index. */
  lemma HeartbeatSpreadsCommit(leader: Node, follower: Node, peer: nat, commit: nat)
    requires Pair(leader, follower, peer) && CaughtUp(leader, follower, peer, commit)
    ensures var (l, f) := Round(leader, follower, peer);
            SameLeader(leader, l, peer) && CaughtUp(l, f, peer, leader.commitIndex)
  {
    PairShape(leader, follower, peer);
    ContiguousFacts(leader.logs);
    ContiguousFacts(follower.logs);
    assert Alike(leader.logs, follower.logs, leader.Last().index);
    hide Matching; hide AlikeTo; hide Contiguous; hide Round;
    Accepted(leader, follower, peer);
  }
}
