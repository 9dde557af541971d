/** What has happened in a cluster, independent of where any node's log is cut. */
module RaftHistory {
  import opened RaftTypes
  import opened MajorityIndex

  // The log every elected leader had, who voted for whom, and which prefixes of a leader's
  // log its followers confirmed. The invariants of the Raft proof are stated about this.

  datatype At = At(term: nat, node: nat)

  datatype Election = Election(leader: nat, voters: set<nat>)

  /**
    * terms      the current term of every node
    * tl         per term, the log of its leader (only ever extended)
    * elections  per term, the leader and the majority that elected it
    * ballots    who received the vote of (term, node)
    * cands      the full log (term, node) stood for election with
    * acked      how far (term, node) confirmed the log of the term's leader
    */
  datatype History = History(
    size: nat,
    terms: seq<nat>,
    tl: map<nat, seq<Entry>>,
    elections: map<nat, Election>,
    ballots: map<At, nat>,
    cands: map<At, seq<Entry>>,
    acked: map<At, nat>)

  // ----- Logs -----

  ghost predicate Agree(a: seq<Entry>, b: seq<Entry>, k: nat) {
    k < |a| && k < |b| && a[..k + 1] == b[..k + 1]
  }

  /** Every entry's prefix is the one the leader of the entry's term had. */
  ghost predicate LogOK(log: seq<Entry>, tl: map<nat, seq<Entry>>) {
    && |log| > 0 && log[0] == DUMMY
    && forall i :: 1 <= i < |log| ==>
         log[i].index == i && log[i].term in tl && Agree(log, tl[log[i].term], i)
  }

  ghost predicate TermsUpTo(log: seq<Entry>, term: nat) {
    forall i :: 0 <= i < |log| ==> log[i].term <= term
  }

  lemma AgreeShorter(a: seq<Entry>, b: seq<Entry>, k: nat, j: nat)
    requires Agree(a, b, k) && j <= k
    ensures Agree(a, b, j) && a[j] == b[j]
  {
    assert a[..j + 1] == a[..k + 1][..j + 1];
    assert b[..j + 1] == b[..k + 1][..j + 1];
    assert a[j] == a[..k + 1][j] && b[j] == b[..k + 1][j];
  }

  lemma LogAt(log: seq<Entry>, tl: map<nat, seq<Entry>>, i: nat)
    requires LogOK(log, tl) && 1 <= i < |log|
    ensures log[i].index == i && log[i].term in tl && Agree(log, tl[log[i].term], i)
  {
  }

  lemma AgreeThrough(a: seq<Entry>, b: seq<Entry>, c: seq<Entry>, k: nat)
    requires Agree(a, b, k) && Agree(b, c, k)
    ensures Agree(a, c, k)
  {
  }

  lemma AgreePrefix(a: seq<Entry>, b: seq<Entry>, k: nat)
    requires a <= b && k < |a|
    ensures Agree(a, b, k)
  {
    assert a[..k + 1] == b[..k + 1];
  }

  /** The term logs are ordered by term along every log. */
  lemma TermsRise(log: seq<Entry>, tl: map<nat, seq<Entry>>, i: nat, j: nat)
    requires LogOK(log, tl) && i <= j < |log|
    requires forall t :: t in tl ==> TermsUpTo(tl[t], t)
    ensures log[i].term <= log[j].term
  {
    if j > 0 {
      var t := log[j].term;
      AgreeShorter(log, tl[t], j, i);
    }
  }

  /** Log Matching: two such logs with one term at one position agree up to it. */
  lemma SameTermSamePrefix(a: seq<Entry>, b: seq<Entry>, tl: map<nat, seq<Entry>>, k: nat)
    requires LogOK(a, tl) && LogOK(b, tl) && k < |a| && k < |b|
    requires a[k].term == b[k].term
    ensures Agree(a, b, k)
  {
    if k > 0 {
      AgreeThrough(a, tl[a[k].term], b, k);
    } else {
      assert a[..1] == [DUMMY] == b[..1];
    }
  }

  lemma PrefixOK(log: seq<Entry>, tl: map<nat, seq<Entry>>, n: nat)
    requires LogOK(log, tl) && 1 <= n <= |log|
    ensures LogOK(log[..n], tl)
  {
    var p := log[..n];
    forall i | 1 <= i < n ensures p[i].index == i && p[i].term in tl && Agree(p, tl[p[i].term], i) {
      assert p[..i + 1] == log[..i + 1];
    }
  }

  // ----- Acknowledged, chosen and dead entries -----

  function Acked(h: History, term: nat, node: nat): nat {
    if At(term, node) in h.acked then h.acked[At(term, node)] else 0
  }

  /** Position k of the term's leader log was written in that very term. */
  ghost predicate Own(h: History, term: nat, k: nat) {
    term in h.tl && 1 <= k < |h.tl[term]| && h.tl[term][k].term == term
  }

  ghost function Acks(h: History, term: nat, k: nat): set<nat> {
    set v: nat | v in Range(h.size) && Acked(h, term, v) >= k
  }

  ghost function Lost(h: History, term: nat, k: nat): set<nat> {
    set v: nat | v in Range(h.size) && v < |h.terms| && h.terms[v] > term && Acked(h, term, v) < k
  }

  ghost predicate Majority(size: nat, q: set<nat>) {
    2 * |q| > size
  }

  /** A majority confirmed position k of the term's leader, an entry of that term. */
  ghost predicate Chosen(h: History, term: nat, k: nat) {
    Own(h, term, k) && Majority(h.size, Acks(h, term, k))
  }

  /** A majority moved on without confirming position k: it can never be chosen. */
  ghost predicate Dead(h: History, term: nat, k: nat) {
    Majority(h.size, Lost(h, term, k))
  }

  /** Some entry chosen at a term up to `term` lies at or above position c. */
  ghost predicate Covered(h: History, term: nat, c: int) {
    c <= 0 || exists t: nat, k: nat :: t <= term && c <= k && Chosen(h, t, k)
  }

  lemma MajoritiesMeet(size: nat, a: set<nat>, b: set<nat>)
    requires a <= Range(size) && b <= Range(size)
    requires Majority(size, a) && Majority(size, b)
    ensures a * b != {}
  {
    SubsetSize(a + b, Range(size));
    assert |a + b| == |a| + |b| - |a * b|;
  }

  lemma ChosenNotDead(h: History, term: nat, k: nat)
    requires Chosen(h, term, k)
    ensures !Dead(h, term, k)
  {
    if Dead(h, term, k) {
      MajoritiesMeet(h.size, Acks(h, term, k), Lost(h, term, k));
    }
  }

  // ----- The invariant on the record -----

  ghost predicate TermLogsOK(tl: map<nat, seq<Entry>>, elections: map<nat, Election>) {
    forall t :: t in tl ==> t > 0 && t in elections && LogOK(tl[t], tl) && TermsUpTo(tl[t], t)
  }

  ghost predicate ElectionOK(t: nat, e: Election, size: nat, terms: seq<nat>, ballots: map<At, nat>) {
    && e.leader < |terms| && terms[e.leader] >= t
    && e.voters <= Range(size) && Majority(size, e.voters)
    && forall v :: v in e.voters ==> At(t, v) in ballots && ballots[At(t, v)] == e.leader
  }

  ghost predicate ElectionsOK(elections: map<nat, Election>, size: nat, terms: seq<nat>, ballots: map<At, nat>) {
    forall t :: t in elections ==> ElectionOK(t, elections[t], size, terms, ballots)
  }

  ghost predicate BallotsOK(ballots: map<At, nat>, terms: seq<nat>, cands: map<At, seq<Entry>>) {
    forall a :: a in ballots ==>
      a.term > 0 && a.node < |terms| && a.term <= terms[a.node] && At(a.term, ballots[a]) in cands
  }

  ghost predicate CandidatesOK(cands: map<At, seq<Entry>>, terms: seq<nat>, tl: map<nat, seq<Entry>>) {
    forall a :: a in cands ==>
      && a.node < |terms| && 0 < a.term <= terms[a.node]
      && LogOK(cands[a], tl) && TermsUpTo(cands[a], a.term - 1)
  }

  ghost predicate AcksOK(acked: map<At, nat>, terms: seq<nat>, tl: map<nat, seq<Entry>>) {
    forall a :: a in acked ==>
      a.node < |terms| && a.term <= terms[a.node] && a.term in tl && acked[a] < |tl[a.term]|
  }

  /** `log` holds position k of the leader of `term`, or that position can never be chosen. */
  ghost predicate KeptOrDead(h: History, log: seq<Entry>, term: nat, k: nat)
    requires term in h.tl
  {
    Agree(log, h.tl[term], k) || Dead(h, term, k)
  }

  /** `log` keeps every entry of an earlier term that may have been chosen. */
  ghost predicate KeepsAll(h: History, term: nat, log: seq<Entry>) {
    forall t: nat, k: nat :: t < term && Own(h, t, k) ==> KeptOrDead(h, log, t, k)
  }

  /** `log` keeps what v confirmed in earlier terms, as far as it may still be chosen. */
  ghost predicate Informed(h: History, v: nat, term: nat, log: seq<Entry>) {
    forall t: nat, k: nat :: t < term && Own(h, t, k) && Acked(h, t, v) >= k ==> KeptOrDead(h, log, t, k)
  }

  ghost predicate LeadersComplete(h: History) {
    forall u :: u in h.tl ==> KeepsAll(h, u, h.tl[u])
  }

  /** A candidate that got a vote has what the voter had confirmed in earlier terms. */
  ghost predicate VotesInformed(h: History) {
    forall a :: a in h.ballots && At(a.term, h.ballots[a]) in h.cands ==>
      Informed(h, a.node, a.term, h.cands[At(a.term, h.ballots[a])])
  }

  ghost predicate RecordOK(h: History) {
    && h.size > 0 && |h.terms| == h.size
    && h.elections.Keys <= h.tl.Keys
    && TermLogsOK(h.tl, h.elections)
    && ElectionsOK(h.elections, h.size, h.terms, h.ballots)
    && BallotsOK(h.ballots, h.terms, h.cands)
    && CandidatesOK(h.cands, h.terms, h.tl)
    && AcksOK(h.acked, h.terms, h.tl)
  }

  ghost predicate HistoryOK(h: History) {
    RecordOK(h) && LeadersComplete(h) && VotesInformed(h)
  }

  // ----- Consequences -----

  /** Leader completeness on the record. */
  lemma ChosenInLaterLeader(h: History, t: nat, k: nat, u: nat)
    requires HistoryOK(h) && Chosen(h, t, k) && t <= u && u in h.tl
    ensures Agree(h.tl[u], h.tl[t], k)
  {
    hide TermLogsOK; hide ElectionsOK; hide BallotsOK; hide CandidatesOK; hide AcksOK; hide VotesInformed;
    ChosenNotDead(h, t, k);
    if t < u {
      assert KeepsAll(h, u, h.tl[u]);
    }
  }

  /** Two chosen entries never contradict each other below both of them. */
  lemma ChosenAgree(h: History, t: nat, k: nat, u: nat, l: nat, i: nat)
    requires HistoryOK(h) && Chosen(h, t, k) && Chosen(h, u, l) && i <= k && i <= l
    ensures Agree(h.tl[t], h.tl[u], i)
  {
    hide HistoryOK;
    if t <= u {
      ChosenInLaterLeader(h, t, k, u);
      AgreeShorter(h.tl[u], h.tl[t], k, i);
    } else {
      ChosenInLaterLeader(h, u, l, t);
      AgreeShorter(h.tl[t], h.tl[u], l, i);
    }
  }

  // ----- Growth -----

  /** h2 is a later record than h. */
  ghost predicate Grows(h: History, h2: History) {
    && h2.size == h.size && |h2.terms| == |h.terms|
    && (forall v :: 0 <= v < |h.terms| ==> h.terms[v] <= h2.terms[v])
    && (forall t :: t in h.tl ==> t in h2.tl && h.tl[t] <= h2.tl[t])
    && (forall t :: t in h.elections ==> t in h2.elections && h2.elections[t] == h.elections[t])
    && (forall a :: a in h.ballots ==> a in h2.ballots && h2.ballots[a] == h.ballots[a])
    && (forall a :: a in h.cands ==> a in h2.cands && h2.cands[a] == h.cands[a])
    && (forall t, v :: Acked(h, t, v) <= Acked(h2, t, v))
    && (forall t, v :: 0 <= v < |h.terms| && t < h.terms[v] ==> Acked(h2, t, v) == Acked(h, t, v))
  }

  lemma LogOKGrows(log: seq<Entry>, tl: map<nat, seq<Entry>>, tl2: map<nat, seq<Entry>>)
    requires LogOK(log, tl)
    requires forall t :: t in tl ==> t in tl2 && tl[t] <= tl2[t]
    ensures LogOK(log, tl2)
  {
    forall i | 1 <= i < |log| ensures log[i].term in tl2 && Agree(log, tl2[log[i].term], i) {
      AgreePrefix(tl[log[i].term], tl2[log[i].term], i);
    }
  }

  lemma OwnGrows(h: History, h2: History, t: nat, k: nat)
    requires Grows(h, h2) && Own(h, t, k)
    ensures Own(h2, t, k) && Agree(h.tl[t], h2.tl[t], k)
  {
    AgreePrefix(h.tl[t], h2.tl[t], k);
  }

  lemma ChosenGrows(h: History, h2: History, t: nat, k: nat)
    requires Grows(h, h2) && Chosen(h, t, k)
    ensures Chosen(h2, t, k)
  {
    OwnGrows(h, h2, t, k);
    SubsetSize(Acks(h, t, k), Acks(h2, t, k));
  }

  lemma DeadGrows(h: History, h2: History, t: nat, k: nat)
    requires Grows(h, h2) && Dead(h, t, k) && |h.terms| == h.size
    ensures Dead(h2, t, k)
  {
    forall v | v in Lost(h, t, k) ensures v in Lost(h2, t, k) {
      assert h.terms[v] <= h2.terms[v];
      assert Acked(h2, t, v) == Acked(h, t, v);
    }
    SubsetSize(Lost(h, t, k), Lost(h2, t, k));
  }

  lemma CoveredGrows(h: History, h2: History, t: nat, u: nat, c: int)
    requires Grows(h, h2) && Covered(h, t, c) && t <= u
    ensures Covered(h2, u, c)
  {
    if c > 0 {
      var s: nat, k: nat :| s <= t && c <= k && Chosen(h, s, k);
      ChosenGrows(h, h2, s, k);
    }
  }

  lemma KeepsAllGrows(h: History, h2: History, u: nat, log: seq<Entry>)
    requires Grows(h, h2) && |h.terms| == h.size && KeepsAll(h, u, log)
    requires forall t: nat, k: nat :: t < u && Own(h2, t, k) ==> Own(h, t, k) || Dead(h2, t, k)
    ensures KeepsAll(h2, u, log)
  {
    hide Grows; hide Dead; hide Agree;
    forall t: nat, k: nat | t < u && Own(h2, t, k) ensures KeptOrDead(h2, log, t, k) {
      if Own(h, t, k) {
        KeptOrDeadGrows(h, h2, log, t, k);
      }
    }
  }

  lemma InformedGrows(h: History, h2: History, v: nat, u: nat, log: seq<Entry>)
    requires Grows(h, h2) && |h.terms| == h.size && Informed(h, v, u, log) && v < h.size && u <= h.terms[v]
    requires forall t: nat, k: nat :: t < u && Own(h2, t, k) && Acked(h, t, v) >= k ==> Own(h, t, k)
    ensures Informed(h2, v, u, log)
  {
    hide Dead; hide Agree; hide Own;
    forall t: nat, k: nat | t < u && Own(h2, t, k) && Acked(h2, t, v) >= k
      ensures t in h2.tl && KeptOrDead(h2, log, t, k)
    {
      assert Acked(h2, t, v) == Acked(h, t, v);
      KeptOrDeadGrows(h, h2, log, t, k);
    }
  }

  lemma KeptOrDeadGrows(h: History, h2: History, log: seq<Entry>, t: nat, k: nat)
    requires Grows(h, h2) && |h.terms| == h.size && Own(h, t, k) && KeptOrDead(h, log, t, k)
    ensures t in h2.tl && KeptOrDead(h2, log, t, k)
  {
    if Dead(h, t, k) {
      DeadGrows(h, h2, t, k);
    } else {
      AgreePrefix(h.tl[t], h2.tl[t], k);
      AgreeThrough(log, h.tl[t], h2.tl[t], k);
    }
  }
}
