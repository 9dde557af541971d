/**
  * The six ways the record of a cluster changes, each shown to keep the record's
  * invariant: a node sees a higher term, stands for election, casts a vote, is
  * elected, appends an entry as leader, or confirms part of a leader's log. The
  * hard ones are the election, which must find every chosen entry in the winner's log,
  * and the confirmation, which may choose entries that no later leader can miss.
  */
module RaftHistorySteps {
  import opened RaftTypes
  import opened MajorityIndex
  import opened RaftHistory

  // ----- A node sees a higher term -----

  function Observe(h: History, v: nat, term: nat): History
    requires v < |h.terms|
  {
    h.(terms := h.terms[v := term])
  }

  lemma ObserveGrows(h: History, v: nat, term: nat)
    requires v < |h.terms| && h.terms[v] <= term
    ensures Grows(h, Observe(h, v, term))
  {
  }

  lemma ObserveOK(h: History, v: nat, term: nat)
    requires HistoryOK(h) && v < |h.terms| && h.terms[v] <= term
    ensures HistoryOK(Observe(h, v, term)) && Grows(h, Observe(h, v, term))
  {
    hide Grows; hide LeadersComplete; hide VotesInformed; hide RecordOK;
    ObserveGrows(h, v, term);
    ObserveRecordOK(h, v, term);
    OldFactsOK(h, Observe(h, v, term));
  }

  lemma ObserveRecordOK(h: History, v: nat, term: nat)
    requires RecordOK(h) && v < |h.terms| && h.terms[v] <= term
    ensures RecordOK(Observe(h, v, term))
  {
    hide LogOK; hide TermsUpTo; hide TermLogsOK; hide ElectionsOK;
    ObserveElections(h, v, term);
  }

  lemma ObserveElections(h: History, v: nat, term: nat)
    requires RecordOK(h) && v < |h.terms| && h.terms[v] <= term
    ensures ElectionsOK(h.elections, h.size, Observe(h, v, term).terms, h.ballots)
  {
    hide LogOK; hide TermsUpTo; hide TermLogsOK; hide BallotsOK; hide CandidatesOK; hide AcksOK;
  }

  /** The two quantified parts of the invariant carry over when every entry is old or dead. */
  lemma OldEntriesOK(h: History, h2: History, u: nat)
    requires HistoryOK(h) && Grows(h, h2) && u in h.tl
    requires forall t: nat, k: nat :: t < u && Own(h2, t, k) ==> Own(h, t, k) || Dead(h2, t, k)
    ensures u in h2.tl && KeepsAll(h2, u, h.tl[u])
  {
    assert KeepsAll(h, u, h.tl[u]) by { assert LeadersComplete(h); }
    hide HistoryOK; hide KeepsAll;
    SizeOf(h);
    KeepsAllGrows(h, h2, u, h.tl[u]);
  }

  lemma OldBallotOK(h: History, h2: History, a: At)
    requires HistoryOK(h) && Grows(h, h2) && a in h.ballots
    requires forall t: nat, k: nat :: t < a.term && Own(h2, t, k) && Acked(h, t, a.node) >= k ==> Own(h, t, k)
    ensures At(a.term, h.ballots[a]) in h.cands
    ensures Informed(h2, a.node, a.term, h.cands[At(a.term, h.ballots[a])])
  {
    BallotFacts(h, a);
    hide HistoryOK; hide Informed; hide Own;
    InformedGrows(h, h2, a.node, a.term, h.cands[At(a.term, h.ballots[a])]);
  }

  lemma BallotFacts(h: History, a: At)
    requires HistoryOK(h) && a in h.ballots
    ensures |h.terms| == h.size && a.node < h.size && 0 < a.term <= h.terms[a.node]
    ensures At(a.term, h.ballots[a]) in h.cands
    ensures Informed(h, a.node, a.term, h.cands[At(a.term, h.ballots[a])])
  {
    hide LogOK; hide Informed; hide KeepsAll;
  }

  lemma SizeOf(h: History)
    requires HistoryOK(h)
    ensures h.size > 0 && |h.terms| == h.size
  {
  }

  /** Both quantified parts carry over when neither entries nor ballots are new. */
  lemma OldFactsOK(h: History, h2: History)
    requires HistoryOK(h) && Grows(h, h2) && h2.tl == h.tl
    requires h2.ballots == h.ballots && h2.cands == h.cands
    ensures LeadersComplete(h2) && VotesInformed(h2)
  {
    assert forall t: nat, k: nat :: Own(h2, t, k) == Own(h, t, k);
    forall u | u in h2.tl ensures KeepsAll(h2, u, h2.tl[u]) {
      hide HistoryOK; hide KeepsAll; hide Dead; hide Grows; hide Own;
      OldEntriesOK(h, h2, u);
    }
    forall a | a in h2.ballots && At(a.term, h2.ballots[a]) in h2.cands
      ensures Informed(h2, a.node, a.term, h2.cands[At(a.term, h2.ballots[a])])
    {
      hide HistoryOK; hide Informed; hide Grows; hide Own;
      OldBallotOK(h, h2, a);
    }
  }

  // ----- A node stands for election -----

  function Stand(h: History, v: nat, log: seq<Entry>): History
    requires v < |h.terms|
  {
    h.(cands := h.cands[At(h.terms[v], v) := log])
  }

  ghost predicate Standable(h: History, v: nat, log: seq<Entry>) {
    && v < |h.terms| && h.terms[v] > 0 && At(h.terms[v], v) !in h.cands
    && LogOK(log, h.tl) && TermsUpTo(log, h.terms[v] - 1)
  }

  lemma StandOK(h: History, v: nat, log: seq<Entry>)
    requires HistoryOK(h) && Standable(h, v, log)
    ensures HistoryOK(Stand(h, v, log)) && Grows(h, Stand(h, v, log))
  {
    StandRecordOK(h, v, log);
    hide LeadersComplete; hide VotesInformed; hide RecordOK; hide Informed; hide LogOK; hide TermsUpTo;
    SameEntriesOK(h, Stand(h, v, log), At(h.terms[v], v));
  }

  lemma StandRecordOK(h: History, v: nat, log: seq<Entry>)
    requires RecordOK(h) && Standable(h, v, log)
    ensures RecordOK(Stand(h, v, log)) && Grows(h, Stand(h, v, log))
  {
    hide LogOK; hide TermsUpTo; hide TermLogsOK; hide ElectionsOK; hide AcksOK;
  }

  /** With logs and acknowledgements unchanged, only a new ballot needs a reason. */
  lemma SameEntriesOK(h: History, h2: History, changed: At)
    requires HistoryOK(h) && Grows(h, h2) && h2.tl == h.tl && h2.acked == h.acked && h2.terms == h.terms
    requires forall a :: a in h2.ballots && a != changed ==> a in h.ballots
    requires forall a :: a in h2.cands && a != changed ==> a in h.cands
    requires changed in h2.ballots && changed !in h.ballots && At(changed.term, h2.ballots[changed]) in h2.cands ==>
               Informed(h, changed.node, changed.term, h2.cands[At(changed.term, h2.ballots[changed])])
    ensures LeadersComplete(h2) && VotesInformed(h2)
  {
    assert LeadersComplete(h2) by {
      forall u | u in h2.tl ensures KeepsAll(h2, u, h2.tl[u]) {
        hide HistoryOK; hide KeepsAll; hide Dead; hide Grows;
        OldEntriesOK(h, h2, u);
      }
    }
    forall a | a in h2.ballots && At(a.term, h2.ballots[a]) in h2.cands
      ensures Informed(h2, a.node, a.term, h2.cands[At(a.term, h2.ballots[a])])
    {
      hide HistoryOK; hide Informed;
      if a in h.ballots {
        OldBallotOK(h, h2, a);
      } else {
        SameInformed(h, h2, a.node, a.term, h2.cands[At(a.term, h2.ballots[a])]);
      }
    }
  }

  lemma SameInformed(h: History, h2: History, v: nat, u: nat, log: seq<Entry>)
    requires h2.tl == h.tl && h2.acked == h.acked && h2.terms == h.terms && h2.size == h.size
    requires Informed(h, v, u, log)
    ensures Informed(h2, v, u, log)
  {
    hide Agree; hide Majority;
    forall t: nat, k: nat | t < u && Own(h2, t, k) && Acked(h2, t, v) >= k
      ensures t in h2.tl && KeptOrDead(h2, log, t, k)
    {
      assert Own(h, t, k) && Acked(h, t, v) >= k;
      assert Lost(h2, t, k) == Lost(h, t, k);
    }
  }

  // ----- A node votes -----

  function Vote(h: History, v: nat, candidate: nat): History
    requires v < |h.terms|
  {
    h.(ballots := h.ballots[At(h.terms[v], v) := candidate])
  }

  ghost predicate Votable(h: History, v: nat, candidate: nat) {
    && v < |h.terms| && h.terms[v] > 0 && At(h.terms[v], v) !in h.ballots
    && At(h.terms[v], candidate) in h.cands
    && Informed(h, v, h.terms[v], h.cands[At(h.terms[v], candidate)])
  }

  lemma VoteOK(h: History, v: nat, candidate: nat)
    requires HistoryOK(h) && Votable(h, v, candidate)
    ensures HistoryOK(Vote(h, v, candidate)) && Grows(h, Vote(h, v, candidate))
  {
    VoteRecordOK(h, v, candidate);
    hide LeadersComplete; hide VotesInformed; hide RecordOK; hide Informed;
    SameEntriesOK(h, Vote(h, v, candidate), At(h.terms[v], v));
  }

  lemma VoteRecordOK(h: History, v: nat, candidate: nat)
    requires RecordOK(h) && Votable(h, v, candidate)
    ensures RecordOK(Vote(h, v, candidate)) && Grows(h, Vote(h, v, candidate))
  {
    hide TermLogsOK; hide CandidatesOK; hide AcksOK; hide Informed;
  }

  // ----- A candidate is elected -----

  function Elect(h: History, term: nat, leader: nat, voters: set<nat>, log: seq<Entry>): History {
    h.(tl := h.tl[term := log], elections := h.elections[term := Election(leader, voters)])
  }

  /** `log` holds everything that counted for the log the candidate stood with. */
  ghost predicate Supersedes(h: History, term: nat, log: seq<Entry>, stood: seq<Entry>) {
    forall t: nat, k: nat :: t < term && Own(h, t, k) && Agree(stood, h.tl[t], k) ==> KeptOrDead(h, log, t, k)
  }

  ghost predicate Elected(h: History, term: nat, leader: nat, voters: set<nat>) {
    && leader < |h.terms| && h.terms[leader] == term && term > 0 && term !in h.tl
    && voters <= Range(h.size) && Majority(h.size, voters)
    && (forall v :: v in voters ==> At(term, v) in h.ballots && h.ballots[At(term, v)] == leader)
  }

  ghost predicate Electable(h: History, term: nat, leader: nat, voters: set<nat>, log: seq<Entry>) {
    && Elected(h, term, leader, voters)
    && At(term, leader) in h.cands
    && LogOK(log, h.tl) && TermsUpTo(log, term - 1)
    && Supersedes(h, term, log, h.cands[At(term, leader)])
  }

  /** The votes vouch for the log the candidate stood with. */
  lemma StoodKeeps(h: History, term: nat, leader: nat, voters: set<nat>, t: nat, k: nat)
    requires HistoryOK(h) && Elected(h, term, leader, voters)
    requires Own(h, t, k) && t < term
    ensures At(term, leader) in h.cands && KeptOrDead(h, h.cands[At(term, leader)], t, k)
  {
    hide Agree; hide Own; hide HistoryOK;
    SizeOf(h);
    MajorityNonEmpty(h.size, voters);
    var someone :| someone in voters;
    BallotFacts(h, At(term, someone));
    if v :| v in voters && Acked(h, t, v) >= k {
      BallotFacts(h, At(term, v));
      OwnInLogs(h, t, k);
      assert KeptOrDead(h, h.cands[At(term, leader)], t, k);
    } else {
      forall v | v in voters ensures v in Lost(h, t, k) {
        BallotFacts(h, At(term, v));
      }
      SubsetSize(voters, Lost(h, t, k));
      OwnInLogs(h, t, k);
    }
  }

  lemma MajorityNonEmpty(size: nat, q: set<nat>)
    requires Majority(size, q)
    ensures q != {}
  {
  }

  lemma OwnInLogs(h: History, t: nat, k: nat)
    requires Own(h, t, k)
    ensures t in h.tl && k < |h.tl[t]|
  {
  }

  /** The elected log keeps whatever an earlier leader may have got chosen. */
  lemma ElectedKeepsAll(h: History, term: nat, leader: nat, voters: set<nat>, log: seq<Entry>)
    requires HistoryOK(h) && Electable(h, term, leader, voters, log)
    ensures KeepsAll(h, term, log)
  {
    forall t: nat, k: nat | t < term && Own(h, t, k) ensures t in h.tl && KeptOrDead(h, log, t, k) {
      hide HistoryOK; hide Agree; hide Dead; hide Own; hide Elected; hide LogOK; hide TermsUpTo;
      OwnInLogs(h, t, k);
      StoodKeeps(h, term, leader, voters, t, k);
    }
  }

  lemma ElectOK(h: History, term: nat, leader: nat, voters: set<nat>, log: seq<Entry>)
    requires HistoryOK(h) && Electable(h, term, leader, voters, log)
    ensures HistoryOK(Elect(h, term, leader, voters, log)) && Grows(h, Elect(h, term, leader, voters, log))
  {
    var h2 := Elect(h, term, leader, voters, log);
    ElectGrows(h, term, leader, voters, log);
    ElectRecordOK(h, h2, term, leader, voters, log);
    ElectFactsOK(h, h2, term, leader, voters, log);
    hide RecordOK; hide LeadersComplete; hide VotesInformed; hide Electable; hide Grows;
  }

  lemma ElectGrows(h: History, term: nat, leader: nat, voters: set<nat>, log: seq<Entry>)
    requires RecordOK(h) && Electable(h, term, leader, voters, log)
    ensures Grows(h, Elect(h, term, leader, voters, log))
  {
    hide LogOK; hide TermsUpTo; hide Supersedes; hide ElectionsOK; hide BallotsOK; hide CandidatesOK;
  }

  lemma ElectFactsOK(h: History, h2: History, term: nat, leader: nat, voters: set<nat>, log: seq<Entry>)
    requires HistoryOK(h) && Electable(h, term, leader, voters, log)
    requires h2 == Elect(h, term, leader, voters, log) && Grows(h, h2)
    ensures LeadersComplete(h2) && VotesInformed(h2)
  {
    assert term !in h.tl;
    ElectOwn(h, h2, term, leader, voters, log);
    forall u | u in h2.tl ensures KeepsAll(h2, u, h2.tl[u]) {
      hide HistoryOK; hide KeepsAll; hide Grows; hide Own; hide Electable; hide Dead;
      if u == term {
        ElectedKeepsAll(h, term, leader, voters, log);
        SizeOf(h);
        KeepsAllGrows(h, h2, u, log);
      } else {
        OldEntriesOK(h, h2, u);
      }
    }
    forall a | a in h2.ballots && At(a.term, h2.ballots[a]) in h2.cands
      ensures Informed(h2, a.node, a.term, h2.cands[At(a.term, h2.ballots[a])])
    {
      hide HistoryOK; hide Informed; hide Grows; hide Own; hide Electable;
      OldBallotOK(h, h2, a);
    }
  }

  lemma ElectOwn(h: History, h2: History, term: nat, leader: nat, voters: set<nat>, log: seq<Entry>)
    requires Electable(h, term, leader, voters, log) && h2 == Elect(h, term, leader, voters, log)
    ensures forall t: nat, k: nat :: Own(h2, t, k) ==> Own(h, t, k)
  {
    hide LogOK; hide Elected; hide Supersedes;
  }

  lemma ElectRecordOK(h: History, h2: History, term: nat, leader: nat, voters: set<nat>, log: seq<Entry>)
    requires RecordOK(h) && Electable(h, term, leader, voters, log)
    requires h2 == Elect(h, term, leader, voters, log) && Grows(h, h2)
    ensures RecordOK(h2)
  {
    hide LogOK; hide Supersedes; hide ElectionsOK; hide CandidatesOK; hide AcksOK;
    ElectElections(h, h2, term, leader, voters, log);
    ElectOthers(h, h2, term, leader, voters, log);
    hide BallotsOK; hide Grows;
    LogsStayOK(h, h2, term);
    LogOKGrows(log, h.tl, h2.tl);
  }

  lemma ElectElections(h: History, h2: History, term: nat, leader: nat, voters: set<nat>, log: seq<Entry>)
    requires RecordOK(h) && Electable(h, term, leader, voters, log)
    requires h2 == Elect(h, term, leader, voters, log)
    ensures ElectionsOK(h2.elections, h2.size, h2.terms, h2.ballots)
  {
    hide LogOK; hide Supersedes; hide BallotsOK; hide CandidatesOK; hide AcksOK; hide TermLogsOK;
  }

  lemma ElectOthers(h: History, h2: History, term: nat, leader: nat, voters: set<nat>, log: seq<Entry>)
    requires RecordOK(h) && Electable(h, term, leader, voters, log)
    requires h2 == Elect(h, term, leader, voters, log) && Grows(h, h2)
    ensures AcksOK(h2.acked, h2.terms, h2.tl) && CandidatesOK(h2.cands, h2.terms, h2.tl)
  {
    hide LogOK; hide Supersedes; hide BallotsOK; hide ElectionsOK;
    LogsStayOK(h, h2, term);
  }

  /** Every recorded log, except perhaps the leader log of `term`, is still well formed later. */
  lemma LogsStayOK(h: History, h2: History, term: nat)
    requires RecordOK(h) && Grows(h, h2)
    requires forall t :: t in h.tl && t != term ==> h2.tl[t] == h.tl[t]
    ensures forall t :: t in h.tl && t != term ==> LogOK(h2.tl[t], h2.tl)
    ensures forall a :: a in h.cands ==> LogOK(h.cands[a], h2.tl)
  {
    hide LogOK; hide ElectionsOK; hide BallotsOK; hide AcksOK;
    forall t | t in h.tl && t != term ensures LogOK(h2.tl[t], h2.tl) {
      LogOKGrows(h.tl[t], h.tl, h2.tl);
    }
    forall a | a in h.cands ensures LogOK(h.cands[a], h2.tl) {
      LogOKGrows(h.cands[a], h.tl, h2.tl);
    }
  }

  // ----- A leader appends an entry -----

  function Extend(h: History, term: nat, entry: Entry): History
    requires term in h.tl
  {
    h.(tl := h.tl[term := h.tl[term] + [entry]])
  }

  ghost predicate Extendable(h: History, term: nat, entry: Entry) {
    term in h.tl && term > 0 && entry.term == term && entry.index == |h.tl[term]|
  }

  lemma ExtendGrows(h: History, term: nat, entry: Entry)
    requires Extendable(h, term, entry)
    ensures Grows(h, Extend(h, term, entry))
  {
  }

  lemma AckedBelow(h: History, term: nat, v: nat)
    requires HistoryOK(h) && term in h.tl
    ensures Acked(h, term, v) < |h.tl[term]|
  {
    hide LeadersComplete; hide VotesInformed; hide ElectionsOK; hide BallotsOK; hide CandidatesOK;
    assert |h.tl[term]| > 0;
    if At(term, v) in h.acked { }
  }

  /** An entry appended by a leader that was already replaced can never be chosen. */
  lemma LateEntryDead(h: History, term: nat, u: nat, k: nat)
    requires HistoryOK(h) && term in h.tl && term < u && u in h.tl && k >= |h.tl[term]|
    ensures Dead(h, term, k)
  {
    var e := h.elections[u];
    assert ElectionOK(u, e, h.size, h.terms, h.ballots) by {
      hide LogOK; hide KeepsAll; hide Informed; hide ElectionOK;
    }
    hide HistoryOK;
    forall v | v in e.voters ensures v in Lost(h, term, k) {
      assert At(u, v) in h.ballots;
      BallotFacts(h, At(u, v));
      AckedBelow(h, term, v);
    }
    SubsetSize(e.voters, Lost(h, term, k));
  }

  /** Appending leaves old entries as they were; the new one is dead if a later leader exists. */
  lemma ExtendOwn(h: History, h2: History, term: nat, entry: Entry)
    requires HistoryOK(h) && Extendable(h, term, entry) && h2 == Extend(h, term, entry) && Grows(h, h2)
    ensures forall t: nat, k: nat :: Own(h2, t, k) ==> Own(h, t, k) || (t == term && k == |h.tl[term]|)
    ensures forall u: nat, t: nat, k: nat :: u in h.tl && t < u && Own(h2, t, k) ==> Own(h, t, k) || Dead(h2, t, k)
  {
    hide HistoryOK; hide Grows; hide Dead;
    assert forall t: nat, k: nat :: Own(h2, t, k) ==> Own(h, t, k) || (t == term && k == |h.tl[term]|);
    forall u: nat, t: nat, k: nat | u in h.tl && t < u && Own(h2, t, k) ensures Own(h, t, k) || Dead(h2, t, k) {
      if !Own(h, t, k) {
        LateEntryDead(h, term, u, k);
        SizeOf(h);
        DeadGrows(h, h2, t, k);
      }
    }
  }

  lemma ExtendOK(h: History, term: nat, entry: Entry)
    requires HistoryOK(h) && Extendable(h, term, entry)
    ensures HistoryOK(Extend(h, term, entry)) && Grows(h, Extend(h, term, entry))
  {
    var h2 := Extend(h, term, entry);
    ExtendGrows(h, term, entry);
    ExtendRecordOK(h, h2, term, entry);
    ExtendFactsOK(h, h2, term, entry);
    hide RecordOK; hide LeadersComplete; hide VotesInformed; hide Extendable; hide Grows;
  }

  lemma ExtendFactsOK(h: History, h2: History, term: nat, entry: Entry)
    requires HistoryOK(h) && Extendable(h, term, entry)
    requires h2 == Extend(h, term, entry) && Grows(h, h2)
    ensures LeadersComplete(h2) && VotesInformed(h2)
  {
    ExtendLeaders(h, h2, term, entry);
    ExtendVotes(h, h2, term, entry);
    hide HistoryOK; hide LeadersComplete; hide VotesInformed;
  }

  lemma ExtendLeaders(h: History, h2: History, term: nat, entry: Entry)
    requires HistoryOK(h) && Extendable(h, term, entry)
    requires h2 == Extend(h, term, entry) && Grows(h, h2)
    ensures LeadersComplete(h2)
  {
    hide HistoryOK; hide KeepsAll; hide Dead; hide Grows; hide Own;
    ExtendOwn(h, h2, term, entry);
    forall u | u in h2.tl ensures KeepsAll(h2, u, h2.tl[u]) {
      OldEntriesOK(h, h2, u);
      if u == term {
        LongerKeeps(h2, u, h.tl[u], h2.tl[u]);
      }
    }
  }

  lemma ExtendVotes(h: History, h2: History, term: nat, entry: Entry)
    requires HistoryOK(h) && Extendable(h, term, entry)
    requires h2 == Extend(h, term, entry) && Grows(h, h2)
    ensures VotesInformed(h2)
  {
    hide HistoryOK; hide Informed; hide Grows; hide Own;
    ExtendOwn(h, h2, term, entry);
    forall a | a in h2.ballots && At(a.term, h2.ballots[a]) in h2.cands
      ensures Informed(h2, a.node, a.term, h2.cands[At(a.term, h2.ballots[a])])
    {
      AckedBelow(h, term, a.node);
      OldBallotOK(h, h2, a);
    }
  }

  lemma LongerKeeps(h: History, u: nat, log: seq<Entry>, longer: seq<Entry>)
    requires KeepsAll(h, u, log) && log <= longer
    ensures KeepsAll(h, u, longer)
  {
    forall t: nat, k: nat | t < u && Own(h, t, k) ensures t in h.tl && KeptOrDead(h, longer, t, k) {
      hide Dead;
      if Agree(log, h.tl[t], k) {
        AgreePrefix(log, longer, k);
      }
    }
  }

  lemma ExtendRecordOK(h: History, h2: History, term: nat, entry: Entry)
    requires RecordOK(h) && Extendable(h, term, entry)
    requires h2 == Extend(h, term, entry) && Grows(h, h2)
    ensures RecordOK(h2)
  {
    hide LogOK; hide BallotsOK; hide ElectionsOK; hide Grows;
    LogsStayOK(h, h2, term);
    LogOKGrows(h.tl[term], h.tl, h2.tl);
    AppendedOK(h.tl[term], h2.tl, entry);
  }

  lemma AppendedOK(log: seq<Entry>, tl: map<nat, seq<Entry>>, entry: Entry)
    requires LogOK(log, tl) && entry.index == |log| && entry.term in tl && tl[entry.term] == log + [entry]
    ensures LogOK(log + [entry], tl)
  {
    var longer := log + [entry];
    forall i | 1 <= i < |longer|
      ensures longer[i].index == i && longer[i].term in tl && Agree(longer, tl[longer[i].term], i)
    {
      if i < |log| {
        assert longer[..i + 1] == log[..i + 1];
      }
    }
  }

  // ----- A node confirms a prefix of the current leader's log -----

  function Acknowledge(h: History, v: nat, k: nat): History
    requires v < |h.terms|
  {
    h.(acked := h.acked[At(h.terms[v], v) := k])
  }

  ghost predicate Acknowledgeable(h: History, v: nat, k: nat) {
    && v < |h.terms| && h.terms[v] in h.tl && k < |h.tl[h.terms[v]]|
    && Acked(h, h.terms[v], v) <= k
  }

  lemma AcknowledgeGrows(h: History, v: nat, k: nat)
    requires Acknowledgeable(h, v, k)
    ensures Grows(h, Acknowledge(h, v, k))
  {
  }

  lemma AcknowledgeOK(h: History, v: nat, k: nat)
    requires HistoryOK(h) && Acknowledgeable(h, v, k)
    ensures HistoryOK(Acknowledge(h, v, k)) && Grows(h, Acknowledge(h, v, k))
  {
    AcknowledgeGrows(h, v, k);
    AcknowledgeRecordOK(h, v, k);
    hide RecordOK; hide LeadersComplete; hide VotesInformed; hide Grows; hide Acknowledgeable;
    OldFactsOK(h, Acknowledge(h, v, k));
  }

  lemma AcknowledgeRecordOK(h: History, v: nat, k: nat)
    requires RecordOK(h) && Acknowledgeable(h, v, k)
    ensures RecordOK(Acknowledge(h, v, k))
  {
    hide LogOK; hide TermsUpTo; hide ElectionsOK; hide BallotsOK; hide CandidatesOK;
  }
}
