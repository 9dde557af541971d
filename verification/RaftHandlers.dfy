/** The atomic steps of one Raft node as functions of its state. */
module RaftHandlers {
  import opened RaftTypes
  import opened MajorityIndex

  // Every handler of the program runs under the node's lock; the class in RaftServer.dfy computes
  // these functions in place and the cluster in RaftCluster.dfy is built from them.

  // ----- Helpers that read the log -----

  function MatchLog(n: Node, term: nat, index: nat): bool
    requires Contiguous(n.logs) && n.First() <= index
  {
    index <= n.Last().index && n.logs[index - n.First()].term == term
  }

  function UpToDate(n: Node, term: nat, index: nat): bool
    requires |n.logs| > 0
  {
    term > n.Last().term || (term == n.Last().term && index >= n.Last().index)
  }

  // ----- Persistence, role changes, restart -----

  function Persist(n: Node): Node {
    n.(saved := Some(Saved(n.currentTerm, n.votedFor, n.logs)))
  }

  function ChangeRole(n: Node, role: Role): Node
    requires |n.logs| > 0
  {
    if n.role == role then n
    else if role == Leader then
      n.(role := Leader,
         matchIndex := seq(n.peers, _ => 0),
         nextIndex := seq(n.peers, _ => n.Last().index + 1))
    else n.(role := role)
  }

  /** Leave whatever role the node has because a higher term was seen. */
  function StepDown(n: Node, term: nat): Node
    requires |n.logs| > 0
  {
    ChangeRole(n, Follower).(currentTerm := term, votedFor := NOBODY)
  }

  /** What `Make` builds on top of a surviving persister. */
  function Restart(me: nat, peers: nat, saved: Option<Saved>, snapshot: string): Node
    requires saved.Some? ==> |saved.value.logs| > 0
  {
    var state := if saved.Some? then saved.value else Saved(0, NOBODY, [DUMMY]);
    var last := state.logs[|state.logs| - 1];
    Node(me, peers, Follower, state.currentTerm, state.votedFor, state.logs,
         state.logs[0].index, state.logs[0].index,
         seq(peers, _ => last.index + 1), seq(peers, _ => 0), {}, saved, snapshot)
  }

  // ----- Elections -----

  function Timeout(n: Node): (Node, VoteRequest)
    requires |n.logs| > 0
  {
    var c := ChangeRole(n, Candidate).(currentTerm := n.currentTerm + 1);
    (Persist(c.(votedFor := c.me, granters := {c.me})),
     VoteRequest(c.currentTerm, c.me, c.Last().index, c.Last().term))
  }

  function RequestVote(n: Node, request: VoteRequest): (Node, VoteResponse)
    requires |n.logs| > 0
  {
    if request.term < n.currentTerm
       || (request.term == n.currentTerm && n.votedFor != NOBODY && n.votedFor != request.candidate) then
      (Persist(n), VoteResponse(n.currentTerm, false))
    else
      var m := if request.term > n.currentTerm then StepDown(n, request.term) else n;
      if !UpToDate(m, request.lastLogTerm, request.lastLogIndex) then
        (Persist(m), VoteResponse(m.currentTerm, false))
      else
        (Persist(m.(votedFor := request.candidate)), VoteResponse(m.currentTerm, true))
  }

  function HandleVoteReply(n: Node, from: nat, request: VoteRequest, response: VoteResponse): Node
    requires |n.logs| > 0
  {
    if n.currentTerm != request.term || n.role != Candidate then n
    else if response.granted then
      var m := n.(granters := n.granters + {from});
      if |m.granters| > m.peers / 2 then ChangeRole(m, Leader) else m
    else if response.term > n.currentTerm then Persist(StepDown(n, response.term))
    else n
  }

  // ----- Log replication, follower side -----

  /** The scan that keeps matching entries and replaces the log from the first mismatch on. */
  function Reconcile(logs: seq<Entry>, entries: seq<Entry>, k: nat): (r: seq<Entry>)
    requires Contiguous(logs)
    requires forall j :: 0 <= j < |entries| ==> entries[j].index == entries[0].index + j
    requires k <= |entries|
    requires k < |entries| ==> logs[0].index < entries[k].index <= logs[0].index + |logs|
    ensures Contiguous(r) && r[0] == logs[0]
    decreases |entries| - k
  {
    if k == |entries| then logs
    else
      var at := entries[k].index - logs[0].index;
      if at >= |logs| || logs[at].term != entries[k].term then logs[..at] + entries[k..]
      else Reconcile(logs, entries, k + 1)
  }

  /** The last index below `at` whose term differs, or the one before the dummy. */
  function ConflictScan(logs: seq<Entry>, at: int, term: nat): (r: int)
    requires Contiguous(logs) && logs[0].index - 1 <= at < logs[0].index + |logs|
    ensures logs[0].index - 1 <= r <= at
    decreases at - logs[0].index + 1
  {
    if at >= logs[0].index && logs[at - logs[0].index].term == term then ConflictScan(logs, at - 1, term)
    else at
  }

  function AppendEntries(n: Node, request: AppendRequest): (r: (Node, AppendResponse))
    requires n.Valid() && Continues(request)
    ensures |r.0.logs| > 0 && Contiguous(r.0.logs) && r.0.logs[0] == n.logs[0]
  {
    if request.term < n.currentTerm then
      (Persist(n), AppendResponse(n.currentTerm, false, 0, 0))
    else
      var m := ObserveLeader(n, request.term);
      if request.prevLogIndex < m.First() then
        (Persist(m), AppendResponse(0, false, 0, 0))
      else if !MatchLog(m, request.prevLogTerm, request.prevLogIndex) then
        (Persist(m), Rejection(m, request))
      else
        var logs := Reconcile(m.logs, request.entries, 0);
        var commit := Min(request.leaderCommit, logs[|logs| - 1].index);
        (Persist(m.(logs := logs, commitIndex := Max(m.commitIndex, commit))),
         AppendResponse(m.currentTerm, true, 0, 0))
  }

  /** Step into the term of a leader that was just heard from. */
  function ObserveLeader(n: Node, term: nat): Node
    requires |n.logs| > 0
  {
    ChangeRole(if term > n.currentTerm then n.(currentTerm := term, votedFor := NOBODY) else n, Follower)
  }

  function Rejection(n: Node, request: AppendRequest): AppendResponse
    requires Contiguous(n.logs) && n.First() <= request.prevLogIndex
  {
    if n.Last().index < request.prevLogIndex then
      AppendResponse(n.currentTerm, false, n.Last().index + 1, -1)
    else
      var term := n.logs[request.prevLogIndex - n.First()].term;
      AppendResponse(n.currentTerm, false, ConflictScan(n.logs, request.prevLogIndex - 1, term), term)
  }

  // ----- Log replication, leader side -----

  function AppendRequestFor(n: Node, prev: nat): AppendRequest
    requires Contiguous(n.logs) && n.First() <= prev <= n.Last().index
  {
    AppendRequest(n.currentTerm, n.me, prev, n.logs[prev - n.First()].term, n.commitIndex,
                  n.logs[prev + 1 - n.First()..])
  }

  function InstallRequestFor(n: Node): InstallRequest
    requires |n.logs| > 0
  {
    InstallRequest(n.currentTerm, n.me, n.First(), n.logs[0].term, n.snapshot)
  }

  /** The last index at or below `at` whose term is `term`, if the log still shows one. */
  function TermScan(logs: seq<Entry>, at: int, term: int): (r: Option<nat>)
    requires Contiguous(logs) && at < logs[0].index + |logs|
    ensures r.Some? ==> logs[0].index <= r.value <= at && logs[r.value - logs[0].index].term == term
    decreases at - logs[0].index + 1
  {
    if at < logs[0].index then None
    else if logs[at - logs[0].index].term == term then Some(at)
    else TermScan(logs, at - 1, term)
  }

  function BackOff(n: Node, request: AppendRequest, response: AppendResponse): int
    requires Contiguous(n.logs) && request.prevLogIndex <= n.Last().index
  {
    if response.conflictTerm == -1 then response.conflictIndex
    else
      var hit := TermScan(n.logs, request.prevLogIndex, response.conflictTerm);
      if hit.Some? then hit.value + 1 else response.conflictIndex
  }

  ghost function AdvanceCommit(n: Node): Node
    requires n.Valid()
  {
    var candidate := MajorityMatch(n.matchIndex);
    if candidate > n.commitIndex && MatchLog(n, n.currentTerm, candidate) then
      n.(commitIndex := candidate)
    else n
  }

  ghost function HandleAppendReply(n: Node, peer: nat, request: AppendRequest, response: AppendResponse): Node
    requires n.Valid() && peer < n.peers
    requires n.role == Leader && n.currentTerm == request.term ==> request.prevLogIndex <= n.Last().index
  {
    if n.role != Leader || n.currentTerm != request.term then n
    else if response.success then
      var at := request.prevLogIndex + |request.entries|;
      AdvanceCommit(n.(matchIndex := n.matchIndex[peer := at], nextIndex := n.nextIndex[peer := at + 1]))
    else if response.term > n.currentTerm then Persist(StepDown(n, response.term))
    else if response.term == n.currentTerm then
      n.(nextIndex := n.nextIndex[peer := BackOff(n, request, response)])
    else n
  }

  function HandleInstallReply(n: Node, peer: nat, request: InstallRequest, response: InstallResponse): Node
    requires n.Valid() && peer < n.peers
  {
    if n.role != Leader || n.currentTerm != request.term then n
    else if response.term > n.currentTerm then Persist(StepDown(n, response.term))
    else
      n.(matchIndex := n.matchIndex[peer := request.lastIncludedIndex],
         nextIndex := n.nextIndex[peer := request.lastIncludedIndex + 1])
  }

  /** A client command: (new state, index, term, is leader). */
  function Start(n: Node, command: Command): (r: (Node, int, int, bool))
    requires n.Valid()
  {
    if n.role != Leader then (n, NOWHERE, NOWHERE, false)
    else
      var entry := Entry(n.Last().index + 1, n.currentTerm, command);
      (Persist(n.(logs := n.logs + [entry],
                  matchIndex := n.matchIndex[n.me := entry.index],
                  nextIndex := n.nextIndex[n.me := entry.index + 1])),
       entry.index, entry.term, true)
  }

  // ----- Compaction -----

  /** The log from `index` on, its first entry turned into the dummy for (index, term). */
  function CutAt(logs: seq<Entry>, index: nat, term: nat): seq<Entry>
    requires Contiguous(logs) && logs[0].index <= index < logs[0].index + |logs|
  {
    [Entry(index, term, NoCommand)] + logs[index - logs[0].index + 1..]
  }

  /** A cut leaves a gapless log: the dummy, and behind it the same entries. */
  lemma CutFacts(logs: seq<Entry>, index: nat, term: nat)
    requires Contiguous(logs) && logs[0].index <= index < logs[0].index + |logs|
    ensures var cut := CutAt(logs, index, term);
            && Contiguous(cut) && cut[0] == Entry(index, term, NoCommand) && |cut| == |logs| - (index - logs[0].index)
            && forall k :: 1 <= k < |cut| ==> cut[k] == logs[index - logs[0].index + k]
  {
    var cut := CutAt(logs, index, term);
    forall k | 1 <= k < |cut| ensures cut[k] == logs[index - logs[0].index + k] && cut[k].index == index + k {
    }
  }

  function Snapshot(n: Node, index: nat, data: string): Node
    requires n.Valid() && index <= n.Last().index
  {
    if index <= n.First() then n
    else Persist(n.(logs := CutAt(n.logs, index, n.logs[index - n.First()].term), snapshot := data))
  }

  function InstallSnapshot(n: Node, request: InstallRequest): (Node, InstallResponse, Option<SnapshotMsg>)
    requires |n.logs| > 0
  {
    if request.term < n.currentTerm then (n, InstallResponse(n.currentTerm), None)
    else
      var m := if request.term > n.currentTerm then Persist(n.(currentTerm := request.term, votedFor := NOBODY)) else n;
      var f := ChangeRole(m, Follower);
      (f, InstallResponse(n.currentTerm),
       if request.lastIncludedIndex <= n.commitIndex then None
       else Some(SnapshotMsg(request.lastIncludedIndex, request.lastIncludedTerm, request.data)))
  }

  function CondInstallSnapshot(n: Node, term: nat, index: nat, data: string): (Node, bool)
    requires n.Valid()
  {
    if index <= n.commitIndex then (n, false)
    else
      var logs := if index > n.Last().index then [Entry(index, term, NoCommand)] else CutAt(n.logs, index, term);
      (Persist(n.(logs := logs, lastApplied := index, commitIndex := index, snapshot := data)), true)
  }
}
