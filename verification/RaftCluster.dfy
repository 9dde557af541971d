/**
  * A cluster of Raft nodes as a state machine. A step is one handler of one node,
  * run on any message sent so far: messages stay in `msgs`, so they may be lost,
  * delayed, reordered or repeated. Timeouts, crashes, client commands and local
  * snapshots may happen at any moment.
  */
module RaftCluster {
  import opened RaftTypes
  import opened RaftHandlers
  import opened RaftHistory
  import opened RaftHistorySteps
  import opened MajorityIndex

  datatype Message =
    | VoteAsk(vote: VoteRequest)
    | VoteAnswer(from: nat, vote: VoteRequest, voted: VoteResponse)
    | AppendAsk(to: nat, append: AppendRequest)
    | AppendAnswer(from: nat, append: AppendRequest, appended: AppendResponse)
    | InstallAsk(to: nat, install: InstallRequest)
    | InstallAnswer(from: nat, install: InstallRequest, installed: InstallResponse)
      // a snapshot a handler pushes to its own service; sender is the term it came from
    | SnapshotReady(to: nat, sender: nat, ready: SnapshotMsg)

  /** An entry some node held at or below its commit index while in `term`. */
  datatype Commit = Commit(term: nat, entry: Entry)

  /**
    * `nodes` and `msgs` are the system. `full` (the uncompacted log behind each node's
    * array), `h` and `committed` record what happened; no step depends on them.
    */
  datatype Cluster = Cluster(
    nodes: seq<Node>, msgs: set<Message>,
    full: seq<seq<Entry>>, h: History, committed: set<Commit>)

  datatype Action =
    | Expire(i: nat)
    | AnswerVote(i: nat, m: Message)
    | CountVote(i: nat, m: Message)
    | Replicate(i: nat, peer: nat)
    | AnswerAppend(i: nat, m: Message)
    | CountAppend(i: nat, m: Message)
    | AnswerInstall(i: nat, m: Message)
    | CountInstall(i: nat, m: Message)
    | Install(i: nat, m: Message)
    | Propose(i: nat, command: Command)
    | Compact(i: nat, index: nat, data: string)
    | MarkApplied(i: nat, index: nat)
    | Crash(i: nat)

  function InitNode(me: nat, size: nat): Node {
    Restart(me, size, None, "")
  }

  function Init(size: nat): Cluster {
    Cluster(seq(size, i requires 0 <= i => InitNode(i, size)), {}, seq(size, _ => [DUMMY]),
            History(size, seq(size, _ => 0), map[], map[], map[], map[], map[]), {})
  }

  // ----- What a step may rely on -----

  ghost predicate Shaped(s: Cluster) {
    && |s.nodes| == |s.full| == |s.h.terms| == s.h.size
    && forall i :: 0 <= i < |s.nodes| ==> s.nodes[i].Valid() && s.nodes[i].peers == |s.nodes| && s.nodes[i].me == i
  }

  /** The message is addressed to node i and can be handled without running off an array. */
  ghost predicate Enabled(s: Cluster, a: Action)
    requires Shaped(s)
  {
    && a.i < |s.nodes|
    && var n := s.nodes[a.i];
       match a
       case Expire(_) => true
       case AnswerVote(i, m) => m in s.msgs && m.VoteAsk? && m.vote.candidate != i
       case CountVote(i, m) => m in s.msgs && m.VoteAnswer? && m.vote.candidate == i
       case Replicate(i, peer) => peer < |s.nodes| && peer != i && n.role == Leader
       case AnswerAppend(i, m) => m in s.msgs && m.AppendAsk? && m.to == i
       case CountAppend(i, m) => m in s.msgs && m.AppendAnswer? && m.append.leader == i
       case AnswerInstall(i, m) => m in s.msgs && m.InstallAsk? && m.to == i
       case CountInstall(i, m) => m in s.msgs && m.InstallAnswer? && m.install.leader == i
       case Install(i, m) => m in s.msgs && m.SnapshotReady? && m.to == i
       case Propose(_, _) => true
       case Compact(_, index, _) => index <= n.commitIndex
       case MarkApplied(_, index) => index <= n.commitIndex
       case Crash(_) => true
  }

  /** No handler indexes outside its arrays in this step. */
  ghost predicate Safe(s: Cluster, a: Action)
    requires Shaped(s) && Enabled(s, a)
  {
    var n := s.nodes[a.i];
    match a
    case Replicate(i, peer) => n.nextIndex[peer] - 1 <= n.Last().index
    case AnswerAppend(i, m) => Continues(m.append)
    case CountAppend(i, m) =>
      && m.from < |s.nodes|
      && (n.role == Leader && n.currentTerm == m.append.term ==> m.append.prevLogIndex <= n.Last().index)
    case CountInstall(i, m) => m.from < |s.nodes|
    case Crash(i) => n.saved.Some? ==> Contiguous(n.saved.value.logs)
    case _ => true
  }

  // ----- Bookkeeping -----

  /** The committed entries a node still holds. */
  function Commits(n: Node): set<Commit>
    requires |n.logs| > 0
  {
    set e | e in n.logs[1..] && e.index <= n.commitIndex :: Commit(n.currentTerm, e)
  }

  /** Node i moves to n; the record gets its log, its history and its committed entries. */
  function Move(s: Cluster, i: nat, n: Node, full: seq<Entry>, h: History, sent: set<Message>): Cluster
    requires Shaped(s) && i < |s.nodes| && |n.logs| > 0
  {
    Cluster(s.nodes[i := n], s.msgs + sent, s.full[i := full], h, s.committed + Commits(n))
  }

  /** The uncompacted log behind a node that accepted a request. */
  function FullAfterAppend(s: Cluster, i: nat, n: Node, request: AppendRequest): seq<Entry>
    requires Shaped(s) && i < |s.nodes|
  {
    var upTo := request.prevLogIndex + |request.entries| + 1;
    if n.logs != s.nodes[i].logs && request.term in s.h.tl && upTo <= |s.h.tl[request.term]| then
      s.h.tl[request.term][..upTo]
    else s.full[i]
  }

  /** The uncompacted log behind a node that installed a snapshot sent by the leader of `term`. */
  function FullAfterInstall(s: Cluster, i: nat, index: nat, term: nat): seq<Entry>
    requires Shaped(s) && i < |s.nodes|
  {
    var n := s.nodes[i];
    if index > n.commitIndex && index >= n.Last().index && term in s.h.tl && index < |s.h.tl[term]| then
      s.h.tl[term][..index + 1]
    else s.full[i]
  }

  /** An accepted request confirms the leader's log, unless the node's dummy hides a mismatch below it. */
  function HistoryAfterAppend(s: Cluster, i: nat, n: Node, full: seq<Entry>, request: AppendRequest, success: bool): History
    requires Shaped(s) && i < |s.nodes| && |n.logs| > 0
  {
    var h := Observe(s.h, i, n.currentTerm);
    var upTo := request.prevLogIndex + |request.entries|;
    if success && n.First() < |full| && n.logs[0].term == full[n.First()].term && Acked(h, n.currentTerm, i) <= upTo then
      Acknowledge(h, i, upTo)
    else h
  }

  // ----- Steps -----

  ghost function Next(s: Cluster, a: Action): Cluster
    requires Shaped(s) && Enabled(s, a) && Safe(s, a)
  {
    match a
    case Expire(i) => NextExpire(s, i)
    case AnswerVote(i, m) => NextAnswerVote(s, i, m)
    case CountVote(i, m) => NextCountVote(s, i, m)
    case Replicate(i, peer) => NextReplicate(s, i, peer)
    case AnswerAppend(i, m) => NextAnswerAppend(s, i, m)
    case CountAppend(i, m) => NextCountAppend(s, i, m)
    case AnswerInstall(i, m) => NextAnswerInstall(s, i, m)
    case CountInstall(i, m) => NextCountInstall(s, i, m)
    case Install(i, m) => NextInstall(s, i, m)
    case Propose(i, command) => NextPropose(s, i, command)
    case Compact(i, index, data) => NextCompact(s, i, index, data)
    case MarkApplied(i, index) => NextMarkApplied(s, i, index)
    case Crash(i) => NextCrash(s, i)
  }

  function NextExpire(s: Cluster, i: nat): Cluster
    requires Shaped(s) && i < |s.nodes|
  {
    var (n, request) := Timeout(s.nodes[i]);
    var h := Vote(Stand(Observe(s.h, i, n.currentTerm), i, s.full[i]), i, i);
    Move(s, i, n, s.full[i], h, {VoteAsk(request)})
  }

  function NextAnswerVote(s: Cluster, i: nat, m: Message): Cluster
    requires Shaped(s) && i < |s.nodes| && m.VoteAsk?
  {
    var (n, response) := RequestVote(s.nodes[i], m.vote);
    var h := Observe(s.h, i, n.currentTerm);
    Move(s, i, n, s.full[i], if response.granted then Vote(h, i, m.vote.candidate) else h,
         {VoteAnswer(i, m.vote, response)})
  }

  function NextCountVote(s: Cluster, i: nat, m: Message): Cluster
    requires Shaped(s) && i < |s.nodes| && m.VoteAnswer?
  {
    var n := HandleVoteReply(s.nodes[i], m.from, m.vote, m.voted);
    var h := Observe(s.h, i, n.currentTerm);
    Move(s, i, n, s.full[i],
         if n.role == Leader && s.nodes[i].role != Leader then Elect(h, n.currentTerm, i, n.granters, s.full[i]) else h, {})
  }

  function NextReplicate(s: Cluster, i: nat, peer: nat): Cluster
    requires Shaped(s) && i < |s.nodes| && peer < |s.nodes|
    requires s.nodes[i].nextIndex[peer] - 1 <= s.nodes[i].Last().index
  {
    var n := s.nodes[i];
    var prev := n.nextIndex[peer] - 1;
    Move(s, i, n, s.full[i], s.h,
         {if prev < n.First() then InstallAsk(peer, InstallRequestFor(n)) else AppendAsk(peer, AppendRequestFor(n, prev))})
  }

  function NextAnswerAppend(s: Cluster, i: nat, m: Message): Cluster
    requires Shaped(s) && i < |s.nodes| && m.AppendAsk? && Continues(m.append)
  {
    var (n, response) := AppendEntries(s.nodes[i], m.append);
    var full := FullAfterAppend(s, i, n, m.append);
    Move(s, i, n, full, HistoryAfterAppend(s, i, n, full, m.append, response.success),
         {AppendAnswer(i, m.append, response)})
  }

  ghost function NextCountAppend(s: Cluster, i: nat, m: Message): Cluster
    requires Shaped(s) && i < |s.nodes| && m.AppendAnswer? && m.from < |s.nodes|
    requires s.nodes[i].role == Leader && s.nodes[i].currentTerm == m.append.term ==>
               m.append.prevLogIndex <= s.nodes[i].Last().index
  {
    var n := HandleAppendReply(s.nodes[i], m.from, m.append, m.appended);
    Move(s, i, n, s.full[i], Observe(s.h, i, n.currentTerm), {})
  }

  function NextAnswerInstall(s: Cluster, i: nat, m: Message): Cluster
    requires Shaped(s) && i < |s.nodes| && m.InstallAsk?
  {
    var (n, response, ready) := InstallSnapshot(s.nodes[i], m.install);
    Move(s, i, n, s.full[i], Observe(s.h, i, n.currentTerm),
         {InstallAnswer(i, m.install, response)}
         + if ready.Some? then {SnapshotReady(i, m.install.term, ready.value)} else {})
  }

  function NextCountInstall(s: Cluster, i: nat, m: Message): Cluster
    requires Shaped(s) && i < |s.nodes| && m.InstallAnswer? && m.from < |s.nodes|
  {
    var n := HandleInstallReply(s.nodes[i], m.from, m.install, m.installed);
    Move(s, i, n, s.full[i], Observe(s.h, i, n.currentTerm), {})
  }

  function NextInstall(s: Cluster, i: nat, m: Message): Cluster
    requires Shaped(s) && i < |s.nodes| && m.SnapshotReady?
  {
    var (n, _) := CondInstallSnapshot(s.nodes[i], m.ready.term, m.ready.index, m.ready.data);
    Move(s, i, n, FullAfterInstall(s, i, m.ready.index, m.sender), s.h, {})
  }

  function NextPropose(s: Cluster, i: nat, command: Command): Cluster
    requires Shaped(s) && i < |s.nodes|
  {
    var (n, index, term, isLeader) := Start(s.nodes[i], command);
    var entry := n.Last();
    if isLeader && term in s.h.tl && i < |s.h.terms| then
      Move(s, i, n, s.full[i] + [entry], Acknowledge(Extend(s.h, term, entry), i, index), {})
    else Move(s, i, n, s.full[i], s.h, {})
  }

  function NextCompact(s: Cluster, i: nat, index: nat, data: string): Cluster
    requires Shaped(s) && i < |s.nodes| && index <= s.nodes[i].commitIndex
  {
    Move(s, i, Snapshot(s.nodes[i], index, data), s.full[i], s.h, {})
  }

  function NextMarkApplied(s: Cluster, i: nat, index: nat): Cluster
    requires Shaped(s) && i < |s.nodes|
  {
    var n := s.nodes[i];
    Move(s, i, n.(lastApplied := Max(n.lastApplied, index)), s.full[i], s.h, {})
  }

  function NextCrash(s: Cluster, i: nat): Cluster
    requires Shaped(s) && i < |s.nodes|
    requires s.nodes[i].saved.Some? ==> Contiguous(s.nodes[i].saved.value.logs)
  {
    var n := s.nodes[i];
    Move(s, i, Restart(n.me, n.peers, n.saved, n.snapshot), s.full[i], s.h, {})
  }
}
