/** The values a Raft node keeps and the messages nodes exchange. */
module RaftTypes {

  /** A value or none. */
  datatype Option<+T> = None | Some(value: T)

  /** The payload of a log entry; the dummy at position 0 carries NoCommand. */
  datatype Command = NoCommand | Command(payload: string)

  datatype Entry = Entry(index: nat, term: nat, command: Command)

  datatype Role = Follower | Candidate | Leader

  datatype VoteRequest = VoteRequest(term: nat, candidate: nat, lastLogIndex: nat, lastLogTerm: nat)

  datatype VoteResponse = VoteResponse(term: nat, granted: bool)

  datatype AppendRequest = AppendRequest(
    term: nat, leader: nat, prevLogIndex: nat, prevLogTerm: nat, leaderCommit: nat, entries: seq<Entry>)

  datatype AppendResponse = AppendResponse(term: nat, success: bool, conflictIndex: int, conflictTerm: int)

  datatype InstallRequest = InstallRequest(
    term: nat, leader: nat, lastIncludedIndex: nat, lastIncludedTerm: nat, data: string)

  datatype InstallResponse = InstallResponse(term: nat)

  /** A snapshot on its way from the InstallSnapshot handler to the service. */
  datatype SnapshotMsg = SnapshotMsg(index: nat, term: nat, data: string)

  /** What the persister holds for the Raft layer. */
  datatype Saved = Saved(currentTerm: nat, votedFor: int, logs: seq<Entry>)

  const NOBODY: int := -1

  /** Index and term reported for a command that was not appended. */
  const NOWHERE: int := -1

  const DUMMY: Entry := Entry(0, 0, NoCommand)

  /**
    * One node. `granters` are the peers counted by the vote closure of the running
    * election, the candidate included, so its size is the closure's counter.
    */
  datatype Node = Node(
    me: nat, peers: nat,
    role: Role, currentTerm: nat, votedFor: int, logs: seq<Entry>,
    commitIndex: nat, lastApplied: nat,
    nextIndex: seq<int>, matchIndex: seq<int>,
    granters: set<nat>,
    saved: Option<Saved>, snapshot: string)
  {
    function First(): nat
      requires |logs| > 0
    {
      logs[0].index
    }

    function Last(): Entry
      requires |logs| > 0
    {
      logs[|logs| - 1]
    }

    /** Array shape every handler relies on: indexes run without gaps from the dummy on. */
    predicate Valid() {
      && me < peers
      && |nextIndex| == |matchIndex| == peers
      && Contiguous(logs)
      && First() <= commitIndex <= Last().index
    }
  }

  predicate Contiguous(logs: seq<Entry>) {
    && |logs| > 0
    && forall i :: 0 <= i < |logs| ==> logs[i].index == logs[0].index + i
  }

  /** A request's entries continue its previous index without gaps. */
  predicate Continues(request: AppendRequest) {
    forall k :: 0 <= k < |request.entries| ==> request.entries[k].index == request.prevLogIndex + 1 + k
  }

  function Min(x: int, y: int): int {
    if x > y then y else x
  }

  function Max(x: int, y: int): int {
    if x < y then y else x
  }
}
