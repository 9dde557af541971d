/** The Raft node as the program runs it. */
module RaftServer {
  import opened RaftTypes
  import opened MajorityIndex
  import opened InsertionSort
  import H = RaftHandlers

  // An object whose handlers update its fields, its two arrays and its persister in place. Each
  // handler computes the function of the same name in RaftHandlers, so what is proved of those
  // functions holds of the handlers.

  /** Stable storage: the encoded state and the snapshot, each saved as a whole. */
  class Persister {
    var state: Option<Saved>
    var snapshot: string

    constructor ()
      ensures state == None && snapshot == ""
    {
      state, snapshot := None, "";
    }

    method SaveRaftState(saved: Saved)
      modifies this
      ensures state == Some(saved) && snapshot == old(snapshot)
    {
      state := Some(saved);
    }

    method SaveStateAndSnapshot(saved: Saved, data: string)
      modifies this
      ensures state == Some(saved) && snapshot == data
    {
      state, snapshot := Some(saved), data;
    }
  }

  class Raft {
    const me: nat
    const peers: nat
    const persister: Persister
    const nextIndex: array<int>
    const matchIndex: array<int>
    var role: Role
    var currentTerm: nat
    var votedFor: int
    var logs: seq<Entry>
    var commitIndex: nat
    var lastApplied: nat
    /** The vote counter of the running election. */
    var grantedVotes: nat
    /** Which peers that counter counted. */
    ghost var granters: set<nat>

    /** The node as a value. */
    ghost function View(): Node
      reads this, nextIndex, matchIndex, persister
    {
      Node(me, peers, role, currentTerm, votedFor, logs, commitIndex, lastApplied,
           nextIndex[..], matchIndex[..], granters, persister.state, persister.snapshot)
    }

    /** The two arrays are separate and the vote counter counts peers. */
    ghost predicate Separate()
      reads this
    {
      nextIndex != matchIndex && |granters| == grantedVotes
    }

    ghost predicate Valid()
      reads this, nextIndex, matchIndex, persister
    {
      Separate() && View().Valid()
    }

    // ----- Make and the persister -----

    /** Make: a node on top of whatever an earlier run left in the persister. */
    constructor (size: nat, index: nat, storage: Persister)
      requires index < size
      requires storage.state.Some? ==> Contiguous(storage.state.value.logs)
      ensures Valid() && persister == storage && fresh(nextIndex) && fresh(matchIndex)
      ensures View() == H.Restart(index, size, storage.state, storage.snapshot)
    {
      me, peers, persister := index, size, storage;
      nextIndex := new int[size];
      matchIndex := new int[size];
      role, currentTerm, votedFor, logs := Follower, 0, NOBODY, [DUMMY];
      commitIndex, lastApplied, grantedVotes, granters := 0, 0, 0, {};
      new;
      ReadPersist();
      ResetIndexes();
    }

    /** Nothing is known to match, and every peer is tried from the end of the log. */
    method ResetIndexes()
      requires |logs| > 0 && nextIndex != matchIndex && nextIndex.Length == matchIndex.Length == peers
      modifies nextIndex, matchIndex
      ensures var next := logs[|logs| - 1].index + 1;
              matchIndex[..] == seq(peers, _ => 0) && nextIndex[..] == seq(peers, _ => next)
    {
      var last := GetLastLog();
      var i := 0;
      while i < peers
        invariant 0 <= i <= peers
        invariant forall k :: 0 <= k < i ==> matchIndex[k] == 0 && nextIndex[k] == last.index + 1
      {
        matchIndex[i], nextIndex[i] := 0, last.index + 1;
        i := i + 1;
      }
    }

    method ReadPersist()
      requires persister.state.Some? ==> |persister.state.value.logs| > 0
      modifies `currentTerm, `votedFor, `logs, `lastApplied, `commitIndex
      ensures if persister.state.Some?
              then currentTerm == persister.state.value.currentTerm && votedFor == persister.state.value.votedFor
                   && logs == persister.state.value.logs && lastApplied == commitIndex == logs[0].index
              else unchanged(this)
    {
      if persister.state.None? {
        return;
      }
      var saved := persister.state.value;
      currentTerm, votedFor, logs := saved.currentTerm, saved.votedFor, saved.logs;
      lastApplied, commitIndex := logs[0].index, logs[0].index;
    }

    method Persist()
      modifies persister
      ensures View() == H.Persist(old(View()))
      ensures Valid() == old(Valid())
    {
      persister.SaveRaftState(Saved(currentTerm, votedFor, logs));
    }

    // ----- Helpers -----

    function GetFirstLog(): Entry
      requires |logs| > 0
      reads this
    {
      logs[0]
    }

    function GetLastLog(): Entry
      requires |logs| > 0
      reads this
    {
      logs[|logs| - 1]
    }

    function IsLogUpToDate(term: nat, index: nat): bool
      requires |logs| > 0
      reads this
    {
      term > GetLastLog().term || (term == GetLastLog().term && index >= GetLastLog().index)
    }

    function MatchLog(term: nat, index: nat): bool
      requires Contiguous(logs) && GetFirstLog().index <= index
      reads this
    {
      index <= GetLastLog().index && logs[index - GetFirstLog().index].term == term
    }

    method ChangeState(next: Role)
      requires Valid()
      modifies `role, nextIndex, matchIndex
      ensures Valid() && View() == H.ChangeRole(old(View()), next)
    {
      if role == next {
        return;
      }
      role := next;
      if next == Leader {
        ResetIndexes();
      }
    }

    // ----- Elections -----

    /** The ticker's branch for an expired election timer. */
    method ExpireElectionTimer() returns (request: VoteRequest)
      requires Valid()
      modifies this, nextIndex, matchIndex, persister
      ensures Valid() && (View(), request) == H.Timeout(old(View()))
    {
      ChangeState(Candidate);
      currentTerm := currentTerm + 1;
      request := StartElection();
    }

    method StartElection() returns (request: VoteRequest)
      requires Valid()
      modifies this, persister
      ensures Valid() && request == VoteRequest(currentTerm, me, logs[|logs| - 1].index, logs[|logs| - 1].term)
      ensures View() == H.Persist(old(View()).(votedFor := me, granters := {me}))
    {
      request := GenRequestVoteRequest();
      grantedVotes := 1;
      granters := {me};
      votedFor := me;
      Persist();
    }

    method GenRequestVoteRequest() returns (request: VoteRequest)
      requires Valid()
      ensures request == VoteRequest(currentTerm, me, logs[|logs| - 1].index, logs[|logs| - 1].term)
    {
      var last := GetLastLog();
      request := VoteRequest(currentTerm, me, last.index, last.term);
    }

    method RequestVote(request: VoteRequest) returns (response: VoteResponse)
      requires Valid()
      modifies this, nextIndex, matchIndex, persister
      ensures Valid() && (View(), response) == H.RequestVote(old(View()), request)
    {
      if request.term < currentTerm || (request.term == currentTerm && votedFor != NOBODY && votedFor != request.candidate) {
        response := VoteResponse(currentTerm, false);
        Persist();
        return;
      }
      if request.term > currentTerm {
        ChangeState(Follower);
        currentTerm, votedFor := request.term, NOBODY;
      }
      if !IsLogUpToDate(request.lastLogTerm, request.lastLogIndex) {
        response := VoteResponse(currentTerm, false);
        Persist();
        return;
      }
      votedFor := request.candidate;
      response := VoteResponse(currentTerm, true);
      Persist();
    }

    /** The closure that runs when one peer's answer arrives; each peer's runs once per election. */
    method HandleVoteReply(peer: nat, request: VoteRequest, response: VoteResponse)
      requires Valid()
      requires currentTerm == request.term && role == Candidate ==> peer !in granters
      modifies this, nextIndex, matchIndex, persister
      ensures Valid() && View() == H.HandleVoteReply(old(View()), peer, request, response)
    {
      if currentTerm == request.term && role == Candidate {
        if response.granted {
          grantedVotes := grantedVotes + 1;
          granters := granters + {peer};
          if grantedVotes > peers / 2 {
            ChangeState(Leader);
          }
        } else if response.term > currentTerm {
          ChangeState(Follower);
          currentTerm, votedFor := response.term, NOBODY;
          Persist();
        }
      }
    }

    // ----- Log replication, follower side -----

    /**
      * A request may replace entries, so that the log still reaches the commit index
      * afterwards is a fact about the cluster, not about one handler.
      */
    method AppendEntries(request: AppendRequest) returns (response: AppendResponse)
      requires Valid() && Continues(request)
      modifies this, nextIndex, matchIndex, persister
      ensures Separate() && (View(), response) == H.AppendEntries(old(View()), request)
    {
      assert |logs| > 0;
      hide H.Reconcile; hide Continues; hide Contiguous; hide H.Rejection; hide H.ObserveLeader; hide H.ConflictScan;
      if request.term < currentTerm {
        response := AppendResponse(currentTerm, false, 0, 0);
        Persist();
        return;
      }
      StepIntoTerm(request.term);
      if request.prevLogIndex < GetFirstLog().index {
        response := AppendResponse(0, false, 0, 0);
        Persist();
        return;
      }
      if !MatchLog(request.prevLogTerm, request.prevLogIndex) {
        response := Reject(request);
        Persist();
        return;
      }
      Accept(request);
      response := AppendResponse(currentTerm, true, 0, 0);
      Persist();
    }

    /** Someone leads a term at least as high as this node's: follow. */
    method StepIntoTerm(term: nat)
      requires Valid()
      modifies this, nextIndex, matchIndex
      ensures Valid() && View() == H.ObserveLeader(old(View()), term)
    {
      if term > currentTerm {
        currentTerm, votedFor := term, NOBODY;
      }
      ChangeState(Follower);
    }

    method Accept(request: AppendRequest)
      requires Valid() && Continues(request)
      requires GetFirstLog().index <= request.prevLogIndex <= GetLastLog().index
      modifies `logs, `commitIndex
      ensures Separate()
      ensures var entries := H.Reconcile(old(logs), request.entries, 0);
              View() == old(View()).(logs := entries,
                commitIndex := Max(old(commitIndex), Min(request.leaderCommit, entries[|entries| - 1].index)))
    {
      hide H.Reconcile;
      Append(request);
      AdvanceCommitIndexForFollower(request.leaderCommit);
    }

    /** The conflict report, with the scan back over the conflicting term. */
    method Reject(request: AppendRequest) returns (response: AppendResponse)
      requires Valid() && GetFirstLog().index <= request.prevLogIndex
      ensures response == H.Rejection(View(), request)
    {
      var lastIndex := GetLastLog().index;
      if lastIndex < request.prevLogIndex {
        response := AppendResponse(currentTerm, false, lastIndex + 1, -1);
      } else {
        var firstIndex := GetFirstLog().index;
        var conflictTerm := logs[request.prevLogIndex - firstIndex].term;
        var index: int := request.prevLogIndex - 1;
        while index >= firstIndex && logs[index - firstIndex].term == conflictTerm
          invariant firstIndex - 1 <= index < request.prevLogIndex
          invariant H.ConflictScan(logs, index, conflictTerm) == H.ConflictScan(logs, request.prevLogIndex - 1, conflictTerm)
        {
          index := index - 1;
        }
        response := AppendResponse(currentTerm, false, index, conflictTerm);
      }
    }

    /** Keep what matches, and replace the log from the first entry that does not. */
    method Append(request: AppendRequest)
      requires Valid() && Continues(request)
      requires GetFirstLog().index <= request.prevLogIndex <= GetLastLog().index
      modifies `logs
      ensures logs == H.Reconcile(old(logs), request.entries, 0)
    {
      var firstIndex := GetFirstLog().index;
      var entries := request.entries;
      var index := 0;
      while index < |entries|
        invariant 0 <= index <= |entries|
        invariant logs == old(logs)
        invariant index < |entries| ==> firstIndex < entries[index].index <= firstIndex + |logs|
        invariant H.Reconcile(logs, entries, index) == H.Reconcile(logs, entries, 0)
      {
        var at := entries[index].index - firstIndex;
        if at >= |logs| || logs[at].term != entries[index].term {
          logs := logs[..at] + entries[index..];
          break;
        }
        index := index + 1;
      }
    }

    method AdvanceCommitIndexForFollower(leaderCommit: nat)
      requires |logs| > 0
      modifies `commitIndex
      ensures commitIndex == Max(old(commitIndex), Min(leaderCommit, logs[|logs| - 1].index))
    {
      var newCommitIndex := Min(leaderCommit, GetLastLog().index);
      if newCommitIndex > commitIndex {
        commitIndex := newCommitIndex;
      }
    }

    // ----- Log replication, leader side -----

    /** One round for a peer sends entries, or a snapshot when the peer is behind the dummy. */
    method ReplicateOneRound(peer: nat) returns (entries: Option<AppendRequest>, install: Option<InstallRequest>)
      requires Valid() && peer < peers && nextIndex[peer] - 1 <= GetLastLog().index
      ensures role != Leader ==> entries == None && install == None
      ensures role == Leader && nextIndex[peer] - 1 < GetFirstLog().index ==>
                entries == None && install == Some(H.InstallRequestFor(View()))
      ensures role == Leader && nextIndex[peer] - 1 >= GetFirstLog().index ==>
                entries == Some(H.AppendRequestFor(View(), nextIndex[peer] - 1)) && install == None
    {
      entries, install := None, None;
      if role != Leader {
        return;
      }
      var prevLogIndex := nextIndex[peer] - 1;
      if prevLogIndex < GetFirstLog().index {
        var request := GenInstallSnapshotRequest();
        install := Some(request);
      } else {
        var request := GenAppendEntriesRequest(prevLogIndex);
        entries := Some(request);
      }
    }

    method GenAppendEntriesRequest(prevLogIndex: nat) returns (request: AppendRequest)
      requires Valid() && GetFirstLog().index <= prevLogIndex <= GetLastLog().index
      ensures request == H.AppendRequestFor(View(), prevLogIndex)
    {
      var firstIndex := GetFirstLog().index;
      var entries := logs[prevLogIndex + 1 - firstIndex..];
      request := AppendRequest(currentTerm, me, prevLogIndex, logs[prevLogIndex - firstIndex].term, commitIndex, entries);
    }

    method GenInstallSnapshotRequest() returns (request: InstallRequest)
      requires Valid()
      ensures request == H.InstallRequestFor(View())
    {
      var firstLog := GetFirstLog();
      request := InstallRequest(currentTerm, me, firstLog.index, firstLog.term, persister.snapshot);
    }

    method HandleAppendReply(peer: nat, request: AppendRequest, response: AppendResponse)
      requires Valid() && peer < peers
      requires role == Leader && currentTerm == request.term ==> request.prevLogIndex <= GetLastLog().index
      modifies this, nextIndex, matchIndex, persister
      ensures Valid() && View() == H.HandleAppendReply(old(View()), peer, request, response)
    {
      if role == Leader && currentTerm == request.term {
        if response.success {
          matchIndex[peer] := request.prevLogIndex + |request.entries|;
          nextIndex[peer] := matchIndex[peer] + 1;
          AdvanceCommitIndexForLeader();
        } else if response.term > currentTerm {
          ChangeState(Follower);
          currentTerm, votedFor := response.term, NOBODY;
          Persist();
        } else if response.term == currentTerm {
          BackOff(peer, request, response);
        }
      }
    }

    /** Take the follower's hint, or jump behind the last own entry of the conflicting term. */
    method BackOff(peer: nat, request: AppendRequest, response: AppendResponse)
      requires Valid() && peer < peers && request.prevLogIndex <= GetLastLog().index
      modifies nextIndex
      ensures Valid() && nextIndex[..] == old(nextIndex[..])[peer := H.BackOff(View(), request, response)]
    {
      nextIndex[peer] := response.conflictIndex;
      if response.conflictTerm != -1 {
        var firstIndex := GetFirstLog().index;
        var i: int := request.prevLogIndex;
        while i >= firstIndex
          invariant i <= request.prevLogIndex
          invariant H.TermScan(logs, i, response.conflictTerm) == H.TermScan(logs, request.prevLogIndex, response.conflictTerm)
          invariant nextIndex[..] == old(nextIndex[..])[peer := response.conflictIndex]
        {
          if logs[i - firstIndex].term == response.conflictTerm {
            nextIndex[peer] := i + 1;
            break;
          }
          i := i - 1;
        }
      }
    }

    method HandleInstallReply(peer: nat, request: InstallRequest, response: InstallResponse)
      requires Valid() && peer < peers
      modifies this, nextIndex, matchIndex, persister
      ensures Valid() && View() == H.HandleInstallReply(old(View()), peer, request, response)
    {
      if role == Leader && currentTerm == request.term {
        if response.term > currentTerm {
          ChangeState(Follower);
          currentTerm, votedFor := response.term, NOBODY;
          Persist();
        } else {
          matchIndex[peer] := request.lastIncludedIndex;
          nextIndex[peer] := request.lastIncludedIndex + 1;
        }
      }
    }

    /** Sort a copy of the match indexes and commit the middle one if it is of this term. */
    method AdvanceCommitIndexForLeader()
      requires Valid()
      modifies `commitIndex
      ensures Valid() && View() == H.AdvanceCommit(old(View()))
    {
      var n := matchIndex.Length;
      var srt := new int[n](i requires 0 <= i < n reads matchIndex => matchIndex[i]);
      assert srt[..] == matchIndex[..];
      Sort(srt);
      var newCommitIndex := srt[n - (n / 2 + 1)];
      MiddleIsMajorityMatch(matchIndex[..], srt[..]);
      MajorityMatchUnique(matchIndex[..], newCommitIndex, MajorityMatch(matchIndex[..]));
      if newCommitIndex > commitIndex {
        if MatchLog(currentTerm, newCommitIndex) {
          commitIndex := newCommitIndex;
        }
      }
    }

    method Start(command: Command) returns (index: int, term: int, isLeader: bool)
      requires Valid()
      modifies this, nextIndex, matchIndex, persister
      ensures Valid() && (View(), index, term, isLeader) == H.Start(old(View()), command)
    {
      if role != Leader {
        return NOWHERE, NOWHERE, false;
      }
      var entry := AppendNewEntry(command);
      return entry.index, entry.term, true;
    }

    method AppendNewEntry(command: Command) returns (entry: Entry)
      requires Valid() && role == Leader
      modifies this, nextIndex, matchIndex, persister
      ensures Valid() && (View(), entry.index, entry.term, true) == H.Start(old(View()), command)
    {
      var last := GetLastLog();
      entry := Entry(last.index + 1, currentTerm, command);
      logs := logs + [entry];
      matchIndex[me], nextIndex[me] := entry.index, entry.index + 1;
      Persist();
    }

    // ----- Delivery -----

    /** The applier at its loop head: copy what is committed and not applied yet. */
    method NextBatch() returns (entries: seq<Entry>, commit: nat)
      requires Valid() && GetFirstLog().index <= lastApplied < commitIndex
      ensures commit == commitIndex && |entries| == commit - lastApplied
      ensures forall k :: 0 <= k < |entries| ==> entries[k].index == lastApplied + 1 + k && entries[k] in logs
    {
      var firstIndex := GetFirstLog().index;
      commit := commitIndex;
      entries := logs[lastApplied + 1 - firstIndex..commit + 1 - firstIndex];
    }

    /** The applier after it pushed a batch; a snapshot installed meanwhile is not rolled back. */
    method BatchDone(commit: nat)
      requires Valid()
      modifies `lastApplied
      ensures Valid() && lastApplied == Max(old(lastApplied), commit)
    {
      lastApplied := Max(lastApplied, commit);
    }

    // ----- Compaction -----

    method Snapshot(index: nat, data: string)
      requires Valid() && index <= commitIndex
      modifies `logs, persister
      ensures Valid() && View() == H.Snapshot(old(View()), index, data)
    {
      var snapshotIndex := GetFirstLog().index;
      if index <= snapshotIndex {
        return;
      }
      ghost var cut := H.CutAt(logs, index, logs[index - snapshotIndex].term);
      logs := logs[index - snapshotIndex..];
      logs := logs[0 := logs[0].(command := NoCommand)];
      assert logs == cut;
      persister.SaveStateAndSnapshot(Saved(currentTerm, votedFor, logs), data);
    }

    /** The handler hands the snapshot to the service unless it is outdated. */
    method InstallSnapshot(request: InstallRequest) returns (response: InstallResponse, forService: Option<SnapshotMsg>)
      requires Valid()
      modifies this, nextIndex, matchIndex, persister
      ensures Valid() && (View(), response, forService) == H.InstallSnapshot(old(View()), request)
    {
      response, forService := InstallResponse(currentTerm), None;
      if request.term < currentTerm {
        return;
      }
      if request.term > currentTerm {
        currentTerm, votedFor := request.term, NOBODY;
        Persist();
      }
      ChangeState(Follower);
      if request.lastIncludedIndex <= commitIndex {
        return;
      }
      forService := Some(SnapshotMsg(request.lastIncludedIndex, request.lastIncludedTerm, request.data));
    }

    method CondInstallSnapshot(term: nat, index: nat, data: string) returns (installed: bool)
      requires Valid()
      modifies this, persister
      ensures Valid() && (View(), installed) == H.CondInstallSnapshot(old(View()), term, index, data)
    {
      if index <= commitIndex {
        return false;
      }
      ghost var cut := if index > GetLastLog().index then [Entry(index, term, NoCommand)] else H.CutAt(logs, index, term);
      if index > GetLastLog().index {
        logs := [DUMMY];
      } else {
        logs := logs[index - GetFirstLog().index..];
        logs := logs[0 := logs[0].(command := NoCommand)];
      }
      logs := logs[0 := logs[0].(term := term, index := index)];
      assert logs == cut;
      lastApplied, commitIndex := index, index;
      persister.SaveStateAndSnapshot(Saved(currentTerm, votedFor, logs), data);
      return true;
    }
  }
}
