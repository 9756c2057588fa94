/**
 What a handler gives to the state machine, and what it leaves in the log for the next commit.
 */
module HandedOver {
  import opened Types
  import opened Log
  import opened Handlers
  import opened NodeFacts

  /**
   The machine was handed the indices in between, each once and in order; no commit index went back,
   and the log retains what the next commit reads, if it did.
   */
  predicate Progress(n: Node, r: Node) {
    && n.commitIndex <= r.commitIndex && n.quickCommit <= r.quickCommit
    && n.machine <= r.machine
    && |r.machine| - |n.machine| == r.commitIndex - n.commitIndex
    && (n.Retains() ==> r.Retains())
    && forall k :: |n.machine| <= k < |r.machine| ==>
         r.machine[k].index == n.commitIndex + 1 + (k - |n.machine|)
  }

  lemma ProgressTrans(n: Node, m: Node, r: Node)
    requires Progress(n, m) && Progress(m, r)
    ensures Progress(n, r)
  {
    forall k | |n.machine| <= k < |r.machine|
      ensures r.machine[k].index == n.commitIndex + 1 + (k - |n.machine|)
    {
      assert k < |m.machine| ==> r.machine[k] == m.machine[k];
    }
  }

  /** What the machine was handed in between are the entries the log has at these indices. */
  predicate Hands(n: Node, r: Node) {
    && Progress(n, r)
    && forall k :: |n.machine| <= k < |r.machine| ==> IsEntryAt(r.machine[k], r.log)
  }

  predicate IsEntryAt(applied: Applied, log: Log) {
    log.start <= applied.index < log.End() && applied.value == log.At(applied.index).value
  }

  lemma HandsTrans(n: Node, m: Node, r: Node)
    requires Hands(n, m) && Hands(m, r) && r.log == m.log
    ensures Hands(n, r)
  {
    ProgressTrans(n, m, r);
    forall k | |n.machine| <= k < |r.machine| ensures IsEntryAt(r.machine[k], r.log) {
      assert k < |m.machine| ==> r.machine[k] == m.machine[k];
    }
  }

  /** Nothing was handed to the machine, and no commit index moved. */
  predicate Uncommitted(n: Node, r: Node) {
    && r.machine == n.machine && r.commitIndex == n.commitIndex && r.quickCommit == n.quickCommit
    && r.log.start == n.log.start
  }

  lemma UncommittedHands(n: Node, m: Node, r: Node)
    requires Uncommitted(n, m) && (r == m || Hands(m, r))
    ensures Hands(n, r)
  {}

  lemma {:induction false} CommitEntriesHands(n: Node)
    requires n.Retains()
    ensures Hands(n, CommitEntries(n)) && CommitEntries(n).Retains()
    ensures CommitEntries(n).quickCommit == n.quickCommit && CommitEntries(n).log == n.log
    ensures CommitDue(n) ==> CommitEntries(n).commitIndex == Least(n.quickCommit, n.log.End() - 1)
    decreases n.quickCommit - n.commitIndex
  {
    if CommitDue(n) {
      var m := CommitNext(n);
      CommitEntriesHands(m);
      HandsTrans(n, m, CommitEntries(m));
    }
  }

  /** A commit raises the quick index, and hands over all up to it that the log has, unless locked. */
  lemma CommitHands(n: Node, index: nat)
    requires n.Retains()
    ensures var r := Commit(n, index);
      && Hands(n, r) && r.Retains() && r.log == n.log
      && r.quickCommit == Greatest(n.quickCommit, index)
      && r.commitIndex == if n.commitsLocked then n.commitIndex
                          else Greatest(n.commitIndex, Least(r.quickCommit, n.log.End() - 1))
  {
    CommitEntriesHands(if index > n.quickCommit then n.(quickCommit := index) else n);
  }

  //
  // Every handler
  //

  lemma {:induction false} DetectUncommitted(n: Node, index: nat)
    requires n.log.start <= index
    ensures Uncommitted(n, DetectConfigurations(n, index))
    decreases n.log.End() - index
  {
    if index < n.log.End() {
      var value := n.log.At(index).value;
      DetectUncommitted(if value.Configuration?
                        then Reconfigure(n, value.servers).(configurationChanging := true) else n,
                        index + 1);
    }
  }

  lemma BecomeLeaderHands(n: Node)
    requires n.Retains()
    ensures Hands(n, BecomeLeader(n))
  {
    var n1 := CompleteElection(n);
    var n2 := n1.(election := n1.election.(timerStarted := false, transients := []),
                  role := Leader, leaderId := Some(n.id));
    OnLeaderHands(ApplyTransientStates(n2, n1.election.transients));
  }

  lemma OnLeaderHands(n: Node)
    requires n.Retains()
    ensures Hands(n, OnLeader(n))
  {
    TakeOverUncommitted(n);
    var n1 := TakeOver(n);
    CommitAloneHands(n1);
    UncommittedHands(n, n1, CommitAlone(n1));
  }

  lemma TakeOverUncommitted(n: Node)
    requires n.Retains()
    ensures Uncommitted(n, TakeOver(n))
  {
    var n1 := if n.quickCommit == 0 then AddInitialConfiguration(n) else n;
    DetectUncommitted(n1.(peers := StartPeers(n1.peers, n1.log.End())), n1.quickCommit + 1);
  }

  lemma BecomeCandidateHands(n: Node)
    requires n.Retains()
    ensures Hands(n, BecomeCandidate(n).node)
  {
    if n.role != Candidate {
      var n1 := EnterTerm(n);
      RequestVoteForSelfHands(n1);
      UncommittedHands(n, n1, RequestVoteForSelf(n1).node);
    }
  }

  lemma RequestVoteForSelfHands(n: Node)
    requires n.Retains()
    ensures Hands(n, RequestVoteForSelf(n).node)
  {
    var n1 := ClearElection(RestartTimer(n));
    BecomeLeaderHands(n1);
    UncommittedHands(n, n1, BecomeLeader(n1));
  }

  lemma RequestElectionHands(n: Node)
    requires n.Retains() && n.role != Leader
    ensures Hands(n, RequestElection(n).node)
  {
    BecomeCandidateHands(ClearElection(RestartTimer(n)));
  }

  lemma VoteRequestUncommitted(n: Node, request: VoteRequest, open: bool)
    requires n.log.start >= 1
    ensures Uncommitted(n, HandleVoteRequest(n, request, open).0)
  {
    assert Uncommitted(n, Voter(n, request));
  }

  lemma VoteResponseHands(n: Node, from: Id, response: VoteResponse)
    requires n.Retains()
    ensures Hands(n, HandlePeerVoteResponse(n, from, response).node)
  {
    if CheckTerm(n, response.term).1 {
      var n1 := Tally(n, response);
      assert Uncommitted(n, n1);
      BecomeCandidateHands(n1);
      BecomeLeaderHands(n1);
      UncommittedHands(n, n1, BecomeCandidate(n1).node);
      UncommittedHands(n, n1, BecomeLeader(n1));
    }
  }

  lemma AppendRequestHands(n: Node, request: AppendRequest)
    requires n.Retains() && AppendRequestAllowed(n, request)
    ensures Hands(n, HandleAppendRequest(n, request).0)
  {
    if request.serverId in n.servers {
      AcknowledgedReplicates(n, request);
      var n1 := Acknowledge(n, request);
      ReplicateHands(n1, request);
      UncommittedHands(n, n1, HandleAppendRequest(n, request).0);
    }
  }

  lemma ReplicateHands(n: Node, request: AppendRequest)
    requires Replicates(n, request)
    ensures Hands(n, Replicate(n, request).0)
  {
    var n1 := if TransferRequired(n.log, request) then n.(transferring := true) else n;
    if !(request.term < n1.term || !Fits(n1.log, request) || n1.transferring) {
      CommitHands(TakeEntries(n1, request), request.commitIndex);
      UncommittedHands(n, TakeEntries(n1, request), Replicate(n, request).0);
    }
  }

  lemma AppendResponseHands(n: Node, from: Id, response: AppendResponse)
    requires n.Retains() && (response.accepted ==> response.nextIndex >= 1)
    ensures Hands(n, HandlePeerAppendResponse(n, from, response).0)
  {
    if PeerIndex(n.peers, from) < |n.peers| {
      CheckedResponseHands(n, response);
    }
  }

  lemma CheckedResponseHands(n: Node, response: AppendResponse)
    requires n.Retains() && (response.accepted ==> response.nextIndex >= 1)
    ensures var (n1, pass) := CheckTerm(n, response.term);
      Hands(n, if pass then HandleAppendResponse(n1, response).0 else n1)
  {
    if CheckTerm(n, response.term).1 {
      AcceptedResponseHands(n, response);
    }
  }

  lemma AcceptedResponseHands(n: Node, response: AppendResponse)
    requires n.Retains() && (response.accepted ==> response.nextIndex >= 1)
    ensures Hands(n, HandleAppendResponse(n, response).0)
  {
    var i := PeerIndex(n.peers, response.serverId);
    if n.role == Leader && i < |n.peers| && response.accepted {
      var peer := n.peers[i].(rewindStep := 1, nextIndex := response.nextIndex,
                              matched := response.nextIndex - 1);
      var n1 := n.(peers := n.peers[i := peer]);
      ResponseAccepted(n, response, i, n1);
      CommitHands(n1, Median(Reached(n1)));
      UncommittedHands(n, n1, Commit(n1, Median(Reached(n1))));
    }
  }

  lemma PublishHands(n: Node, request: PublishRequest)
    requires n.Retains()
    ensures Hands(n, HandlePublish(n, request).0)
  {
    if n.role == Leader {
      var n1 := Received(n, request);
      ReceivedKeeps(n.(sessions := Sessions.Ensure(n.sessions, request.clientId)),
                    request.clientId, request.messages);
      CommitAloneHands(n1);
      UncommittedHands(n, n1, CommitAlone(n1));
    }
  }

  lemma ChangeHands(n: Node, servers: seq<Id>)
    requires n.Retains()
    ensures Hands(n, CommitAlone(ChangeServers(n, servers)))
  {
    var n1 := ChangeServers(n, servers);
    assert Uncommitted(n, n1);
    CommitAloneHands(n1);
    UncommittedHands(n, n1, CommitAlone(n1));
  }

  lemma CommitAloneHands(n: Node)
    requires n.Retains()
    ensures Hands(n, CommitAlone(n))
  {
    if n.peers == [] {
      CommitHands(n, n.log.End() - 1);
    }
  }

  /** A leader alone in its group commits at once all that its log has, unless commits are locked. */
  lemma AloneCommitsAll(n: Node)
    requires n.Retains() && n.peers == [] && !n.commitsLocked
    ensures var r := CommitAlone(n);
      && r.commitIndex == Greatest(n.commitIndex, n.log.End() - 1) && r.log == n.log
      && r.quickCommit == Greatest(n.quickCommit, n.log.End() - 1)
  {
    CommitHands(n, n.log.End() - 1);
  }

  lemma JoinHands(n: Node, request: JoinRequest, gap: nat)
    requires n.Retains()
    ensures Hands(n, HandleJoin(n, request, gap).0)
  {
    ChangeHands(n, n.servers + [request.serverId]);
  }

  lemma LeaveHands(n: Node, serverId: Id)
    requires n.Retains()
    ensures Hands(n, HandleLeave(n, serverId).0)
  {
    ChangeHands(n, Without(n.servers, serverId));
  }

  //
  // What holds between handlers
  //

  /** What a server has handed to its state machine is every index up to the committed one, in order. */
  predicate InOrder(n: Node) {
    && |n.machine| == n.commitIndex <= n.quickCommit
    && forall k :: 0 <= k < |n.machine| ==> n.machine[k].index == k + 1
  }

  lemma ProgressInOrder(n: Node, r: Node)
    requires InOrder(n) && Progress(n, r) && r.Retains()
    ensures InOrder(r)
  {
    forall k | 0 <= k < |r.machine| ensures r.machine[k].index == k + 1 {
      assert k < |n.machine| ==> r.machine[k] == n.machine[k];
    }
  }

  /** What a server has handed to its state machine are the entries of its log. */
  predicate Matches(n: Node) {
    && n.commitIndex < n.log.End()
    && forall k :: 0 <= k < |n.machine| && n.machine[k].index >= n.log.start ==>
         IsEntryAt(n.machine[k], n.log)
  }

  /** The log has not lost an entry at or below the index that was committed, except to compaction. */
  predicate KeepsCommitted(n: Node, r: Node) {
    && n.log.start <= r.log.start
    && n.commitIndex < r.log.End()
    && forall index :: r.log.start <= index <= n.commitIndex && index < n.log.End() ==>
         r.log.At(index) == n.log.At(index)
  }

  lemma HandsMatches(n: Node, r: Node)
    requires InOrder(n) && Matches(n) && Hands(n, r) && KeepsCommitted(n, r)
    ensures Matches(r)
  {
    if r.commitIndex > n.commitIndex {
      assert IsEntryAt(r.machine[|r.machine| - 1], r.log);
    }
    forall k | 0 <= k < |r.machine| && r.machine[k].index >= r.log.start
      ensures IsEntryAt(r.machine[k], r.log)
    {
      if k < |n.machine| {
        assert r.machine[k] == n.machine[k] && IsEntryAt(n.machine[k], n.log);
      }
    }
  }
}
