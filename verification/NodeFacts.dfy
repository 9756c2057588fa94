/**
 What the handlers leave alone, in a group whose configuration does not change.
 */
module NodeFacts {
  import opened Types
  import opened Log
  import opened Sessions
  import opened Handlers

  /** Every configuration among the entries is this one. */
  predicate SameServers(servers: seq<Id>, entries: seq<Entry>) {
    forall k :: 0 <= k < |entries| && entries[k].value.Configuration?
      ==> entries[k].value.servers == servers
  }

  predicate Fixed(n: Node) {
    !n.catchingUp && SameServers(n.servers, n.log.entries)
  }

  lemma {:induction false} NothingMissing(from: seq<Id>, others: seq<Id>)
    requires forall id :: id in from ==> id in others
    ensures Missing(from, others) == []
  {
    if from != [] {
      NothingMissing(from[1..], others);
    }
  }

  lemma ReconfigureSame(n: Node)
    ensures Reconfigure(n, n.servers) == n.(configurationChanging := false)
  {
    NothingMissing(n.servers, n.servers);
  }

  /** Only what commits change has changed, and the commit indices did not go back. */
  predicate OnlyCommits(n: Node, r: Node) {
    && r == n.(quickCommit := r.quickCommit, commitIndex := r.commitIndex, machine := r.machine,
               sessions := r.sessions, configurationChanging := r.configurationChanging)
    && n.quickCommit <= r.quickCommit && n.commitIndex <= r.commitIndex
    && r.Retains()
  }

  lemma {:induction false} CommitEntriesFixed(n: Node)
    requires n.Retains() && Fixed(n)
    ensures OnlyCommits(n, CommitEntries(n))
    decreases n.quickCommit - n.commitIndex
  {
    if CommitDue(n) {
      ReconfigureSame(n);
      CommitEntriesFixed(CommitNext(n));
    }
  }

  lemma CommitFixed(n: Node, index: nat)
    requires n.Retains() && Fixed(n)
    ensures OnlyCommits(n, Commit(n, index))
    ensures Commit(n, index).quickCommit == if index > n.quickCommit then index else n.quickCommit
  {
    var n1 := if index > n.quickCommit then n.(quickCommit := index) else n;
    CommitEntriesFixed(n1);
    QuickCommitStays(n1);
  }

  lemma {:induction false} QuickCommitStays(n: Node)
    requires n.Retains()
    ensures CommitEntries(n).quickCommit == n.quickCommit
    decreases n.quickCommit - n.commitIndex
  {
    if CommitDue(n) {
      QuickCommitStays(CommitNext(n));
    }
  }

  lemma {:induction false} DetectFixed(n: Node, index: nat)
    requires Fixed(n) && n.log.start <= index
    ensures var r := DetectConfigurations(n, index);
      r == n.(configurationChanging := r.configurationChanging)
    decreases n.log.End() - index
  {
    if index < n.log.End() {
      var value := n.log.At(index).value;
      if value.Configuration? {
        ReconfigureSame(n);
        DetectFixed(n.(configurationChanging := true), index + 1);
      } else {
        DetectFixed(n, index + 1);
      }
    }
  }

  /** The state of a server that has just become leader. */
  predicate LeaderFrom(n: Node, r: Node) {
    && r == n.(role := Leader, leaderId := Some(n.id),
               election := n.election.(preVote := false, completed := true, timerStarted := false,
                                       transients := []),
               log := r.log, peers := StartPeers(n.peers, r.log.End()),
               quickCommit := r.quickCommit, commitIndex := r.commitIndex, machine := r.machine,
               sessions := r.sessions, configurationChanging := r.configurationChanging)
    && (r.log == n.log || r.log == n.log.Append(InitialConfiguration(n)))
    && n.quickCommit <= r.quickCommit && n.commitIndex <= r.commitIndex
    && r.Retains()
  }

  /** What a new leader's state is before it detects the configurations of its log. */
  lemma TakeOverIs(n: Node) returns (n1: Node)
    requires n.Retains()
    ensures n1 == n.(log := n1.log, configurationChanging := n1.configurationChanging,
                     peers := StartPeers(n.peers, n1.log.End()))
    ensures n1.log.start <= n1.quickCommit + 1 && TakeOver(n) == DetectConfigurations(n1, n1.quickCommit + 1)
  {
    n1 := if n.quickCommit == 0 then AddInitialConfiguration(n) else n;
    n1 := n1.(peers := StartPeers(n1.peers, n1.log.End()));
  }

  lemma TakeOverFixed(n: Node)
    requires n.Retains() && Fixed(n)
    ensures var r := TakeOver(n);
      && r == n.(log := r.log, peers := StartPeers(n.peers, r.log.End()),
                 configurationChanging := r.configurationChanging)
      && r.log == (if n.quickCommit == 0 then n.log.Append(InitialConfiguration(n)) else n.log)
      && Fixed(r)
  {
    var n1 := if n.quickCommit == 0 then AddInitialConfiguration(n) else n;
    assert Fixed(n1);
    DetectFixed(n1.(peers := StartPeers(n1.peers, n1.log.End())), n1.quickCommit + 1);
  }

  lemma OnLeaderFixed(n: Node)
    requires n.Retains() && Fixed(n)
    ensures OnlyCommits(TakeOver(n), OnLeader(n))
  {
    TakeOverFixed(n);
    CommitAloneFixed(TakeOver(n));
  }

  lemma CommitAloneFixed(n: Node)
    requires n.Retains() && Fixed(n)
    ensures OnlyCommits(n, CommitAlone(n))
  {
    if n.peers == [] {
      CommitFixed(n, n.log.End() - 1);
    }
  }

  lemma BecomeLeaderFixed(n: Node)
    requires n.Retains() && Fixed(n)
    ensures LeaderFrom(n, BecomeLeader(n))
    ensures Fixed(BecomeLeader(n))
  {
    var e := n.election.(preVote := false, completed := true, timerStarted := false, transients := []);
    var n1 := CompleteElection(n);
    var n2 := n1.(election := e, role := Leader, leaderId := Some(n.id));
    var n3 := ApplyTransientStates(n2, n1.election.transients);
    assert n3 == n.(election := e, role := Leader, leaderId := Some(n.id), sessions := n3.sessions);
    TakeOverFixed(n3);
    OnLeaderFixed(n3);
  }

  /** Unless it is alone, a new leader commits nothing by that. */
  lemma BecomeLeaderAmongOthers(n: Node)
    requires n.Retains() && Fixed(n) && n.peers != []
    ensures var r := BecomeLeader(n);
      && r.log == (if n.quickCommit == 0 then n.log.Append(InitialConfiguration(n)) else n.log)
      && r.quickCommit == n.quickCommit && r.commitIndex == n.commitIndex && r.machine == n.machine
  {
    var n1 := CompleteElection(n);
    var n2 := n1.(election := n1.election.(timerStarted := false, transients := []),
                  role := Leader, leaderId := Some(n.id));
    var n3 := ApplyTransientStates(n2, n1.election.transients);
    assert Fixed(n3) && n3 == n2.(sessions := n3.sessions);
    TakeOverFixed(n3);
  }

  /** The state of a server that has just asked its peers for their votes. */
  predicate CandidateFrom(n: Node, r: Node) {
    r == n.(term := n.term + 1, votedFor := Some(n.id), role := Candidate,
            election := Election([n.id], 1, false, false, true, n.election.locked, []))
  }

  lemma BecomeCandidateFixed(n: Node)
    requires n.Retains() && Fixed(n)
    ensures n.role == Candidate ==> BecomeCandidate(n) == Effect(n, None)
    ensures n.role != Candidate && n.peers != [] ==>
      && CandidateFrom(n, BecomeCandidate(n).node)
      && BecomeCandidate(n).broadcast
         == Some(VoteRequest(n.id, n.term + 1, n.log.LastTerm(), n.log.End() - 1, false))
  {
    assert [] + [n.id] == [n.id];
  }

  /** A server alone in its group is leader as soon as it is candidate. */
  lemma BecomeCandidateAlone(n: Node)
    requires n.Retains() && Fixed(n) && n.role != Candidate && n.peers == []
    ensures var r := BecomeCandidate(n);
      && r.broadcast.None?
      && LeaderFrom(n.(term := n.term + 1, votedFor := None, role := Candidate,
                       election := Election([], 0, false, false, true, n.election.locked, [])),
                    r.node)
      && Fixed(r.node)
  {
    var n2 := n.(term := n.term + 1, votedFor := None, role := Candidate,
                 election := Election([], 0, false, false, true, n.election.locked, []));
    var n1 := EnterTerm(n);
    assert Fixed(n2) && n2.Retains() && n2 == ClearElection(RestartTimer(n1));
    AloneLeads(n1, n2);
    BecomeLeaderFixed(n2);
  }

  lemma AloneLeads(n: Node, n1: Node)
    requires n.Retains() && n1 == ClearElection(RestartTimer(n)) && n1.peers == []
    ensures RequestVoteForSelf(n) == Effect(BecomeLeader(n1), None)
  {}

  /** With nothing persisted a restart is a start. */
  lemma FirstStart(id: Id, servers: seq<Id>)
    ensures Restarted(id, servers, Persistent(0, None, 0), Log(1, [])) == Started(id, servers)
  {}

  lemma StepDownFixed(n: Node, lock: bool)
    ensures var r := StepDown(n, lock);
      && r == n.(role := Follower, peers := StopPeers(n.peers), election := r.election)
      && !r.election.completed && !r.election.preVote && r.election.voted == []
      && r.election.granted == 0
  {}

  /** What a vote request does to its receiver. */
  predicate Polled(n: Node, request: VoteRequest, n': Node, response: VoteResponse)
    requires n'.log.start >= 1
  {
    && n' == n.(term := n'.term, votedFor := n'.votedFor, role := n'.role, peers := n'.peers,
                election := n'.election)
    && response.serverId == n.id && response.term == n'.term
    && |n'.peers| == |n.peers|
    && (forall k :: 0 <= k < |n.peers| ==> n'.peers[k].id == n.peers[k].id)
    && (if n'.term == n.term
        then n'.role == n.role && n'.election == n.election && n'.peers == n.peers
        else n'.term > n.term && n'.role == Follower)
    && (if response.accepted && !request.preVote then
          && request.term == n'.term
          && (n'.term == n.term ==> n.votedFor.None? || n.votedFor == Some(request.serverId))
          && n'.votedFor == Some(request.serverId)
          && NewerOrEqual(request.lastLogTerm, request.lastLogIndex, n'.log)
        else
          n'.votedFor == if n'.term == n.term then n.votedFor else None)
    && (response.accepted && request.preVote ==> n' == n && request.term == n.term)
  }

  lemma VoteRequestEffect(n: Node, request: VoteRequest, open: bool)
    requires n.log.start >= 1
    ensures var (n', response) := HandleVoteRequest(n, request, open);
      Polled(n, request, n', response)
  {
    VoterEffect(n, request);
  }

  lemma VoterEffect(n: Node, request: VoteRequest)
    ensures var r := Voter(n, request);
      && |r.peers| == |n.peers| && (forall k :: 0 <= k < |n.peers| ==> r.peers[k].id == n.peers[k].id)
      && if !request.preVote && request.term > n.term
         then r.term == request.term && r.role == Follower && r.votedFor.None?
         else r == n
  {}

  /** What counting a response does to an election that is not over. */
  predicate Tallied(n: Node, response: VoteResponse, r: Node) {
    && r == n.(election := r.election)
    && r.election.voted == n.election.voted + [response.serverId]
    && r.election.granted == n.election.granted + (if response.accepted then 1 else 0)
    && r.election.timerStarted == n.election.timerStarted
    && (if r.election.completed then !r.election.preVote else r.election.preVote == n.election.preVote)
  }

  lemma TallyEffect(n: Node, response: VoteResponse)
    requires !n.election.completed
    ensures Tallied(n, response, Tally(n, response))
  {}

  lemma CheckTermEffect(n: Node, term: nat)
    requires term > n.term
    ensures var n' := CheckTerm(n, term).0;
      && n' == n.(term := term, votedFor := None, role := Follower, peers := n'.peers, election := n'.election)
      && |n'.peers| == |n.peers|
      && forall k :: 0 <= k < |n.peers| ==> n'.peers[k].id == n.peers[k].id
  {}

  /** What a rejected append request does to its receiver. */
  predicate Rejected(n: Node, request: AppendRequest, n': Node, response: AppendResponse) {
    && !response.accepted && response.serverId == n.id && response.term == n'.term
    && response.nextIndex == n.log.End() && !response.transferRequired
    && n' == n.(term := n'.term, votedFor := n'.votedFor, role := n'.role, peers := n'.peers,
                election := n'.election)
    && |n'.peers| == |n.peers|
    && (forall k :: 0 <= k < |n.peers| ==> n'.peers[k].id == n.peers[k].id)
    && (if n'.term == n.term then n'.votedFor == n.votedFor else n'.term > n.term && n'.votedFor.None?)
    && (n' == n || n'.role == Follower)
  }

  /** What an accepted append request does to its receiver. */
  predicate Accepted(n: Node, request: AppendRequest, n': Node, response: AppendResponse)
    requires n.log.start >= 1
  {
    && response.accepted && response.serverId == n.id && response.term == n'.term == request.term
    && response.nextIndex == request.lastLogIndex + |request.entries| + 1
    && !response.transferRequired
    && Fits(n.log, request) && request.lastLogIndex <= |n.log.entries|
    && n'.id == n.id && n'.servers == n.servers && n'.catchingUp == n.catchingUp
    && n'.transferring == n.transferring && n'.Retains()
    && n'.role == Follower
    && n'.log == n.log.(entries := MergeAt(n.log.entries, request.lastLogIndex, request.entries))
    && |n'.peers| == |n.peers|
    && (forall k :: 0 <= k < |n.peers| ==> n'.peers[k].id == n.peers[k].id)
    && (if n'.term == n.term then n'.votedFor == n.votedFor else n'.term > n.term && n'.votedFor.None?)
    && SameServers(n.servers, n'.log.entries)
  }

  lemma MergeKeepsServers(servers: seq<Id>, entries: seq<Entry>, at: nat, batch: seq<Entry>)
    requires SameServers(servers, entries) && SameServers(servers, batch) && at <= |entries|
    ensures SameServers(servers, MergeAt(entries, at, batch))
  {}

  lemma AcknowledgeEffect(n: Node, request: AppendRequest)
    requires !(n.role == Leader && request.term == n.term)
    ensures var r := Acknowledge(n, request);
      && |r.peers| == |n.peers|
      && (forall k :: 0 <= k < |n.peers| ==> r.peers[k].id == n.peers[k].id)
      && (if request.term < n.term then r == n else r.term == request.term && r.role == Follower)
      && (if r.term == n.term then r.votedFor == n.votedFor else r.term > n.term && r.votedFor.None?)
  {
    var n1 := if request.term > n.term then BecomeFollower(UpdateTerm(n, request.term)) else n;
    assert |n1.peers| == |n.peers|;
    assert n1.role == n.role || n1.role == Follower;
  }

  lemma TakeEntriesEffect(n: Node, request: AppendRequest)
    requires n.Retains() && n.log.start == 1 && Fixed(n) && Fits(n.log, request)
    requires SameServers(n.servers, request.entries)
    ensures var r := Commit(TakeEntries(n, request), request.commitIndex);
      && request.lastLogIndex <= |n.log.entries|
      && r.log == n.log.(entries := MergeAt(n.log.entries, request.lastLogIndex, request.entries))
      && OnlyCommits(TakeEntries(n, request), r)
      && SameServers(n.servers, r.log.entries)
  {
    MergeKeepsServers(n.servers, n.log.entries, request.lastLogIndex, request.entries);
    CommitFixed(TakeEntries(n, request), request.commitIndex);
  }

  lemma AppendEffect(n: Node, request: AppendRequest)
    requires n.Retains() && n.log.start == 1 && Fixed(n) && !n.transferring
    requires AppendRequestAllowed(n, request) && request.serverId in n.servers
    requires request.transfer.None? && SameServers(n.servers, request.entries)
    ensures var (n', response) := HandleAppendRequest(n, request);
      if response.accepted then Accepted(n, request, n', response)
      else Rejected(n, request, n', response)
  {
    AcknowledgeEffect(n, request);
    var n1 := Acknowledge(n, request);
    if request.term >= n.term && Fits(n.log, request) {
      TakeEntriesEffect(n1, request);
      var n2 := Commit(TakeEntries(n1, request), request.commitIndex);
      assert HandleAppendRequest(n, request).0 == n2;
    }
  }

  /** What a leader does with client messages. */
  predicate Published(n: Node, n': Node) {
    && n'.id == n.id && n'.servers == n.servers && n'.catchingUp == n.catchingUp
    && n'.transferring == n.transferring && n'.Retains()
    && n'.term == n.term && n'.votedFor == n.votedFor && n'.role == n.role
    && n'.peers == n.peers && n'.election == n.election
    && n'.log.start == n.log.start && n.log.entries <= n'.log.entries
    && (forall k :: |n.log.entries| <= k < |n'.log.entries| ==> n'.log.entries[k].term == n.term)
    && SameServers(n.servers, n'.log.entries)
  }

  lemma PublishEffect(n: Node, request: PublishRequest)
    requires n.Retains() && Fixed(n) && n.role == Leader
    ensures Published(n, HandlePublish(n, request).0)
  {
    var n1 := Received(n, request);
    ReceivedPublished(n, request);
    AlonePublished(n, n1);
    PublishIs(n, request, n1);
  }

  lemma PublishIs(n: Node, request: PublishRequest, n1: Node)
    requires n.Retains() && n.role == Leader && n1 == Received(n, request)
    ensures HandlePublish(n, request).0
      == if |n1.log.entries| > |n.log.entries| then CommitAlone(n1) else n1
  {}

  lemma ReceivedPublished(n: Node, request: PublishRequest)
    requires n.Retains() && Fixed(n)
    ensures Published(n, Received(n, request))
  {
    var n0 := n.(sessions := Ensure(n.sessions, request.clientId));
    ReceivedKeeps(n0, request.clientId, request.messages);
  }

  lemma AlonePublished(n: Node, n1: Node)
    requires Fixed(n) && Published(n, n1)
    ensures Published(n, CommitAlone(n1))
  {
    assert Fixed(n1);
    CommitFixed(n1, n1.log.End() - 1);
  }

  //
  // How handlers are composed
  //

  /** A request that is turned away. */
  lemma ReplicateRejects(n: Node, request: AppendRequest, n1: Node, transfer: bool)
    requires Replicates(n, request) && transfer == TransferRequired(n.log, request)
    requires n1 == if transfer then n.(transferring := true) else n
    requires request.term < n1.term || !Fits(n1.log, request) || n1.transferring
    ensures Replicate(n, request) == (n1, AppendResponse(n.id, false, n1.term, n1.log.End(), transfer))
  {}

  lemma ReplicateAccepts(n: Node, request: AppendRequest)
    requires Replicates(n, request) && !TransferRequired(n.log, request)
    requires !(request.term < n.term || !Fits(n.log, request) || n.transferring)
    ensures TakesEntries(n, request)
    ensures Replicate(n, request)
      == (Commit(TakeEntries(n, request), request.commitIndex),
          AppendResponse(n.id, true, n.term, request.lastLogIndex + |request.entries| + 1, false))
  {
    CommitKeepsTerm(TakeEntries(n, request), request.commitIndex);
  }

  lemma AcknowledgedReplicates(n: Node, request: AppendRequest)
    requires n.Retains() && AppendRequestAllowed(n, request) && request.serverId in n.servers
    ensures Replicates(Acknowledge(n, request), request)
    ensures HandleAppendRequest(n, request) == Replicate(Acknowledge(n, request), request)
  {}

  /** The server may handle this request of a known server, and accepts it. */
  predicate Accepting(n: Node, request: AppendRequest) {
    && n.Retains() && AppendRequestAllowed(n, request) && request.serverId in n.servers
    && HandleAppendRequest(n, request).1.accepted
  }

  lemma CommitKeepsTerm(n: Node, index: nat)
    requires n.Retains()
    ensures Commit(n, index).term == n.term && Commit(n, index).role == n.role
  {
    CommitEntriesKeepTerm(if index > n.quickCommit then n.(quickCommit := index) else n);
  }

  lemma {:induction false} CommitEntriesKeepTerm(n: Node)
    requires n.Retains()
    ensures CommitEntries(n).term == n.term && CommitEntries(n).role == n.role
    decreases n.quickCommit - n.commitIndex
  {
    if CommitDue(n) {
      CommitEntriesKeepTerm(CommitNext(n));
    }
  }

  predicate TakesEntries(n: Node, request: AppendRequest) {
    n.Retains() && (request.entries != [] ==> n.log.start <= request.lastLogIndex + 1 <= n.log.End())
  }

  lemma ResponseAccepted(n: Node, response: AppendResponse, i: nat, n1: Node)
    requires n.Retains() && n.role == Leader && i == PeerIndex(n.peers, response.serverId) < |n.peers|
    requires response.accepted && response.nextIndex >= 1
    requires n1 == n.(peers := n.peers[i := n.peers[i].(rewindStep := 1, nextIndex := response.nextIndex,
                                                        matched := response.nextIndex - 1)])
    ensures HandleAppendResponse(n, response)
      == (Commit(n1, Median(Reached(n1))), response.nextIndex < n.log.End())
  {}

  lemma ResponseRejected(n: Node, response: AppendResponse, i: nat)
    requires n.Retains() && n.role == Leader && i == PeerIndex(n.peers, response.serverId) < |n.peers|
    requires !response.accepted
    ensures HandleAppendResponse(n, response)
      == (n.(peers := n.peers[i := Rewind(n.peers[i], response)]), !response.transferRequired)
  {}
}
