/**
 What every handler keeps, or changes in one way only: the vote of a term, what a peer is known to have,
 whether the server catches up, and whom a leader names.
 */
module Continuity {
  import opened Types
  import opened Sessions
  import opened Handlers
  import opened NodeFacts
  import opened HandedOver
  import opened Configurations
  import opened ServerRuns

  //
  // Peers that come and go
  //

  lemma {:induction false} MissingHas(from: seq<Id>, others: seq<Id>, id: Id)
    ensures id in Missing(from, others) <==> id in from && id !in others
  {
    if from != [] {
      MissingHas(from[1..], others, id);
      assert from == [from[0]] + from[1..];
    }
  }

  /** A peer of a server that was added knows nothing of what the server has. */
  predicate IsNew(p: Peer, added: seq<Id>, self: Id, nextIndex: nat, start: bool) {
    p == Peer(p.id, nextIndex, 0, 1, start) && p.id in added && p.id != self
  }

  lemma {:induction false} AddPeersHas(
    peers: seq<Peer>, added: seq<Id>, self: Id, nextIndex: nat, start: bool, p: Peer)
    ensures p in AddPeers(peers, added, self, nextIndex, start)
      <==> p in peers || IsNew(p, added, self, nextIndex, start)
    decreases |added|
  {
    if added != [] {
      var peers1 := if added[0] == self then peers else peers + [Peer(added[0], nextIndex, 0, 1, start)];
      AddPeersHas(peers1, added[1..], self, nextIndex, start, p);
      assert added == [added[0]] + added[1..];
    }
  }

  lemma RemovePeerHas(peers: seq<Peer>, id: Id, p: Peer)
    ensures p in RemovePeer(peers, id) ==> p in peers
    ensures p in peers && p.id != id ==> p in RemovePeer(peers, id)
  {
    var i := PeerIndex(peers, id);
    if i < |peers| {
      assert peers == peers[..i] + [peers[i]] + peers[i + 1..];
    }
  }

  lemma {:induction false} RemovePeersHas(
    peers: seq<Peer>, removed: seq<Id>, self: Id, catchingUp: bool, p: Peer)
    ensures p in RemovePeers(peers, removed, self, catchingUp) ==> p in peers
    ensures p in peers && p.id !in removed ==> p in RemovePeers(peers, removed, self, catchingUp)
    decreases |removed|
  {
    if removed != [] {
      RemovePeerHas(peers, removed[0], p);
      RemovePeersHas(if removed[0] == self && !catchingUp then peers else RemovePeer(peers, removed[0]),
                     removed[1..], self, catchingUp, p);
      assert removed == [removed[0]] + removed[1..];
    }
  }

  /** The peer of a server that the configuration adds: it has matched nothing, and gets what comes next. */
  predicate IsAdded(n: Node, servers: seq<Id>, p: Peer) {
    && p.id in servers && p.id !in n.servers && p.id != n.id
    && p.matched == 0 && p.nextIndex == n.log.End() && p.rewindStep == 1 && p.started == (n.role == Leader)
  }

  /**
   Going over to a configuration keeps the peers of its servers as they are, adds a new one for each
   server that it adds but this one, and makes no others.
   */
  lemma ReconfigurePeers(n: Node, servers: seq<Id>, p: Peer)
    ensures p in n.peers && p.id in servers ==> p in Reconfigure(n, servers).peers
    ensures p in Reconfigure(n, servers).peers ==> p in n.peers || IsAdded(n, servers, p)
    ensures IsAdded(n, servers, p) ==> p in Reconfigure(n, servers).peers
  {
    var removed, added := Missing(n.servers, servers), Missing(servers, n.servers);
    MissingHas(n.servers, servers, p.id);
    MissingHas(servers, n.servers, p.id);
    AddPeersHas(n.peers, added, n.id, n.log.End(), n.role == Leader, p);
    RemovePeersHas(AddPeers(n.peers, added, n.id, n.log.End(), n.role == Leader), removed, n.id, n.catchingUp, p);
  }

  /** Only a server that leaves its group forgets the sessions of its clients. */
  lemma LeavingForgets(n: Node, servers: seq<Id>)
    ensures Reconfigure(n, servers).sessions
      == if n.id in n.servers && n.id !in servers && !n.catchingUp then [] else n.sessions
  {
    MissingHas(n.servers, servers, n.id);
  }

  //
  // From one state to a later one
  //

  /** What a peer is known to have matched was known before. */
  predicate MatchedBefore(peers: seq<Peer>, later: seq<Peer>) {
    forall p :: p in later && p.matched > 0 ==> exists q :: q in peers && q.id == p.id && q.matched == p.matched
  }

  /** A vote given in a term lasts as long as the term, and terms never decrease. */
  predicate VoteLasts(n: Node, r: Node) {
    n.term <= r.term && (n.term == r.term && n.votedFor.Some? ==> r.votedFor == n.votedFor)
  }

  /** A configuration among these names the server. */
  predicate NamedIn(applied: seq<Applied>, id: Id) {
    exists k :: 0 <= k < |applied| && applied[k].value.Configuration? && id in applied[k].value.servers
  }

  /** The server stops catching up when it commits a configuration that names it, and only then. */
  predicate CatchesUp(n: Node, r: Node) {
    && n.machine <= r.machine
    && r.catchingUp == (n.catchingUp && !NamedIn(r.machine[|n.machine|..], n.id))
  }

  predicate NamesItself(n: Node) {
    n.role == Leader ==> n.leaderId == Some(n.id)
  }

  /** What is the same however the server got from the first state to the second, but for responses. */
  predicate Follows(n: Node, r: Node) {
    && r.id == n.id && VoteLasts(n, r) && CatchesUp(n, r) && MatchedBefore(n.peers, r.peers)
    && (NamesItself(n) ==> NamesItself(r))
  }

  lemma NamedInConcat(a: seq<Applied>, b: seq<Applied>, id: Id)
    ensures NamedIn(a + b, id) <==> NamedIn(a, id) || NamedIn(b, id)
  {
    if NamedIn(a, id) {
      var k :| 0 <= k < |a| && a[k].value.Configuration? && id in a[k].value.servers;
      assert (a + b)[k] == a[k];
    }
    if NamedIn(b, id) {
      var k :| 0 <= k < |b| && b[k].value.Configuration? && id in b[k].value.servers;
      assert (a + b)[|a| + k] == b[k];
    }
    if NamedIn(a + b, id) {
      var k :| 0 <= k < |a + b| && (a + b)[k].value.Configuration? && id in (a + b)[k].value.servers;
      assert if k < |a| then (a + b)[k] == a[k] else (a + b)[k] == b[k - |a|];
    }
  }

  lemma CatchesUpTrans(n: Node, m: Node, r: Node)
    requires CatchesUp(n, m) && CatchesUp(m, r) && m.id == n.id
    ensures CatchesUp(n, r)
  {
    var a, b := m.machine[|n.machine|..], r.machine[|m.machine|..];
    assert r.machine[|n.machine|..] == a + b;
    NamedInConcat(a, b, n.id);
  }

  lemma MatchedBeforeTrans(a: seq<Peer>, b: seq<Peer>, c: seq<Peer>)
    requires MatchedBefore(a, b) && MatchedBefore(b, c)
    ensures MatchedBefore(a, c)
  {
    forall p | p in c && p.matched > 0 ensures exists q :: q in a && q.id == p.id && q.matched == p.matched {
      var q :| q in b && q.id == p.id && q.matched == p.matched;
    }
  }

  lemma FollowsTrans(n: Node, m: Node, r: Node)
    requires Follows(n, m) && Follows(m, r)
    ensures Follows(n, r)
  {
    CatchesUpTrans(n, m, r);
    MatchedBeforeTrans(n.peers, m.peers, r.peers);
  }

  /** Nothing that this is about has changed, but perhaps what is matched, or the peers' indices. */
  lemma FollowsAlike(n: Node, r: Node)
    requires r.id == n.id && r.machine == n.machine && r.catchingUp == n.catchingUp
    requires VoteLasts(n, r) && MatchedBefore(n.peers, r.peers)
    requires r.role == Leader ==> r.leaderId == Some(r.id) || (n.role == Leader && r.leaderId == n.leaderId)
    ensures Follows(n, r)
  {
    assert r.machine[|n.machine|..] == [];
  }

  lemma SameMatched(peers: seq<Peer>, later: seq<Peer>)
    requires |later| == |peers|
    requires forall i :: 0 <= i < |peers| ==>
      later[i].id == peers[i].id && (later[i].matched == peers[i].matched || later[i].matched == 0)
    ensures MatchedBefore(peers, later)
  {
    forall p | p in later && p.matched > 0
      ensures exists q :: q in peers && q.id == p.id && q.matched == p.matched
    {
      var i :| 0 <= i < |later| && later[i] == p;
      assert peers[i] in peers;
    }
  }

  lemma ReconfigureMatched(n: Node, servers: seq<Id>)
    ensures MatchedBefore(n.peers, Reconfigure(n, servers).peers)
  {
    forall p | p in Reconfigure(n, servers).peers && p.matched > 0
      ensures exists q :: q in n.peers && q.id == p.id && q.matched == p.matched
    {
      ReconfigurePeers(n, servers, p);
    }
  }

  //
  // Commits
  //

  lemma CommitNextFollows(n: Node)
    requires n.Retains() && CommitDue(n)
    ensures Follows(n, CommitNext(n))
  {
    var e, r := n.log.At(n.commitIndex + 1), CommitNext(n);
    var handed := [Applied(n.commitIndex + 1, e.value)];
    assert r.machine[|n.machine|..] == handed;
    assert handed[0].value == e.value;
    if e.value.Configuration? {
      ReconfigureMatched(n, e.value.servers);
    } else {
      SameMatched(n.peers, r.peers);
    }
  }

  lemma {:induction false} CommitEntriesFollow(n: Node)
    requires n.Retains()
    ensures Follows(n, CommitEntries(n))
    decreases n.quickCommit - n.commitIndex
  {
    if CommitDue(n) {
      CommitNextFollows(n);
      CommitEntriesFollow(CommitNext(n));
      FollowsTrans(n, CommitNext(n), CommitEntries(n));
    } else {
      SameMatched(n.peers, n.peers);
      FollowsAlike(n, n);
    }
  }

  lemma CommitFollows(n: Node, index: nat)
    requires n.Retains()
    ensures Follows(n, Commit(n, index))
  {
    CommitEntriesFollow(if index > n.quickCommit then n.(quickCommit := index) else n);
  }

  lemma CommitAloneFollows(n: Node)
    requires n.Retains()
    ensures Follows(n, CommitAlone(n))
  {
    if n.peers == [] {
      CommitFollows(n, n.log.End() - 1);
    } else {
      SameMatched(n.peers, n.peers);
      FollowsAlike(n, n);
    }
  }

  //
  // Elections
  //

  lemma FollowerFollows(n: Node)
    ensures Follows(n, BecomeFollower(n))
  {
    SameMatched(n.peers, BecomeFollower(n).peers);
    FollowsAlike(n, BecomeFollower(n));
  }

  lemma HigherTermFollows(n: Node, term: nat)
    requires term > n.term
    ensures Follows(n, BecomeFollower(UpdateTerm(n, term)))
  {
    var r := BecomeFollower(UpdateTerm(n, term));
    SameMatched(n.peers, r.peers);
    FollowsAlike(n, r);
  }

  lemma DetectNextFollows(n: Node, value: Value)
    requires value.Configuration?
    ensures Follows(n, Reconfigure(n, value.servers).(configurationChanging := true))
  {
    ReconfigureMatched(n, value.servers);
    FollowsAlike(n, Reconfigure(n, value.servers).(configurationChanging := true));
  }

  lemma {:induction false} DetectFollows(n: Node, index: nat)
    requires n.log.start <= index
    ensures Follows(n, DetectConfigurations(n, index))
    decreases n.log.End() - index
  {
    if index < n.log.End() {
      var value := n.log.At(index).value;
      if value.Configuration? {
        var m := Reconfigure(n, value.servers).(configurationChanging := true);
        DetectNextFollows(n, value);
        DetectFollows(m, index + 1);
        FollowsTrans(n, m, DetectConfigurations(m, index + 1));
      } else {
        DetectFollows(n, index + 1);
      }
    } else {
      SameMatched(n.peers, n.peers);
      FollowsAlike(n, n);
    }
  }

  lemma TakeOverFollows(n: Node)
    requires n.Retains()
    ensures Follows(n, TakeOver(n))
  {
    var n1 := TakeOverIs(n);
    StartsFollow(n, n1);
    DetectsFollow(n, n1, TakeOver(n));
  }

  lemma DetectsFollow(n: Node, n1: Node, r: Node)
    requires Follows(n, n1) && n1.log.start <= n1.quickCommit + 1
    requires r == DetectConfigurations(n1, n1.quickCommit + 1)
    ensures Follows(n, r)
  {
    DetectFollows(n1, n1.quickCommit + 1);
    FollowsTrans(n, n1, r);
  }

  lemma StartsFollow(n: Node, r: Node)
    requires r == n.(log := r.log, configurationChanging := r.configurationChanging,
                     peers := StartPeers(n.peers, r.log.End()))
    ensures Follows(n, r)
  {
    SameMatched(n.peers, r.peers);
    FollowsAlike(n, r);
  }

  lemma BecomeLeaderFollows(n: Node)
    requires n.Retains()
    ensures Follows(n, BecomeLeader(n))
  {
    var n1 := CompleteElection(n);
    var n2 := n1.(election := n1.election.(timerStarted := false, transients := []),
                  role := Leader, leaderId := Some(n.id));
    var n3 := ApplyTransientStates(n2, n1.election.transients);
    SameMatched(n.peers, n3.peers);
    FollowsAlike(n, n3);
    OnLeaderFollows(n3);
    FollowsTrans(n, n3, OnLeader(n3));
  }

  lemma OnLeaderFollows(n: Node)
    requires n.Retains()
    ensures Follows(n, OnLeader(n))
  {
    TakeOverFollows(n);
    CommitAloneFollows(TakeOver(n));
    FollowsTrans(n, TakeOver(n), OnLeader(n));
  }

  lemma StandsFollows(n: Node)
    requires n.Retains() && n.votedFor.None? && n.role == Candidate
    ensures Follows(n, RequestVoteForSelf(n).node)
  {
    var n1 := ClearElection(RestartTimer(n));
    SameMatched(n.peers, n1.peers);
    if n1.peers == [] {
      AloneLeads(n, n1);
      FollowsAlike(n, n1);
      BecomeLeaderFollows(n1);
      FollowsTrans(n, n1, BecomeLeader(n1));
    } else {
      FollowsAlike(n, RequestVoteForSelf(n).node);
    }
  }

  lemma BecomeCandidateFollows(n: Node)
    requires n.Retains()
    ensures Follows(n, BecomeCandidate(n).node)
  {
    SameMatched(n.peers, n.peers);
    if n.role == Candidate {
      FollowsAlike(n, n);
    } else {
      var n1 := EnterTerm(n);
      FollowsAlike(n, n1);
      StandsFollows(n1);
      FollowsTrans(n, n1, RequestVoteForSelf(n1).node);
    }
  }

  lemma RequestElectionFollows(n: Node)
    requires n.Retains() && n.role != Leader
    ensures Follows(n, RequestElection(n).node)
  {
    SameMatched(n.peers, n.peers);
    var n1 := ClearElection(RestartTimer(n));
    FollowsAlike(n, n);
    FollowsAlike(n, n1);
    if n1.peers == [] {
      BecomeCandidateFollows(n1);
      FollowsTrans(n, n1, BecomeCandidate(n1).node);
    } else if !(n.catchingUp || n.election.locked) {
      FollowsAlike(n, RequestElection(n).node);
    }
  }

  lemma VoteRequestFollows(n: Node, request: VoteRequest, open: bool)
    requires n.log.start >= 1
    ensures Follows(n, HandleVoteRequest(n, request, open).0)
  {
    VoteRequestEffect(n, request, open);
    var r := HandleVoteRequest(n, request, open).0;
    VoterEffect(n, request);
    SameMatched(n.peers, Voter(n, request).peers);
    FollowsAlike(n, r);
  }

  lemma TallyFollows(n: Node, response: VoteResponse)
    ensures Follows(n, Tally(n, response))
  {
    SameMatched(n.peers, n.peers);
    FollowsAlike(n, Tally(n, response));
  }

  lemma VoteResponseFollows(n: Node, from: Id, response: VoteResponse)
    requires n.Retains()
    ensures Follows(n, HandlePeerVoteResponse(n, from, response).node)
  {
    CheckTermFollows(n, response.term);
    if PeerIndex(n.peers, from) < |n.peers| && CheckTerm(n, response.term).1 {
      VoteCountedFollows(n, response);
    }
  }

  lemma CheckTermFollows(n: Node, term: nat)
    ensures Follows(n, n) && Follows(n, CheckTerm(n, term).0)
  {
    SameMatched(n.peers, n.peers);
    FollowsAlike(n, n);
    if term > n.term {
      HigherTermFollows(n, term);
    }
  }

  lemma VoteCountedFollows(n: Node, response: VoteResponse)
    requires n.Retains()
    ensures Follows(n, HandleVoteResponse(n, response).node)
  {
    var n1 := Tally(n, response);
    CountedIs(n, response);
    CountedFollows(n, n1, response, HandleVoteResponse(n, response).node);
  }

  lemma CountedIs(n: Node, response: VoteResponse)
    requires n.Retains()
    ensures var r, n1 := HandleVoteResponse(n, response).node, Tally(n, response);
      r == n || r == n1 || r == BecomeCandidate(n1).node || r == BecomeLeader(n1)
  {}

  lemma CountedFollows(n: Node, n1: Node, response: VoteResponse, r: Node)
    requires n1 == Tally(n, response) && n1.Retains()
    requires r == n || r == n1 || r == BecomeCandidate(n1).node || r == BecomeLeader(n1)
    ensures Follows(n, r)
  {
    CheckTermFollows(n, n.term);
    TallyFollows(n, response);
    DecidedFollows(n, n1);
  }

  lemma DecidedFollows(n: Node, n1: Node)
    requires n1.Retains() && Follows(n, n1)
    ensures Follows(n, BecomeCandidate(n1).node) && Follows(n, BecomeLeader(n1))
  {
    BecomeCandidateFollows(n1);
    BecomeLeaderFollows(n1);
    FollowsTrans(n, n1, BecomeCandidate(n1).node);
    FollowsTrans(n, n1, BecomeLeader(n1));
  }

  //
  // Replication
  //

  lemma AcknowledgeFollows(n: Node, request: AppendRequest)
    ensures Follows(n, Acknowledge(n, request))
  {
    var n1 := if request.term > n.term then BecomeFollower(UpdateTerm(n, request.term)) else n;
    CheckTermFollows(n, request.term);
    FollowerFollows(n1);
    DelayFollows(n1);
    FollowsTrans(n, n1, BecomeFollower(n1));
    FollowsTrans(n, n1, DelayElection(n1));
  }

  lemma DelayFollows(n: Node)
    ensures Follows(n, DelayElection(n))
  {
    SameMatched(n.peers, n.peers);
    FollowsAlike(n, DelayElection(n));
  }

  lemma AppendRequestFollows(n: Node, request: AppendRequest)
    requires n.Retains() && AppendRequestAllowed(n, request)
    ensures Follows(n, HandleAppendRequest(n, request).0)
  {
    CheckTermFollows(n, n.term);
    if request.serverId in n.servers {
      AcknowledgedReplicates(n, request);
      AcknowledgeEffect(n, request);
      AcknowledgeFollows(n, request);
      ReplicateFollows(Acknowledge(n, request), request);
      FollowsTrans(n, Acknowledge(n, request), HandleAppendRequest(n, request).0);
    }
  }

  lemma ReplicateFollows(n: Node, request: AppendRequest)
    requires Replicates(n, request) && (n.role == Leader ==> request.term < n.term)
    ensures Follows(n, Replicate(n, request).0)
  {
    var transfer := TransferRequired(n.log, request);
    var n1 := if transfer then n.(transferring := true) else n;
    SameMatched(n.peers, n.peers);
    if request.term < n1.term || !Fits(n1.log, request) || n1.transferring {
      ReplicateRejects(n, request, n1, transfer);
      FollowsAlike(n, n1);
    } else {
      ReplicateAccepts(n, request);
      FollowsAlike(n, TakeEntries(n, request));
      CommitFollows(TakeEntries(n, request), request.commitIndex);
      FollowsTrans(n, TakeEntries(n, request), Commit(TakeEntries(n, request), request.commitIndex));
    }
  }

  lemma PublishFollows(n: Node, request: PublishRequest)
    requires n.Retains()
    ensures Follows(n, HandlePublish(n, request).0)
  {
    CheckTermFollows(n, n.term);
    if n.role == Leader {
      ReceivedKeeps(n.(sessions := Ensure(n.sessions, request.clientId)), request.clientId, request.messages);
      SameMatched(n.peers, n.peers);
      FollowsAlike(n, Received(n, request));
      CommitAloneFollows(Received(n, request));
      FollowsTrans(n, Received(n, request), CommitAlone(Received(n, request)));
    }
  }

  lemma ChangeFollows(n: Node, servers: seq<Id>)
    requires n.Retains()
    ensures Follows(n, CommitAlone(ChangeServers(n, servers)))
  {
    var n1 := ChangeServers(n, servers);
    ReconfigureMatched(n.(log := n.log.Append(Configure(n, servers))), servers);
    FollowsAlike(n, n1);
    CommitAloneFollows(n1);
    FollowsTrans(n, n1, CommitAlone(n1));
  }

  lemma JoinFollows(n: Node, request: JoinRequest, gap: nat)
    requires n.Retains()
    ensures Follows(n, HandleJoin(n, request, gap).0)
  {
    CheckTermFollows(n, n.term);
    ChangeFollows(n, n.servers + [request.serverId]);
  }

  lemma LeaveFollows(n: Node, serverId: Id)
    requires n.Retains()
    ensures Follows(n, HandleLeave(n, serverId).0)
  {
    CheckTermFollows(n, n.term);
    ChangeFollows(n, Without(n.servers, serverId));
  }

  lemma StepDownFollows(n: Node, lock: bool)
    ensures Follows(n, StepDown(n, lock))
  {
    SameMatched(n.peers, StepDown(n, lock).peers);
    FollowsAlike(n, StepDown(n, lock));
  }

  //
  // Responses
  //

  /** A leader of the response's term learns from it what this peer has matched. */
  predicate IsMatch(n: Node, response: AppendResponse, p: Peer) {
    && n.role == Leader && response.term == n.term && response.accepted
    && response.serverId == p.id && response.nextIndex == p.matched + 1
  }

  predicate MatchedNow(n: Node, response: AppendResponse, later: seq<Peer>) {
    forall p :: p in later && p.matched > 0 ==>
      || (exists q :: q in n.peers && q.id == p.id && q.matched == p.matched)
      || IsMatch(n, response, p)
  }

  /** The same as `Follows`, but for what the response says. */
  predicate FollowsResponse(n: Node, response: AppendResponse, r: Node) {
    && r.id == n.id && VoteLasts(n, r) && CatchesUp(n, r) && MatchedNow(n, response, r.peers)
    && (NamesItself(n) ==> NamesItself(r))
  }

  lemma MatchedNowTrans(n: Node, response: AppendResponse, m: seq<Peer>, r: seq<Peer>)
    requires MatchedNow(n, response, m) && MatchedBefore(m, r)
    ensures MatchedNow(n, response, r)
  {
    forall p | p in r && p.matched > 0
      ensures (exists q :: q in n.peers && q.id == p.id && q.matched == p.matched) || IsMatch(n, response, p)
    {
      var q :| q in m && q.id == p.id && q.matched == p.matched;
      assert IsMatch(n, response, q) ==> IsMatch(n, response, p);
    }
  }

  lemma FollowsNoResponse(n: Node, response: AppendResponse, r: Node)
    requires Follows(n, r)
    ensures FollowsResponse(n, response, r)
  {}

  lemma AppendResponseFollows(n: Node, from: Id, response: AppendResponse)
    requires n.Retains() && (response.accepted ==> response.nextIndex >= 1)
    ensures FollowsResponse(n, response, HandlePeerAppendResponse(n, from, response).0)
  {
    CheckTermFollows(n, response.term);
    FollowsNoResponse(n, response, n);
    FollowsNoResponse(n, response, CheckTerm(n, response.term).0);
    if PeerIndex(n.peers, from) < |n.peers| && CheckTerm(n, response.term).1 {
      MatchedFollows(n, response);
    }
  }

  lemma MatchedFollows(n: Node, response: AppendResponse)
    requires n.Retains() && (response.accepted ==> response.nextIndex >= 1) && response.term == n.term
    ensures FollowsResponse(n, response, HandleAppendResponse(n, response).0)
  {
    var i := PeerIndex(n.peers, response.serverId);
    if n.role == Leader && i < |n.peers| {
      if response.accepted {
        AcceptedFollows(n, response, i);
      } else {
        RejectedFollows(n, response, i);
      }
    } else {
      CheckTermFollows(n, n.term);
      FollowsNoResponse(n, response, n);
    }
  }

  lemma RejectedFollows(n: Node, response: AppendResponse, i: nat)
    requires n.Retains() && n.role == Leader && !response.accepted
    requires i == PeerIndex(n.peers, response.serverId) < |n.peers|
    ensures FollowsResponse(n, response, HandleAppendResponse(n, response).0)
  {
    ResponseRejected(n, response, i);
    var r := n.(peers := n.peers[i := Rewind(n.peers[i], response)]);
    SameMatched(n.peers, r.peers);
    FollowsAlike(n, r);
    FollowsNoResponse(n, response, r);
  }

  lemma AcceptedFollows(n: Node, response: AppendResponse, i: nat)
    requires n.Retains() && n.role == Leader && response.term == n.term
    requires response.accepted && response.nextIndex >= 1
    requires i == PeerIndex(n.peers, response.serverId) < |n.peers|
    ensures FollowsResponse(n, response, HandleAppendResponse(n, response).0)
  {
    var peer := n.peers[i].(rewindStep := 1, nextIndex := response.nextIndex,
                            matched := response.nextIndex - 1);
    var n1 := n.(peers := n.peers[i := peer]);
    ResponseAccepted(n, response, i, n1);
    MatchedThen(n, response, i, peer, Median(Reached(n1)));
  }

  lemma MatchedThen(n: Node, response: AppendResponse, i: nat, peer: Peer, index: nat)
    requires n.Retains() && i < |n.peers| && IsMatch(n, response, peer)
    ensures FollowsResponse(n, response, Commit(n.(peers := n.peers[i := peer]), index))
  {
    var n1 := n.(peers := n.peers[i := peer]);
    forall p | p in n1.peers && p.matched > 0
      ensures (exists q :: q in n.peers && q.id == p.id && q.matched == p.matched) || IsMatch(n, response, p)
    {
      assert p == peer || p in n.peers;
    }
    var r := Commit(n1, index);
    CommitFollows(n1, index);
    MatchedNowTrans(n, response, n1.peers, r.peers);
  }

  //
  // Every run of a server
  //

  lemma NextFollows(n: Node, e: Event)
    requires n.Retains() && Enabled(n, e)
    ensures if e.AppendAnswered? then FollowsResponse(n, e.answer, Next(n, e)) else Follows(n, Next(n, e))
  {
    match e
    case Timeout => RequestElectionFollows(n);
    case VoteAsked(request, open) => VoteRequestFollows(n, request, open);
    case VoteAnswered(from, response) => VoteResponseFollows(n, from, response);
    case AppendAsked(request) => AppendRequestFollows(n, request);
    case AppendAnswered(from, response) => AppendResponseFollows(n, from, response);
    case Publishing(publish) => PublishFollows(n, publish);
    case Joining(join, gap) => JoinFollows(n, join, gap);
    case Leaving(serverId) => LeaveFollows(n, serverId);
    case SteppingDown(lock) => StepDownFollows(n, lock);
    case Locking(locked) => SamePeersFollow(n, n.(commitsLocked := locked));
    case Compacting(count) => SamePeersFollow(n, n.(log := n.log.Forget(count)));
  }

  lemma SamePeersFollow(n: Node, r: Node)
    requires r == n.(commitsLocked := r.commitsLocked, log := r.log)
    ensures Follows(n, r)
  {
    SameMatched(n.peers, r.peers);
    FollowsAlike(n, r);
  }

  lemma RunFollows(ns: seq<Node>, events: seq<Event>, k: nat)
    requires Run(ns, events) && k < |events|
    ensures if events[k].AppendAnswered? then FollowsResponse(ns[k], events[k].answer, ns[k + 1])
            else Follows(ns[k], ns[k + 1])
  {
    NeverReadsCompacted(ns, events, k);
    assert NextAt(ns, events, k);
    NextFollows(ns[k], events[k]);
  }

  /** In any run of a server its term never decreases, and a vote lasts as long as its term. */
  lemma {:induction false} TermsAndVotesLast(ns: seq<Node>, events: seq<Event>, a: nat, b: nat)
    requires Run(ns, events) && a <= b < |ns|
    ensures VoteLasts(ns[a], ns[b])
    decreases b - a
  {
    if a < b {
      TermsAndVotesLast(ns, events, a, b - 1);
      RunFollows(ns, events, b - 1);
    }
  }

  lemma {:induction false} InitialPeersMatchNothing(servers: seq<Id>, self: Id)
    ensures forall p :: p in InitialPeers(servers, self) ==> p.matched == 0
  {
    if servers != [] {
      InitialPeersMatchNothing(servers[1..], self);
    }
  }

  /**
   In any run of a server, while others join, leave and come back: what it takes a peer to have is what an
   accepted response of that peer said, in a term that the server led.
   */
  lemma {:induction false} MatchedOrigin(ns: seq<Node>, events: seq<Event>, k: nat, p: Peer)
    returns (s: nat)
    requires Run(ns, events) && k < |ns| && p in ns[k].peers && p.matched > 0
    ensures s < k && events[s].AppendAnswered? && IsMatch(ns[s], events[s].answer, p)
  {
    InitialPeersMatchNothing(ns[0].servers, ns[0].id);
    RunFollows(ns, events, k - 1);
    if events[k - 1].AppendAnswered? && IsMatch(ns[k - 1], events[k - 1].answer, p) {
      s := k - 1;
    } else {
      var q :| q in ns[k - 1].peers && q.id == p.id && q.matched == p.matched;
      s := MatchedOrigin(ns, events, k - 1, q);
    }
  }

  /**
   In any run a server catches up exactly if its first configuration did not name it, and none that it
   has committed since does.
   */
  lemma {:induction false} CatchesUpUntilNamed(ns: seq<Node>, events: seq<Event>, k: nat)
    requires Run(ns, events) && k < |ns|
    ensures ns[k].id == ns[0].id
    ensures ns[k].catchingUp <==> ns[0].id !in ns[0].servers && !NamedIn(ns[k].machine, ns[0].id)
  {
    if k > 0 {
      CatchesUpUntilNamed(ns, events, k - 1);
      RunFollows(ns, events, k - 1);
      var before, after := ns[k - 1].machine, ns[k].machine;
      assert after == before + after[|before|..];
      NamedInConcat(before, after[|before|..], ns[0].id);
    }
  }

  /** In any run a leader names itself as the leader. */
  lemma {:induction false} LeaderNamesItself(ns: seq<Node>, events: seq<Event>, k: nat)
    requires Run(ns, events) && k < |ns|
    ensures NamesItself(ns[k])
  {
    if k > 0 {
      LeaderNamesItself(ns, events, k - 1);
      RunFollows(ns, events, k - 1);
    }
  }
}
