/**
 Peers follow the configuration of a group that servers join and leave.
 */
module Membership {
  import opened Types
  import opened Log
  import opened Sessions
  import opened Handlers
  import opened NodeFacts
  import opened ServerRuns

  predicate Distinct(ids: seq<Id>) {
    forall i, j :: 0 <= i < j < |ids| ==> ids[i] != ids[j]
  }

  function PeerIds(peers: seq<Peer>): (r: seq<Id>)
    ensures |r| == |peers| && forall i :: 0 <= i < |r| ==> r[i] == peers[i].id
  {
    if peers == [] then [] else [peers[0].id] + PeerIds(peers[1..])
  }

  /** There is one peer for each server of the configuration but this one. */
  ghost predicate PeersAre(ids: seq<Id>, servers: seq<Id>, self: Id) {
    && Distinct(ids)
    && forall id :: id in ids <==> id in servers && id != self
  }

  ghost predicate Tracks(n: Node) {
    Distinct(n.servers) && PeersAre(PeerIds(n.peers), n.servers, n.id)
  }

  //
  // Starting
  //

  lemma {:induction false} InitialPeersAre(servers: seq<Id>, self: Id)
    requires Distinct(servers)
    ensures PeersAre(PeerIds(InitialPeers(servers, self)), servers, self)
  {
    if servers != [] {
      InitialPeersAre(servers[1..], self);
      var rest := PeerIds(InitialPeers(servers[1..], self));
      var all := PeerIds(InitialPeers(servers, self));
      assert all == (if servers[0] == self then [] else [servers[0]]) + rest;
      assert servers == [servers[0]] + servers[1..];
      assert servers[0] !in servers[1..];
    }
  }

  //
  // Going over to another configuration
  //

  lemma {:induction false} MissingIs(from: seq<Id>, others: seq<Id>)
    requires Distinct(from)
    ensures Distinct(Missing(from, others))
    ensures forall id :: id in Missing(from, others) <==> id in from && id !in others
  {
    if from != [] {
      MissingIs(from[1..], others);
      assert from == [from[0]] + from[1..];
      assert from[0] !in from[1..];
    }
  }

  lemma DistinctMore(ids: seq<Id>, id: Id)
    requires Distinct(ids) && id !in ids
    ensures Distinct(ids + [id])
  {}

  /** Adding peers, for servers that have none yet. */
  lemma {:induction false} AddPeersAre(
    peers: seq<Peer>, added: seq<Id>, servers: seq<Id>, self: Id, nextIndex: nat, start: bool)
    requires PeersAre(PeerIds(peers), servers, self) && Distinct(added)
    requires forall id :: id in added ==> id !in servers
    ensures PeersAre(PeerIds(AddPeers(peers, added, self, nextIndex, start)), servers + added, self)
    decreases |added|
  {
    if added == [] {
      assert servers + added == servers;
    } else {
      var peer := Peer(added[0], nextIndex, 0, 1, start);
      var peers1 := if added[0] == self then peers else peers + [peer];
      assert added == [added[0]] + added[1..];
      assert PeerIds(peers + [peer]) == PeerIds(peers) + [added[0]];
      assert added[0] in added;
      DistinctMore(PeerIds(peers), added[0]);
      assert added[0] !in added[1..];
      AddPeersAre(peers1, added[1..], servers + [added[0]], self, nextIndex, start);
      assert (servers + [added[0]]) + added[1..] == servers + added;
    }
  }

  lemma {:induction false} WithoutIs(ids: seq<Id>, id: Id)
    requires Distinct(ids)
    ensures Distinct(Without(ids, id))
    ensures forall x :: x in Without(ids, id) <==> x in ids && x != id
    ensures |Without(ids, id)| == if id in ids then |ids| - 1 else |ids|
  {
    if ids != [] {
      assert ids == [ids[0]] + ids[1..];
      assert ids[0] !in ids[1..];
      if ids[0] != id {
        WithoutIs(ids[1..], id);
      }
    }
  }

  lemma RemovePeerNext(peers: seq<Peer>, id: Id)
    requires peers != [] && peers[0].id != id
    ensures RemovePeer(peers, id) == [peers[0]] + RemovePeer(peers[1..], id)
  {
    var i := PeerIndex(peers[1..], id);
    assert PeerIndex(peers, id) == 1 + i;
    if i + 1 < |peers| {
      WithoutAt(peers, i);
    }
  }

  lemma WithoutAt(peers: seq<Peer>, i: nat)
    requires i + 1 < |peers|
    ensures peers[..i + 1] + peers[i + 2..] == [peers[0]] + (peers[1..][..i] + peers[1..][i + 1..])
  {}

  lemma PeerIdsNext(peers: seq<Peer>, peer: Peer)
    ensures PeerIds([peer] + peers) == [peer.id] + PeerIds(peers)
  {
    assert ([peer] + peers)[1..] == peers;
  }

  lemma {:induction false} RemovePeerIds(peers: seq<Peer>, id: Id)
    ensures PeerIds(RemovePeer(peers, id)) == Without(PeerIds(peers), id)
  {
    if peers != [] {
      assert PeerIds(peers)[1..] == PeerIds(peers[1..]);
      if peers[0].id == id {
        assert RemovePeer(peers, id) == peers[1..];
      } else {
        RemovePeerIds(peers[1..], id);
        RemovePeerNext(peers, id);
        PeerIdsNext(RemovePeer(peers[1..], id), peers[0]);
      }
    }
  }

  /** The ids that are left when all of these are removed. */
  ghost predicate AreWithout(left: seq<Id>, ids: seq<Id>, removed: seq<Id>) {
    && Distinct(left)
    && forall id :: id in left <==> id in ids && id !in removed
  }

  lemma {:induction false} RemovePeersLeave(peers: seq<Peer>, removed: seq<Id>, self: Id, catchingUp: bool)
    requires Distinct(PeerIds(peers)) && self !in PeerIds(peers)
    ensures AreWithout(PeerIds(RemovePeers(peers, removed, self, catchingUp)), PeerIds(peers), removed)
    decreases |removed|
  {
    if removed != [] {
      var peers1 := if removed[0] == self && !catchingUp then peers else RemovePeer(peers, removed[0]);
      RemovePeerIds(peers, removed[0]);
      WithoutIs(PeerIds(peers), removed[0]);
      RemovePeersLeave(peers1, removed[1..], self, catchingUp);
      assert removed == [removed[0]] + removed[1..];
    }
  }

  /** After any change of configuration there is one peer for each other server of the new one. */
  lemma ReconfigureTracks(n: Node, servers: seq<Id>)
    requires Tracks(n) && Distinct(servers)
    ensures Tracks(Reconfigure(n, servers))
  {
    var removed, added := Missing(n.servers, servers), Missing(servers, n.servers);
    MissingIs(n.servers, servers);
    MissingIs(servers, n.servers);
    AddPeersAre(n.peers, added, n.servers, n.id, n.log.End(), n.role == Leader);
    var peers := AddPeers(n.peers, added, n.id, n.log.End(), n.role == Leader);
    RemovePeersLeave(peers, removed, n.id, n.catchingUp);
    var left := PeerIds(RemovePeers(peers, removed, n.id, n.catchingUp));
    forall id ensures id in left <==> id in servers && id != n.id {
      assert id in n.servers + added <==> id in n.servers || id in added;
    }
  }

  lemma {:induction false} AddedStarted(peers: seq<Peer>, added: seq<Id>, self: Id, nextIndex: nat)
    requires AllStarted(peers)
    ensures AllStarted(AddPeers(peers, added, self, nextIndex, true))
    decreases |added|
  {
    if added != [] {
      AddedStarted(if added[0] == self then peers else peers + [Peer(added[0], nextIndex, 0, 1, true)],
                   added[1..], self, nextIndex);
    }
  }

  lemma {:induction false} RemovedStarted(peers: seq<Peer>, removed: seq<Id>, self: Id, catchingUp: bool)
    requires AllStarted(peers)
    ensures AllStarted(RemovePeers(peers, removed, self, catchingUp))
    decreases |removed|
  {
    if removed != [] {
      RemovedStarted(if removed[0] == self && !catchingUp then peers else RemovePeer(peers, removed[0]),
                     removed[1..], self, catchingUp);
    }
  }

  lemma ReconfigureStarts(n: Node, servers: seq<Id>)
    requires LeaderStarts(n)
    ensures LeaderStarts(Reconfigure(n, servers))
  {
    if n.role == Leader {
      var added := Missing(servers, n.servers);
      AddedStarted(n.peers, added, n.id, n.log.End());
      RemovedStarted(AddPeers(n.peers, added, n.id, n.log.End(), true), Missing(n.servers, servers),
                     n.id, n.catchingUp);
    }
  }

  lemma CommitConfigurationTracks(n: Node, servers: seq<Id>)
    requires Tracks(n) && LeaderStarts(n) && Distinct(servers)
    ensures Tracks(CommitConfiguration(n, servers)) && LeaderStarts(CommitConfiguration(n, servers))
  {
    ReconfigureTracks(n, servers);
    ReconfigureStarts(n, servers);
  }

  //
  // Every handler
  //

  /** No configuration among the entries names a server twice. */
  predicate Proper(entries: seq<Entry>) {
    forall k :: 0 <= k < |entries| && entries[k].value.Configuration? ==> Distinct(entries[k].value.servers)
  }

  predicate AllStarted(peers: seq<Peer>) {
    forall k :: 0 <= k < |peers| ==> peers[k].started
  }

  /** A leader has started all its peers. */
  predicate LeaderStarts(n: Node) {
    n.role == Leader ==> AllStarted(n.peers)
  }

  ghost predicate TracksAll(n: Node) {
    Tracks(n) && Proper(n.log.entries) && LeaderStarts(n)
  }

  lemma SamePeers(n: Node, r: Node)
    requires Tracks(n) && LeaderStarts(r) && r.id == n.id && r.servers == n.servers
    requires PeerIds(r.peers) == PeerIds(n.peers)
    requires Proper(r.log.entries)
    ensures TracksAll(r)
  {}

  lemma BecomeFollowerTracks(n: Node)
    requires TracksAll(n)
    ensures TracksAll(BecomeFollower(n))
  {
    SamePeers(n, BecomeFollower(n));
  }

  lemma {:induction false} CommitEntriesTrack(n: Node)
    requires n.Retains() && TracksAll(n)
    ensures TracksAll(CommitEntries(n))
    decreases n.quickCommit - n.commitIndex
  {
    if CommitDue(n) {
      CommitNextTracks(n);
      CommitEntriesTrack(CommitNext(n));
    }
  }

  lemma CommitNextTracks(n: Node)
    requires n.Retains() && TracksAll(n) && CommitDue(n)
    ensures TracksAll(CommitNext(n))
  {
    var entry := n.log.At(n.commitIndex + 1);
    ApplyTracks(n, entry);
    CommitNextLike(Apply(n, entry), CommitNext(n));
  }

  lemma CommitNextLike(m: Node, r: Node)
    requires TracksAll(m) && r == m.(commitIndex := r.commitIndex, machine := r.machine)
    ensures TracksAll(r)
  {}

  lemma ApplyTracks(n: Node, entry: Entry)
    requires TracksAll(n) && (entry.value.Configuration? ==> Distinct(entry.value.servers))
    ensures TracksAll(Apply(n, entry))
  {
    if entry.value.Configuration? {
      CommitConfigurationTracks(n, entry.value.servers);
    } else {
      SamePeers(n, Apply(n, entry));
    }
  }

  lemma CommitTracks(n: Node, index: nat)
    requires n.Retains() && TracksAll(n)
    ensures TracksAll(Commit(n, index))
  {
    var n1 := if index > n.quickCommit then n.(quickCommit := index) else n;
    SamePeers(n, n1);
    CommitEntriesTrack(n1);
    if CommitDue(n1) {
      SamePeers(CommitEntries(n1), LocalCommit(n1));
    }
  }

  lemma CommitAloneTracks(n: Node)
    requires n.Retains() && TracksAll(n)
    ensures TracksAll(CommitAlone(n))
  {
    if n.peers == [] {
      CommitTracks(n, n.log.End() - 1);
    }
  }

  lemma DetectNextTracks(n: Node, servers: seq<Id>)
    requires TracksAll(n) && Distinct(servers)
    ensures TracksAll(Reconfigure(n, servers).(configurationChanging := true))
  {
    ReconfigureTracks(n, servers);
    ReconfigureStarts(n, servers);
  }

  lemma {:induction false} DetectTracks(n: Node, index: nat)
    requires n.log.start <= index && TracksAll(n)
    ensures TracksAll(DetectConfigurations(n, index))
    decreases n.log.End() - index
  {
    if index < n.log.End() {
      var m := Detected(n, n.log.At(index).value);
      DetectedTracks(n, index);
      DetectTracks(m, index + 1);
    }
  }

  /** A new leader's state once it has looked at this value of its log. */
  function Detected(n: Node, value: Value): Node {
    if value.Configuration? then Reconfigure(n, value.servers).(configurationChanging := true) else n
  }

  lemma DetectedTracks(n: Node, index: nat)
    requires n.log.start <= index < n.log.End() && TracksAll(n)
    ensures TracksAll(Detected(n, n.log.At(index).value))
  {
    var value := n.log.At(index).value;
    if value.Configuration? {
      DetectNextTracks(n, value.servers);
    }
  }

  lemma TakeOverTracks(n: Node)
    requires n.Retains() && Tracks(n) && Proper(n.log.entries)
    ensures TracksAll(TakeOver(n))
  {
    var n1 := if n.quickCommit == 0 then AddInitialConfiguration(n) else n;
    var n2 := n1.(peers := StartPeers(n1.peers, n1.log.End()));
    SamePeers(n, n2);
    DetectTracks(n2, n2.quickCommit + 1);
  }

  lemma BecomeLeaderTracks(n: Node)
    requires n.Retains() && TracksAll(n)
    ensures TracksAll(BecomeLeader(n))
  {
    var n1 := CompleteElection(n);
    var n2 := n1.(election := n1.election.(timerStarted := false, transients := []),
                  role := Leader, leaderId := Some(n.id));
    var n3 := ApplyTransientStates(n2, n1.election.transients);
    assert Tracks(n3);
    TakeOverTracks(n3);
    CommitAloneTracks(TakeOver(n3));
  }

  lemma BecomeCandidateTracks(n: Node)
    requires n.Retains() && TracksAll(n)
    ensures TracksAll(BecomeCandidate(n).node)
  {
    if n.role != Candidate {
      var n1 := EnterTerm(n);
      SamePeers(n, n1);
      RequestVoteForSelfTracks(n1);
    }
  }

  lemma RequestVoteForSelfTracks(n: Node)
    requires n.Retains() && TracksAll(n)
    ensures TracksAll(RequestVoteForSelf(n).node)
  {
    var n1 := ClearElection(RestartTimer(n));
    SamePeers(n, n1);
    if n1.peers == [] {
      BecomeLeaderTracks(n1);
    } else {
      SamePeers(n1, RequestVoteForSelf(n).node);
    }
  }

  lemma RequestElectionTracks(n: Node)
    requires n.Retains() && TracksAll(n) && n.role != Leader
    ensures TracksAll(RequestElection(n).node)
  {
    if !n.catchingUp && !n.election.locked {
      var n1 := ClearElection(RestartTimer(n));
      SamePeers(n, n1);
      if n1.peers == [] {
        BecomeCandidateTracks(n1);
      } else {
        SamePeers(n1, RequestElection(n).node);
      }
    }
  }

  lemma UpdateTermTracks(n: Node, term: nat)
    requires TracksAll(n)
    ensures TracksAll(UpdateTerm(n, term)) && TracksAll(BecomeFollower(UpdateTerm(n, term)))
  {
    SamePeers(n, UpdateTerm(n, term));
    BecomeFollowerTracks(UpdateTerm(n, term));
  }

  lemma VoteRequestTracks(n: Node, request: VoteRequest, open: bool)
    requires n.log.start >= 1 && TracksAll(n)
    ensures TracksAll(HandleVoteRequest(n, request, open).0)
  {
    UpdateTermTracks(n, request.term);
    var n1 := Voter(n, request);
    SamePeers(n1, n1.(votedFor := Some(request.serverId)));
  }

  lemma VoteResponseTracks(n: Node, from: Id, response: VoteResponse)
    requires n.Retains() && TracksAll(n)
    ensures TracksAll(HandlePeerVoteResponse(n, from, response).node)
  {
    UpdateTermTracks(n, response.term);
    if CheckTerm(n, response.term).1 {
      VoteCountedTracks(n, response);
    }
  }

  lemma VoteCountedTracks(n: Node, response: VoteResponse)
    requires n.Retains() && TracksAll(n)
    ensures TracksAll(HandleVoteResponse(n, response).node)
  {
    var n1 := Tally(n, response);
    SamePeers(n, n1);
    BecomeCandidateTracks(n1);
    BecomeLeaderTracks(n1);
  }

  lemma AcknowledgeTracks(n: Node, request: AppendRequest)
    requires TracksAll(n)
    ensures TracksAll(Acknowledge(n, request))
  {
    UpdateTermTracks(n, request.term);
    var n1 := if request.term > n.term then BecomeFollower(UpdateTerm(n, request.term)) else n;
    BecomeFollowerTracks(n1);
    DelayTracks(n1);
  }

  lemma DelayTracks(n: Node)
    requires TracksAll(n)
    ensures TracksAll(DelayElection(n))
  {
    SamePeers(n, DelayElection(n));
  }

  lemma MergeAtProper(entries: seq<Entry>, at: nat, batch: seq<Entry>)
    requires Proper(entries) && Proper(batch) && at <= |entries|
    ensures Proper(MergeAt(entries, at, batch))
  {}

  lemma AppendRequestTracks(n: Node, request: AppendRequest)
    requires n.Retains() && TracksAll(n) && AppendRequestAllowed(n, request) && Proper(request.entries)
    ensures TracksAll(HandleAppendRequest(n, request).0)
  {
    if request.serverId in n.servers {
      AcknowledgeTracks(n, request);
      AcknowledgedReplicates(n, request);
      ReplicateTracks(Acknowledge(n, request), request);
    }
  }

  lemma ReplicateTracks(n: Node, request: AppendRequest)
    requires Replicates(n, request) && TracksAll(n) && Proper(request.entries)
    ensures TracksAll(Replicate(n, request).0)
  {
    var transfer := TransferRequired(n.log, request);
    var n1 := if transfer then n.(transferring := true) else n;
    if request.term < n1.term || !Fits(n1.log, request) || n1.transferring {
      ReplicateRejects(n, request, n1, transfer);
      SamePeers(n, n1);
    } else {
      ReplicateAccepts(n, request);
      if request.entries != [] {
        MergeAtProper(n.log.entries, request.lastLogIndex + 1 - n.log.start, request.entries);
      }
      SamePeers(n, TakeEntries(n, request));
      CommitTracks(TakeEntries(n, request), request.commitIndex);
    }
  }

  lemma AppendResponseTracks(n: Node, from: Id, response: AppendResponse)
    requires n.Retains() && TracksAll(n) && (response.accepted ==> response.nextIndex >= 1)
    ensures TracksAll(HandlePeerAppendResponse(n, from, response).0)
  {
    UpdateTermTracks(n, response.term);
    if CheckTerm(n, response.term).1 {
      MatchedTracks(n, response);
    }
  }

  lemma OnePeer(n: Node, i: nat, peer: Peer)
    requires TracksAll(n) && i < |n.peers| && peer.id == n.peers[i].id && peer.started == n.peers[i].started
    ensures TracksAll(n.(peers := n.peers[i := peer]))
  {
    SamePeers(n, n.(peers := n.peers[i := peer]));
  }

  lemma MatchedTracks(n: Node, response: AppendResponse)
    requires n.Retains() && TracksAll(n) && (response.accepted ==> response.nextIndex >= 1)
    ensures TracksAll(HandleAppendResponse(n, response).0)
  {
    var i := PeerIndex(n.peers, response.serverId);
    if n.role == Leader && i < |n.peers| {
      if response.accepted {
        var n1 := n.(peers := n.peers[i := n.peers[i].(rewindStep := 1, nextIndex := response.nextIndex,
                                                       matched := response.nextIndex - 1)]);
        ResponseAccepted(n, response, i, n1);
        OnePeer(n, i, n1.peers[i]);
        CommitTracks(n1, Median(Reached(n1)));
      } else {
        ResponseRejected(n, response, i);
        OnePeer(n, i, Rewind(n.peers[i], response));
      }
    }
  }

  lemma PublishTracks(n: Node, request: PublishRequest)
    requires n.Retains() && TracksAll(n)
    ensures TracksAll(HandlePublish(n, request).0)
  {
    if n.role == Leader {
      ReceivedKeeps(n.(sessions := Ensure(n.sessions, request.clientId)), request.clientId, request.messages);
      SamePeers(n, Received(n, request));
      CommitAloneTracks(Received(n, request));
    }
  }

  lemma ChangeTracks(n: Node, servers: seq<Id>)
    requires n.Retains() && TracksAll(n) && Distinct(servers)
    ensures TracksAll(ChangeServers(n, servers)) && TracksAll(CommitAlone(ChangeServers(n, servers)))
  {
    var n1 := n.(log := n.log.Append(Configure(n, servers)));
    SamePeers(n, n1);
    ReconfigureTracks(n1, servers);
    ReconfigureStarts(n1, servers);
    SamePeers(Reconfigure(n1, servers), ChangeServers(n, servers));
    CommitAloneTracks(ChangeServers(n, servers));
  }

  lemma JoinTracks(n: Node, request: JoinRequest, gap: nat)
    requires n.Retains() && TracksAll(n)
    ensures TracksAll(HandleJoin(n, request, gap).0)
  {
    if request.serverId !in n.servers {
      ChangeTracks(n, n.servers + [request.serverId]);
    }
  }

  lemma LeaveTracks(n: Node, serverId: Id)
    requires n.Retains() && TracksAll(n)
    ensures TracksAll(HandleLeave(n, serverId).0)
  {
    WithoutIs(n.servers, serverId);
    ChangeTracks(n, Without(n.servers, serverId));
  }

  lemma StepDownTracks(n: Node, lock: bool)
    requires TracksAll(n)
    ensures TracksAll(StepDown(n, lock))
  {
    SamePeers(n, StepDown(n, lock));
  }

  lemma ForgetTracks(n: Node, count: nat)
    requires TracksAll(n) && count <= |n.log.entries|
    ensures TracksAll(n.(log := n.log.Forget(count)))
  {
    SamePeers(n, n.(log := n.log.Forget(count)));
  }

  lemma LockTracks(n: Node, locked: bool)
    requires TracksAll(n)
    ensures TracksAll(n.(commitsLocked := locked))
  {
    SamePeers(n, n.(commitsLocked := locked));
  }

  //
  // Every run of a server
  //

  lemma NextTracks(n: Node, e: Event)
    requires TracksAll(n) && n.Retains() && Enabled(n, e)
    requires e.AppendAsked? ==> Proper(e.append.entries)
    ensures TracksAll(Next(n, e))
  {
    match e
    case Timeout => RequestElectionTracks(n);
    case VoteAsked(request, open) => VoteRequestTracks(n, request, open);
    case VoteAnswered(from, response) => VoteResponseTracks(n, from, response);
    case AppendAsked(request) => AppendRequestTracks(n, request);
    case AppendAnswered(from, response) => AppendResponseTracks(n, from, response);
    case Publishing(publish) => PublishTracks(n, publish);
    case Joining(join, gap) => JoinTracks(n, join, gap);
    case Leaving(serverId) => LeaveTracks(n, serverId);
    case SteppingDown(lock) => StepDownTracks(n, lock);
    case Locking(locked) => LockTracks(n, locked);
    case Compacting(count) => ForgetTracks(n, count);
  }

  /** No configuration that the run starts with or is sent names a server twice. */
  ghost predicate ProperRun(ns: seq<Node>, events: seq<Event>) {
    && Run(ns, events)
    && Distinct(ns[0].servers)
    && forall k: nat {:trigger events[k]} :: k < |events| && events[k].AppendAsked? ==>
         Proper(events[k].append.entries)
  }

  /**
   At any time in any run of a server, through elections, joins, leaves, commits of configurations, cuts
   and compactions of its log, its peers are the other servers of its configuration, each once, and a
   leader has all of them started.
   */
  lemma {:induction false} PeersTrackConfiguration(ns: seq<Node>, events: seq<Event>, k: nat)
    requires ProperRun(ns, events) && k < |ns|
    ensures Tracks(ns[k]) && Proper(ns[k].log.entries) && LeaderStarts(ns[k])
  {
    if k == 0 {
      InitialPeersAre(ns[0].servers, ns[0].id);
    } else {
      PeersTrackConfiguration(ns, events, k - 1);
      NeverReadsCompacted(ns, events, k - 1);
      assert NextAt(ns, events, k - 1);
      NextTracks(ns[k - 1], events[k - 1]);
    }
  }
}
