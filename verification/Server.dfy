/**
 One server: the state that its protocols share, and their handlers as they update it in place.

 Each handler is proved against its effect in module `Handlers`. Those that commit may also drop
 committed entries from the front of the log (`Compacts`).
 */
module Server {
  import opened Types
  import opened Log
  import opened Sessions
  import opened Handlers
  import opened NodeFacts
  import opened LogStore
  import opened Merges
  import opened ClientSessions

  /** One state is the other but for compacted log entries. */
  predicate Compacts(n: Node, r: Node) {
    && r == n.(log := r.log)
    && Compacted(n.log, r.log, n.commitIndex)
  }

  lemma CompactsSelf(n: Node)
    ensures Compacts(n, n)
  {}

  //
  // How each handler is composed
  //

  lemma WithoutNext(servers: seq<Id>, id: Id, i: nat)
    requires i < |servers| && servers[i] != id
    ensures servers[..i] + Without(servers[i..], id) == servers[..i + 1] + Without(servers[i + 1..], id)
  {
    assert servers[i..][1..] == servers[i + 1..];
    assert servers[..i + 1] == servers[..i] + [servers[i]];
  }

  lemma MergeIsOverwritten(log: Log, first: nat, batch: seq<Entry>, keep: nat)
    requires log.start <= first <= log.End()
    requires keep == Agreement(log.entries[first - log.start..], batch)
    ensures log.Merge(first, batch) == Overwritten(log, first, batch, keep, |batch|)
  {
    MergeIsSpliced(log, first, batch, keep);
    OverwrittenWhole(log, first, batch, keep);
  }

  lemma MergeIsSpliced(log: Log, first: nat, batch: seq<Entry>, keep: nat)
    requires log.start <= first <= log.End()
    requires keep == Agreement(log.entries[first - log.start..], batch)
    ensures log.Merge(first, batch)
      == log.(entries := Spliced(log.entries, first - log.start, batch, keep))
  {}

  lemma OverwrittenWhole(log: Log, first: nat, batch: seq<Entry>, keep: nat)
    requires log.start <= first && first + keep <= log.End() && keep <= |batch|
    ensures Overwritten(log, first, batch, keep, |batch|)
      == log.(entries := Spliced(log.entries, first - log.start, batch, keep))
  {
    assert batch[..|batch|] == batch;
  }

  /** The first position from `i` on at which the sequences do not agree, or one of them ends. */
  function FirstApart(a: seq<Entry>, b: seq<Entry>, i: nat): nat
    decreases |a| - i
  {
    if i < |a| && i < |b| && a[i].term == b[i].term then FirstApart(a, b, i + 1) else i
  }

  lemma {:induction false} FirstApartIs(a: seq<Entry>, b: seq<Entry>, i: nat)
    requires i <= |a| && i <= |b|
    ensures FirstApart(a, b, i) == i + Agreement(a[i..], b[i..])
    decreases |a| - i
  {
    if i < |a| && i < |b| && a[i].term == b[i].term {
      FirstApartIs(a, b, i + 1);
      assert a[i..][1..] == a[i + 1..] && b[i..][1..] == b[i + 1..];
    }
  }

  lemma {:induction false} IndexStays(sessions: seq<Session>, clientId: Id, session: Session)
    requires IndexOf(sessions, clientId) < |sessions| && session.clientId == clientId
    ensures IndexOf(sessions[IndexOf(sessions, clientId) := session], clientId) == IndexOf(sessions, clientId)
  {
    if IndexOf(sessions, clientId) > 0 {
      IndexStays(sessions[1..], clientId, session);
      var i := IndexOf(sessions, clientId);
      assert sessions[i := session][1..] == sessions[1..][i - 1 := session];
    }
  }

  lemma ReceiveNext(sessions: seq<Session>, log: Log, i: nat)
    requires log.start <= i < log.End()
    ensures ReceiveEntries(sessions, log.Slice(i, log.End()))
         == ReceiveEntries(ReceiveEntry(sessions, log.At(i)), log.Slice(i + 1, log.End()))
  {
    assert log.Slice(i, log.End())[1..] == log.Slice(i + 1, log.End());
  }

  lemma MissingNext(before: seq<Id>, from: seq<Id>, others: seq<Id>, i: nat)
    requires i < |from|
    ensures before + Missing(from[i..], others)
      == (if from[i] in others then before else before + [from[i]]) + Missing(from[i + 1..], others)
  {
    assert from[i..][1..] == from[i + 1..];
  }

  /** The log once the entries of the batch from position `keep` up to `i` have been put into it. */
  function Overwritten(log: Log, first: nat, batch: seq<Entry>, keep: nat, i: nat): Log
    requires log.start <= first && first + keep <= log.End() && keep <= i <= |batch|
  {
    log.(entries := Spliced(log.entries, first - log.start, batch[..i], keep))
  }

  lemma OverwrittenNext(log: Log, first: nat, batch: seq<Entry>, keep: nat, i: nat)
    requires log.start <= first && first + keep <= log.End() && keep <= i < |batch|
    ensures var r := Overwritten(log, first, batch, keep, i);
      && first + i <= r.End()
      && r.CutAt(first + i).Append(batch[i]) == Overwritten(log, first, batch, keep, i + 1)
      && (r.End() == first + i ==> r.CutAt(first + i) == r)
      && Overwritten(log, first, batch, keep, i + 1).End() == first + i + 1
  {
    assert batch[..i + 1][keep..] == batch[..i][keep..] + [batch[i]];
  }

  class Server {
    const id: Id
    const store: MemoryLogStore
    const manager: ClientSessionManager

    // The persistent state
    var term: nat
    var votedFor: Option<Id>
    var commitIndex: nat

    // The shared volatile state
    var configuration: seq<Id>
    var role: Role
    var leaderId: Option<Id>
    var peers: seq<Peer>
    var quickCommitIndex: nat
    var configurationChanging: bool
    var catchingUp: bool

    // The state of the election protocol
    var election: Election
    const minElectionTimeout: nat
    var nextVotingTime: nat

    // The state of the replication protocol
    var commitsLocked: bool
    var stateTransferInProgress: bool

    // What was handed to the state machine
    var machine: seq<Applied>

    function View(): Node
      reads this, store, manager
    {
      Node(id, configuration, term, votedFor, commitIndex, role, leaderId, peers, quickCommitIndex,
           configurationChanging, catchingUp, election, commitsLocked, stateTransferInProgress,
            manager.sessions, store.Contents(), machine)
    }

    /** The log store is cleared if it does not reach the committed index. */
    constructor (id: Id, servers: seq<Id>, p: Persistent, store: MemoryLogStore,
                 minElectionTimeout: nat, now: nat)
      modifies store
      ensures fresh(manager) && this.store == store && manager.sessions == []
      ensures View() == Restarted(id, servers, p, old(store.Contents()))
      ensures nextVotingTime == now && this.minElectionTimeout == minElectionTimeout
    {
      this.id := id;
      this.store := store;
      manager := new ClientSessionManager();
      term, votedFor, commitIndex := p.term, p.votedFor, p.commitIndex;
      this.minElectionTimeout, nextVotingTime := minElectionTimeout, now;
      configuration, role, leaderId, quickCommitIndex := servers, Follower, None, p.commitIndex;
      configurationChanging, catchingUp := false, id !in servers;
      election := Election([], 0, false, false, id in servers, false, []);
      commitsLocked, stateTransferInProgress := false, false;
      machine := [];
      var ps := CreatePeers(servers, id);
      peers := ps;
      new;
      var end := store.EndIndex();
      if end - 1 < commitIndex {
        store.Clear(commitIndex);
      }
    }

    static method CreatePeers(servers: seq<Id>, self: Id) returns (ps: seq<Peer>)
      ensures ps == InitialPeers(servers, self)
    {
      ps := [];
      assert servers[0..] == servers;
      for i := 0 to |servers|
        invariant ps + InitialPeers(servers[i..], self) == InitialPeers(servers, self)
      {
        assert servers[i..][0] == servers[i] && servers[i..][1..] == servers[i + 1..];
        if servers[i] != self {
          ps := ps + [Peer(servers[i], 1, 0, 1, false)];
        }
      }
      assert servers[|servers|..] == [];
    }

    //
    // Terms and roles
    //

    method UpdateTerm(newTerm: nat) returns (updated: bool)
      modifies this
      ensures View() == Handlers.UpdateTerm(old(View()), newTerm)
      ensures updated == (newTerm > old(term))
    {
      if newTerm > term {
        term := newTerm;
        votedFor := None;
        updated := true;
      } else {
        updated := false;
      }
    }

    method RestartElectionTimer()
      modifies this
      ensures View() == RestartTimer(old(View()))
    {
      if catchingUp {
        return;
      }
      election := election.(timerStarted := true);
    }

    method ClearElectionState()
      modifies this
      ensures View() == ClearElection(old(View()))
    {
      election := election.(
        completed := false, granted := 0, voted := [], transients := [], preVote := false);
    }

    method OnFollower()
      modifies this
      ensures View() == old(View()).(peers := StopPeers(old(peers)))
    {
      for i := 0 to |peers|
        invariant View() == old(View()).(peers := peers)
        invariant |peers| == |old(peers)|
        invariant forall j :: 0 <= j < i ==> peers[j] == old(peers)[j].(started := false)
        invariant forall j :: i <= j < |peers| ==> peers[j] == old(peers)[j]
      {
        peers := peers[i := peers[i].(started := false)];
      }
    }

    method BecomeFollower()
      modifies this
      ensures View() == Handlers.BecomeFollower(old(View()))
    {
      ClearElectionState();
      role := Follower;
      RestartElectionTimer();
      OnFollower();
    }

    /** A leader that closes becomes follower and is not elected again, if there is another to be. */
    method GracefulClose()
      modifies this
      ensures View() == if old(role) == Leader && old(peers) != [] then StepDown(old(View()), true) else old(View())
    {
      if role == Leader && peers != [] {
        BecomeFollower();
        election := election.(locked := true);
      }
    }

    /** No vote request is considered until the least election timeout has passed. */
    method DelayElection(now: nat)
      modifies this
      ensures View() == Handlers.DelayElection(old(View())) && nextVotingTime == now + minElectionTimeout
    {
      RestartElectionTimer();
      election := election.(locked := false);
      nextVotingTime := now + minElectionTimeout;
    }

    //
    // Voting
    //

    method HandleVoteRequest(request: VoteRequest, now: nat) returns (response: VoteResponse)
      requires store.startIndex >= 1
      modifies this
      ensures (View(), response) == Handlers.HandleVoteRequest(old(View()), request, now >= old(nextVotingTime))
    {
      var accepted := IsVoteRequestAccepted(request, now);
      var transientState := None;
      if accepted && !request.preVote {
        votedFor := Some(request.serverId);
        var marks := manager.Marks();
        transientState := Some(TransientState(marks, quickCommitIndex));
      }
      response := VoteResponse(id, accepted, term, transientState);
    }

    method IsVoteRequestAccepted(request: VoteRequest, now: nat) returns (accepted: bool)
      requires store.startIndex >= 1
      modifies this
      ensures var n := old(View());
        if now < old(nextVotingTime) || request.serverId !in n.servers then View() == n && !accepted
        else
          && View() == Voter(n, request)
          && (accepted <==>
                && request.term == View().term
                && NewerOrEqual(request.lastLogTerm, request.lastLogIndex, n.log)
                && (request.preVote || View().votedFor.None? || View().votedFor == Some(request.serverId)))
    {
      if now < nextVotingTime {
        return false;
      }
      if request.serverId !in configuration {
        return false;
      }
      if !request.preVote {
        var updated := UpdateTerm(request.term);
        if updated {
          BecomeFollower();
        }
      }
      var last := store.Last();
      var end := store.EndIndex();
      var newerOrEqual := request.lastLogTerm > last.term
                          || (request.lastLogTerm == last.term && request.lastLogIndex >= end - 1);
      accepted := request.term == term && newerOrEqual
                  && (request.preVote || votedFor.None? || votedFor.value == request.serverId);
    }

    method RequestVotes(preVote: bool) returns (broadcast: Option<VoteRequest>)
      requires store.startIndex >= 1
      modifies this
      ensures Effect(View(), broadcast) == Handlers.RequestVotes(old(View()), preVote)
    {
      election := election.(granted := 1);
      election := election.(voted := election.voted + [id]);
      var last := store.Last();
      var end := store.EndIndex();
      broadcast := Some(VoteRequest(id, term, last.term, end - 1, preVote));
    }

    /** The election timer fired. */
    method RequestElection(now: nat) returns (broadcast: Option<VoteRequest>)
      requires role != Leader && View().Retains()
      modifies this, store, manager
      ensures var effect := Handlers.RequestElection(old(View()));
        Compacts(effect.node, View()) && broadcast == effect.broadcast
    {
      broadcast := None;
      if catchingUp {
        return;
      }
      if election.locked {
        return;
      }
      RestartElectionTimer();
      ClearElectionState();
      if peers == [] {
        broadcast := BecomeCandidate(now);
        return;
      }
      election := election.(preVote := true);
      broadcast := RequestVotes(true);
    }

    method BecomeCandidate(now: nat) returns (broadcast: Option<VoteRequest>)
      requires View().Retains()
      modifies this, store, manager
      ensures var effect := Handlers.BecomeCandidate(old(View()));
        Compacts(effect.node, View()) && broadcast == effect.broadcast
    {
      broadcast := None;
      if role != Candidate {
        term := term + 1;
        votedFor := None;
        role := Candidate;
        assert View() == EnterTerm(old(View()));
        broadcast := RequestVoteForSelf(now);
      } else {
        CompactsSelf(View());
      }
    }

    method RequestVoteForSelf(now: nat) returns (broadcast: Option<VoteRequest>)
      requires View().Retains()
      modifies this, store, manager
      ensures var effect := Handlers.RequestVoteForSelf(old(View()));
        Compacts(effect.node, View()) && broadcast == effect.broadcast
    {
      RestartElectionTimer();
      ClearElectionState();
      if peers == [] {
        BecomeLeader(now);
        return None;
      }
      votedFor := Some(id);
      broadcast := RequestVotes(false);
      CompactsSelf(View());
    }

    /** A vote response of the current term. */
    method HandleVoteResponse(response: VoteResponse, now: nat) returns (broadcast: Option<VoteRequest>)
      requires View().Retains()
      modifies this, store, manager
      ensures var effect := Handlers.HandleVoteResponse(old(View()), response);
        Compacts(effect.node, View()) && broadcast == effect.broadcast
    {
      broadcast := None;
      if election.completed {
        return;
      }
      if response.serverId in election.voted {
        return;
      }
      TallyVote(response);
      if election.granted > (|peers| + 1) / 2 {
        if election.preVote {
          broadcast := BecomeCandidate(now);
        } else {
          BecomeLeader(now);
        }
      }
    }

    method TallyVote(response: VoteResponse)
      modifies this
      ensures View() == Tally(old(View()), response)
    {
      election := election.(voted := election.voted + [response.serverId]);
      if response.accepted {
        election := election.(granted := election.granted + 1);
        if !election.preVote {
          match response.transientState {
            case None =>
            case Some(state) =>
              election := election.(
                transients := PutTransient(election.transients, response.serverId, state));
          }
        }
      }
      if |election.voted| >= |peers| + 1 {
        ElectionCompleted();
      }
    }

    method ElectionCompleted()
      modifies this
      ensures View() == CompleteElection(old(View()))
    {
      election := election.(preVote := false);
      if !election.completed {
        election := election.(completed := true);
      }
    }

    method BecomeLeader(now: nat)
      requires View().Retains()
      modifies this, store, manager
      ensures Compacts(Handlers.BecomeLeader(old(View())), View())
    {
      ElectionCompleted();
      election := election.(timerStarted := false);
      role := Leader;
      leaderId := Some(id);
      var states := election.transients;
      election := election.(transients := []);
      assert View() == CompleteElection(old(View())).(
                         election := CompleteElection(old(View())).election.(timerStarted := false, transients := []),
                         role := Leader, leaderId := Some(id));
      ApplyTransientState(states);
      OnLeader(now);
    }

    //
    // Leadership
    //

    method ApplyTransientState(states: seq<(Id, TransientState)>)
      requires View().Retains()
      modifies manager
      ensures View() == ApplyTransientStates(old(View()), states)
    {
      var minCommitIndex: nat := quickCommitIndex;
      ghost var before := manager.sessions;
      assert states[0..] == states;
      for i := 0 to |states|
        invariant MinCommit(minCommitIndex, states[i..]) == MinCommit(quickCommitIndex, states)
        invariant ApplyAllMarks(manager.sessions, states[i..]) == ApplyAllMarks(before, states)
      {
        var state := states[i].1;
        if minCommitIndex > state.commitIndex {
          minCommitIndex := state.commitIndex;
        }
        assert states[i..][0] == states[i] && states[i..][1..] == states[i + 1..];
        ApplyClientSessions(state.sessions);
      }
      assert states[|states|..] == [];

      ReceiveLogEntries(minCommitIndex + 1);
    }

    method ApplyClientSessions(marks: seq<SessionMark>)
      modifies manager
      ensures manager.sessions == ApplyMarks(old(manager.sessions), marks)
    {
      assert marks[0..] == marks;
      for i := 0 to |marks|
        invariant ApplyMarks(manager.sessions, marks[i..]) == ApplyMarks(old(manager.sessions), marks)
      {
        assert marks[i..][0] == marks[i] && marks[i..][1..] == marks[i + 1..];
        manager.Learn(marks[i].clientId, marks[i].lastCommitted);
      }
      assert marks[|marks|..] == [];
    }

    /** Each entry from the index on sets what its client's session last received. */
    method ReceiveLogEntries(from: nat)
      modifies manager
      ensures var log := store.Contents();
        var first := if from < log.start then log.start else from;
        manager.sessions == ReceiveEntries(old(manager.sessions),
                                          if first <= log.End() then log.Slice(first, log.End()) else [])
    {
      var logIndex := if from < store.startIndex then store.startIndex else from;
      ghost var log := store.Contents();
      var end := store.EndIndex();
      if logIndex > end {
        return;
      }
      ghost var entries := log.Slice(logIndex, end);
      while logIndex < end
        invariant log.start <= logIndex <= end == log.End()
        invariant ReceiveEntries(manager.sessions, log.Slice(logIndex, end))
               == ReceiveEntries(old(manager.sessions), entries)
      {
        var entry := store.GetAt(logIndex);
        ReceiveNext(manager.sessions, log, logIndex);
        if entry.clientId.Some? {
          manager.SetLastReceived(entry.clientId.value, entry.messageId);
        }
        logIndex := logIndex + 1;
      }
      assert log.Slice(end, end) == [];
    }

    method OnLeader(now: nat)
      requires View().Retains()
      modifies this, store, manager
      ensures Compacts(Handlers.OnLeader(old(View())), View())
    {
      TakeOver(now);
      RequestAppendEntries(now);
    }

    /** Alone, a server commits at once; otherwise its requests to the peers are sent separately. */
    method RequestAppendEntries(now: nat)
      requires View().Retains()
      modifies this, store, manager
      ensures Compacts(CommitAlone(old(View())), View())
    {
      if peers == [] {
        var end := store.EndIndex();
        Commit(end - 1, now);
      } else {
        CompactsSelf(View());
      }
    }

    method TakeOver(now: nat)
      requires View().Retains()
      modifies this, store, manager
      ensures View() == Handlers.TakeOver(old(View()))
    {
      ghost var n := View();
      if quickCommitIndex == 0 {
        AddInitialConfiguration(now);
      }
      ghost var n1 := if n.quickCommit == 0 then Handlers.AddInitialConfiguration(n) else n;
      assert View() == n1;
      var end := store.EndIndex();
      StartAllPeers(end);
      assert View() == n1.(peers := StartPeers(n1.peers, n1.log.End()));
      DetectUncommittedConfigurations();
    }

    method AddInitialConfiguration(now: nat)
      modifies this, store
      ensures View() == Handlers.AddInitialConfiguration(old(View()))
    {
      var _ := store.Append(Entry(term, Configuration(configuration, |configuration|), None, 0), now);
      configurationChanging := true;
    }

    method StartAllPeers(nextIndex: nat)
      modifies this
      ensures View() == old(View()).(peers := StartPeers(old(peers), nextIndex))
    {
      for i := 0 to |peers|
        invariant View() == old(View()).(peers := peers)
        invariant |peers| == |old(peers)|
        invariant forall j :: 0 <= j < i ==>
          peers[j] == old(peers)[j].(nextIndex := nextIndex, started := true)
        invariant forall j :: i <= j < |peers| ==> peers[j] == old(peers)[j]
      {
        peers := peers[i := peers[i].(nextIndex := nextIndex, started := true)];
      }
    }

    method DetectUncommittedConfigurations()
      requires View().Retains()
      modifies this, manager
      ensures View() == DetectConfigurations(old(View()), old(quickCommitIndex) + 1)
    {
      var logIndex := quickCommitIndex + 1;
      ghost var detected := DetectConfigurations(View(), logIndex);
      var end := store.EndIndex();
      while logIndex < end
        invariant View().Retains()
        invariant store.startIndex <= logIndex && end == store.Contents().End()
        invariant DetectConfigurations(View(), logIndex) == detected
      {
        var entry := store.GetAt(logIndex);
        if entry.value.Configuration? {
          Reconfigure(entry.value.servers);
          configurationChanging := true;
        }
        logIndex := logIndex + 1;
      }
    }

    //
    // Membership
    //

    method Reconfigure(servers: seq<Id>)
      modifies this, manager
      ensures View() == Handlers.Reconfigure(old(View()), servers)
    {
      configurationChanging := false;
      var removed := MissingFrom(configuration, servers);
      var added := MissingFrom(servers, configuration);
      AddAllPeers(added);
      RemoveAllPeers(removed);
      configuration := servers;
    }

    static method MissingFrom(from: seq<Id>, others: seq<Id>) returns (missing: seq<Id>)
      ensures missing == Missing(from, others)
    {
      missing := [];
      assert from[0..] == from;
      for i := 0 to |from|
        invariant missing + Missing(from[i..], others) == Missing(from, others)
      {
        MissingNext(missing, from, others, i);
        if from[i] !in others {
          missing := missing + [from[i]];
        }
      }
      assert from[|from|..] == [];
    }

    method AddAllPeers(added: seq<Id>)
      modifies this
      ensures View() == old(View()).(
                peers := AddPeers(old(peers), added, id, store.Contents().End(), role == Leader))
    {
      var end := store.EndIndex();
      assert added[0..] == added;
      for i := 0 to |added|
        invariant View() == old(View()).(peers := peers)
        invariant AddPeers(peers, added[i..], id, end, role == Leader)
               == AddPeers(old(peers), added, id, end, role == Leader)
      {
        assert added[i..][0] == added[i] && added[i..][1..] == added[i + 1..];
        if added[i] != id {
          peers := peers + [Peer(added[i], end, 0, 1, role == Leader)];
        }
      }
      assert added[|added|..] == [];
    }

    method RemoveAllPeers(removed: seq<Id>)
      modifies this, manager
      ensures View() == old(View()).(
                peers := RemovePeers(old(peers), removed, id, catchingUp),
                sessions := if id in removed && !catchingUp then [] else old(manager.sessions))
    {
      assert removed[0..] == removed;
      for i := 0 to |removed|
        invariant View() == old(View()).(peers := peers, sessions := manager.sessions)
        invariant manager.sessions == if id in removed[..i] && !catchingUp then [] else old(manager.sessions)
        invariant RemovePeers(peers, removed[i..], id, catchingUp)
               == RemovePeers(old(peers), removed, id, catchingUp)
      {
        assert removed[i..][0] == removed[i] && removed[i..][1..] == removed[i + 1..];
        assert removed[..i + 1] == removed[..i] + [removed[i]];
        RemoveServer(removed[i]);
      }
      assert removed[|removed|..] == [] && removed[..|removed|] == removed;
    }

    /** This server leaves the group, or forgets a peer that does. */
    method RemoveServer(serverId: Id)
      modifies this, manager
      ensures View() == if serverId == id && !catchingUp then old(View()).(sessions := [])
                        else old(View()).(peers := RemovePeer(old(peers), serverId))
    {
      if serverId == id && !catchingUp {
        manager.Clear();
      } else {
        var index := FindPeer(serverId);
        if index < |peers| {
          peers := peers[..index] + peers[index + 1..];
        }
      }
    }

    method FindPeer(peerId: Id) returns (index: nat)
      ensures index == PeerIndex(peers, peerId)
    {
      index := 0;
      while index < |peers| && peers[index].id != peerId
        invariant index <= PeerIndex(peers, peerId)
      {
        index := index + 1;
      }
    }

    method CommitConfiguration(servers: seq<Id>)
      modifies this, manager
      ensures View() == Handlers.CommitConfiguration(old(View()), servers)
    {
      Reconfigure(servers);
      if catchingUp && id in servers {
        catchingUp := false;
      }
    }

    method HandleJoinGroupRequest(request: JoinRequest, gap: nat, now: nat) returns (response: JoinResponse)
      requires View().Retains()
      modifies this, store, manager
      ensures var (n, answer) := HandleJoin(old(View()), request, gap);
        Compacts(n, View()) && response == answer
    {
      CompactsSelf(View());
      if role != Leader || configurationChanging {
        return JoinResponse(id, false, leaderId, false, false, None, false);
      }
      if request.serverId in configuration {
        return JoinResponse(id, true, leaderId, true, false, None, false);
      }
      var startIndex := store.StartIndex();
      var currentNextIndex := store.EndIndex();
      if startIndex > 1 && request.lastLogIndex < startIndex {
        return JoinResponse(id, true, leaderId, false, true, Some(Snapshot), false);
      }
      var logOk := LogOk(request.lastLogIndex, request.lastLogTerm);
      if !logOk {
        return JoinResponse(id, true, leaderId, false, true, None, true);
      }
      if currentNextIndex - 1 - request.lastLogIndex >= gap {
        return JoinResponse(id, true, leaderId, false, true, Some(LogTail), false);
      }
      response := JoinResponse(id, true, leaderId, false, true, None, false);
      ChangeConfiguration(configuration + [request.serverId], now);
    }

    method HandleLeaveGroupRequest(serverId: Id, now: nat) returns (response: LeaveResponse)
      requires View().Retains()
      modifies this, store, manager
      ensures var (n, answer) := HandleLeave(old(View()), serverId);
        Compacts(n, View()) && response == answer
    {
      CompactsSelf(View());
      if role != Leader || configurationChanging {
        return LeaveResponse(id, false, leaderId, None);
      }
      if serverId !in configuration {
        return LeaveResponse(id, true, leaderId, Some(configuration));
      }
      response := LeaveResponse(id, true, leaderId, None);
      var servers := RemoveFrom(configuration, serverId);
      ChangeConfiguration(servers, now);
    }

    static method RemoveFrom(servers: seq<Id>, serverId: Id) returns (rest: seq<Id>)
      ensures rest == Without(servers, serverId)
    {
      var index := 0;
      assert servers[..0] == [] && servers[0..] == servers;
      while index < |servers| && servers[index] != serverId
        invariant index <= |servers|
        invariant servers[..index] + Without(servers[index..], serverId) == Without(servers, serverId)
      {
        WithoutNext(servers, serverId, index);
        index := index + 1;
      }
      if index < |servers| {
        assert servers[index..][1..] == servers[index + 1..];
        rest := servers[..index] + servers[index + 1..];
      } else {
        rest := servers;
      }
    }

    method ChangeConfiguration(servers: seq<Id>, now: nat)
      requires View().Retains()
      modifies this, store, manager
      ensures Compacts(CommitAlone(ChangeServers(old(View()), servers)), View())
    {
      var _ := store.Append(Entry(term, Configuration(servers, |servers|), None, 0), now);
      Reconfigure(servers);
      configurationChanging := true;
      assert View() == ChangeServers(old(View()), servers);
      RequestAppendEntries(now);
    }

    //
    // Commits
    //

    method Commit(index: nat, now: nat)
      requires View().Retains()
      modifies this, store, manager
      ensures Compacts(Handlers.Commit(old(View()), index), View())
    {
      if index > quickCommitIndex {
        quickCommitIndex := index;
        assert View() == old(View()).(quickCommit := index);
      }
      LocalCommit(now);
    }

    method LocalCommit(now: nat)
      requires View().Retains()
      modifies this, store, manager
      ensures Compacts(Handlers.LocalCommit(old(View())), View())
    {
      if commitsLocked {
        return;
      }
      var end := store.EndIndex();
      if commitIndex >= quickCommitIndex || commitIndex >= end - 1 {
        return;
      }
      CommitEntries();
      store.Commit(commitIndex, now);
      manager.ClearCommitted();
    }

    method CommitEntries()
      requires View().Retains() && CommitDue(View())
      modifies this, manager
      ensures View() == Handlers.CommitEntries(old(View()))
      ensures View().Retains() && commitIndex > old(commitIndex) && commitIndex < View().log.End()
    {
      ghost var committed := Handlers.CommitEntries(View());
      var end := store.EndIndex();
      while commitIndex < quickCommitIndex && commitIndex < end - 1
        invariant View().Retains()
        invariant end == View().log.End() && !commitsLocked
        invariant commitIndex >= old(commitIndex) && commitIndex < end
        invariant commitIndex == old(commitIndex) ==> CommitDue(View())
        invariant Handlers.CommitEntries(View()) == committed
        decreases quickCommitIndex - commitIndex
      {
        CommitEntry();
      }
    }

    method CommitEntry()
      requires View().Retains() && CommitDue(View())
      modifies this, manager
      ensures View() == CommitNext(old(View()))
    {
      var index := commitIndex + 1;
      var entry := store.GetAt(index);
      ApplyEntry(entry);
      machine := machine + [Applied(index, entry.value)];
      commitIndex := index;
    }

    method ApplyEntry(entry: Entry)
      modifies this, manager
      ensures View() == Apply(old(View()), entry)
    {
      match entry.value {
        case Application(_) =>
          if entry.clientId.Some? {
            var session := manager.EnsureSession(entry.clientId.value);
            manager.Commit(session, entry.messageId);
          }
        case Configuration(servers, _) =>
          CommitConfiguration(servers);
      }
    }

    //
    // Replication
    //

    method TermForLogIndex(logIndex: nat) returns (termAt: nat)
      requires logIndex < store.Contents().End()
      ensures termAt == store.Contents().TermAt(logIndex)
    {
      if logIndex == 0 {
        return 0;
      }
      if logIndex >= store.startIndex {
        var entry := store.GetAt(logIndex);
        return entry.term;
      }
      termAt := TERM_UNKNOWN;
    }

    method HandleAppendEntriesRequest(request: AppendRequest, now: nat) returns (response: AppendResponse)
      requires View().Retains() && AppendRequestAllowed(View(), request)
      modifies this, store, manager
      ensures var (n, answer) := HandleAppendRequest(old(View()), request);
        Compacts(n, View()) && response == answer
    {
      if request.serverId !in configuration {
        return AppendResponse(id, false, 0, 0, false);
      }
      AcknowledgedReplicates(View(), request);
      AcknowledgeRequest(request, now);
      response := Replicate(request, now);
    }

    method Replicate(request: AppendRequest, now: nat) returns (response: AppendResponse)
      requires Replicates(View(), request)
      modifies this, store, manager
      ensures var (n, answer) := Handlers.Replicate(old(View()), request);
        Compacts(n, View()) && response == answer
    {
      ghost var n := View();
      var logOk := LogOk(request.lastLogIndex, request.lastLogTerm);
      var stateTransfer := request.transfer.Some? && (request.transfer.value.Snapshot? || logOk);
      if stateTransfer {
        stateTransferInProgress := true;
      }
      if request.term < term || !logOk || stateTransfer || stateTransferInProgress {
        var end := store.EndIndex();
        ReplicateRejects(n, request, View(), stateTransfer);
        CompactsSelf(View());
        return AppendResponse(id, false, term, end, stateTransfer);
      }
      ReplicateAccepts(n, request);
      response := AppendResponse(id, true, term, request.lastLogIndex + |request.entries| + 1, stateTransfer);
      AcceptEntries(request, now);
    }

    method LogOk(lastLogIndex: nat, lastLogTerm: nat) returns (ok: bool)
      ensures ok == FitsAt(store.Contents(), lastLogIndex, lastLogTerm)
    {
      var end := store.EndIndex();
      ok := lastLogIndex == 0;
      if !ok && lastLogIndex < end {
        var termAt := TermForLogIndex(lastLogIndex);
        ok := lastLogTerm == termAt;
      }
    }

    method AcceptEntries(request: AppendRequest, now: nat)
      requires TakesEntries(View(), request)
      modifies this, store, manager
      ensures Compacts(Handlers.Commit(TakeEntries(old(View()), request), request.commitIndex), View())
    {
      if request.entries != [] {
        AppendEntries(request.entries, request.lastLogIndex + 1, now);
      }
      leaderId := Some(request.serverId);
      assert View() == TakeEntries(old(View()), request);
      Commit(request.commitIndex, now);
    }

    method AcknowledgeRequest(request: AppendRequest, now: nat)
      requires !(role == Leader && request.term == term)
      modifies this
      ensures View() == Acknowledge(old(View()), request)
    {
      var updated := UpdateTerm(request.term);
      if updated {
        BecomeFollower();
      }
      if request.term == term {
        if role == Candidate {
          BecomeFollower();
        } else {
          assert role != Leader;
          DelayElection(now);
        }
      }
    }

    /** The batch is merged in, although each overwritten entry cuts off all that follow it. */
    method AppendEntries(entries: seq<Entry>, startLogIndex: nat, now: nat)
      requires store.Contents().start <= startLogIndex <= store.Contents().End()
      modifies store
      ensures store.Contents() == old(store.Contents()).Merge(startLogIndex, entries)
    {
      ghost var log := store.Contents();
      var index := CountAgreeing(entries, startLogIndex);
      ghost var keep := index;
      var logIndex := startLogIndex + index;
      var end := store.EndIndex();
      var mappings := [];
      while logIndex < end && index < |entries|
        invariant keep <= index <= |entries| && logIndex == startLogIndex + index <= end
        invariant |mappings| == index - keep
        invariant forall j :: 0 <= j < |mappings| ==>
          mappings[j] == (entries[keep + j], startLogIndex + keep + j)
      {
        mappings := mappings + [(entries[index], logIndex)];
        logIndex := logIndex + 1;
        index := index + 1;
      }
      MergeIsOverwritten(log, startLogIndex, entries, keep);
      SetMappings(mappings, log, entries, startLogIndex, keep, now);
      AppendRest(index, log, entries, startLogIndex, keep, now);
    }

    method SetMappings(mappings: seq<(Entry, nat)>,
                       ghost log: Log, ghost entries: seq<Entry>, ghost first: nat, ghost keep: nat, now: nat)
      requires store.Contents() == log && log.start <= first && keep + |mappings| <= |entries|
      requires first + keep <= log.End()
      requires forall j :: 0 <= j < |mappings| ==> mappings[j] == (entries[keep + j], first + keep + j)
      modifies store
      ensures store.Contents() == Overwritten(log, first, entries, keep, keep + |mappings|)
    {
      ghost var i := keep;
      for j := 0 to |mappings|
        invariant i == keep + j
        invariant store.Contents() == Overwritten(log, first, entries, keep, i)
      {
        OverwrittenNext(log, first, entries, keep, i);
        SetMapping(mappings[j], log, entries, first, keep, i, now);
        i := i + 1;
      }
    }

    method SetMapping(mapping: (Entry, nat), ghost log: Log, ghost entries: seq<Entry>, ghost first: nat,
                      ghost keep: nat, ghost i: nat, now: nat)
      requires log.start <= first && keep <= i < |entries| && first + keep <= log.End()
      requires store.Contents() == Overwritten(log, first, entries, keep, i)
      requires mapping == (entries[i], first + i)
      modifies store
      ensures store.Contents() == Overwritten(log, first, entries, keep, i + 1)
    {
      OverwrittenNext(log, first, entries, keep, i);
      var (entry, logIndex) := mapping;
      store.SetAt(logIndex, entry, now);
    }

    method AppendRest(from: nat, ghost log: Log, entries: seq<Entry>, ghost first: nat, ghost keep: nat, now: nat)
      requires log.start <= first && keep <= from <= |entries| && first + keep <= log.End()
      requires store.Contents() == Overwritten(log, first, entries, keep, from)
      requires from < |entries| ==> store.Contents().End() == first + from
      modifies store
      ensures store.Contents() == Overwritten(log, first, entries, keep, |entries|)
    {
      var index := from;
      while index < |entries|
        invariant keep <= index <= |entries|
        invariant store.Contents() == Overwritten(log, first, entries, keep, index)
        invariant index < |entries| ==> store.Contents().End() == first + index
      {
        OverwrittenNext(log, first, entries, keep, index);
        var _ := store.Append(entries[index], now);
        index := index + 1;
      }
    }

    /** How many of the batch's first entries the log already has. */
    method CountAgreeing(entries: seq<Entry>, startLogIndex: nat) returns (index: nat)
      requires store.Contents().start <= startLogIndex <= store.Contents().End()
      ensures var log := store.Contents();
        index == Agreement(log.entries[startLogIndex - log.start..], entries)
    {
      ghost var tail := store.Contents().entries[startLogIndex - store.startIndex..];
      index := 0;
      FirstApartIs(tail, entries, 0);
      assert tail[0..] == tail && entries[0..] == entries;
      while true
        invariant index <= |entries| && index <= |tail|
        invariant FirstApart(tail, entries, index) == FirstApart(tail, entries, 0)
        decreases |entries| - index
      {
        var end := store.EndIndex();
        if !(startLogIndex + index < end && index < |entries|) {
          break;
        }
        var entry := store.GetAt(startLogIndex + index);
        assert entry == tail[index];
        if entries[index].term != entry.term {
          break;
        }
        index := index + 1;
      }
    }

    method HandleAppendEntriesResponse(response: AppendResponse, now: nat) returns (needToCatchup: bool)
      requires View().Retains()
      requires response.accepted ==> response.nextIndex >= 1
      modifies this, store, manager
      ensures var (n, more) := HandleAppendResponse(old(View()), response);
        Compacts(n, View()) && needToCatchup == more
    {
      if role != Leader {
        return false;
      }
      var index := FindPeer(response.serverId);
      if index == |peers| {
        return false;
      }
      if response.accepted {
        needToCatchup := OnAccepted(index, response, now);
      } else {
        ResponseRejected(View(), response, index);
        needToCatchup := OnRejected(index, response);
        CompactsSelf(View());
      }
    }

    method OnAccepted(index: nat, response: AppendResponse, now: nat) returns (needToCatchup: bool)
      requires View().Retains() && role == Leader
      requires index == PeerIndex(peers, response.serverId) < |peers|
      requires response.accepted && response.nextIndex >= 1
      modifies this, store, manager
      ensures var (n, more) := HandleAppendResponse(old(View()), response);
        Compacts(n, View()) && needToCatchup == more
    {
      ghost var n := View();
      peers := peers[index := peers[index].(rewindStep := 1, nextIndex := response.nextIndex,
                                            matched := response.nextIndex - 1)];
      ResponseAccepted(n, response, index, View());
      var matchedIndexes := MatchedIndexes();
      var sorted := Descending(matchedIndexes);
      var end := store.EndIndex();
      needToCatchup := response.nextIndex < end;
      Commit(sorted[|sorted| / 2], now);
    }

    method OnRejected(index: nat, response: AppendResponse) returns (needToCatchup: bool)
      requires index < |peers|
      modifies this
      ensures View() == old(View()).(peers := old(peers)[index := Rewind(old(peers)[index], response)])
      ensures needToCatchup == !response.transferRequired
    {
      var peer := peers[index];
      var rewindStep := peer.rewindStep;
      peer := peer.(rewindStep := 1);
      if response.transferRequired {
        peer := peer.(nextIndex := response.nextIndex);
      } else if response.nextIndex < peer.nextIndex {
        peer := peer.(nextIndex := response.nextIndex);
      } else if peer.nextIndex > rewindStep {
        peer := peer.(nextIndex := peer.nextIndex - rewindStep);
        peer := peer.(rewindStep := rewindStep * 2);
      } else {
        peer := peer.(nextIndex := 1);
      }
      peers := peers[index := peer];
      needToCatchup := !response.transferRequired;
    }

    method MatchedIndexes() returns (indexes: seq<nat>)
      requires View().log.End() >= 1
      ensures indexes == Reached(View())
    {
      var end := store.EndIndex();
      indexes := [end - 1];
      for i := 0 to |peers|
        invariant |indexes| == i + 1
        invariant forall j :: 0 <= j <= i ==> indexes[j] == Reached(View())[j]
      {
        indexes := indexes + [peers[i].matched];
      }
    }

    /** `gap` and `batch` are the configured limits on what is sent as log entries. */
    method CreateAppendEntriesRequest(peer: Peer, gap: nat, batch: nat) returns (request: AppendRequest)
      requires store.startIndex >= 1 && CanCreateAppendRequest(View(), peer)
      ensures request == CreateAppendRequest(View(), peer, gap, batch)
    {
      var startLogIndex := store.StartIndex();
      var currentNextIndex := store.EndIndex();
      var lastLogIndex := peer.nextIndex - 1;
      var unavailable := startLogIndex > 1 && lastLogIndex < startLogIndex;
      var lastLogTerm := TermForLogIndex(lastLogIndex);
      assert unavailable == Unavailable(store.Contents(), lastLogIndex);
      if unavailable || currentNextIndex - 1 - lastLogIndex >= gap {
        request := AppendRequest(id, term, lastLogTerm, lastLogIndex, quickCommitIndex,
                                 [Entry(0, Application([]), None, 0)],
                                 Some(if unavailable then Snapshot else LogTail));
      } else {
        var logEntries := EntriesAfter(lastLogIndex, batch);
        request := AppendRequest(id, term, lastLogTerm, lastLogIndex, quickCommitIndex, logEntries, None);
      }
    }

    method EntriesAfter(lastLogIndex: nat, batch: nat) returns (logEntries: seq<Entry>)
      requires store.startIndex <= lastLogIndex + 1 <= store.Contents().End()
      ensures logEntries == NextEntries(store.Contents(), lastLogIndex, batch)
    {
      var currentNextIndex := store.EndIndex();
      var endLogIndex := if currentNextIndex < lastLogIndex + 1 + batch then currentNextIndex
                         else lastLogIndex + 1 + batch;
      logEntries := [];
      if lastLogIndex + 1 < endLogIndex {
        logEntries := store.Get(lastLogIndex + 1, endLogIndex);
      }
    }

    //
    // Client messages
    //

    method HandlePublishRequest(request: PublishRequest, now: nat) returns (response: PublishResponse)
      requires View().Retains()
      modifies this, store, manager
      ensures var (n, answer) := HandlePublish(old(View()), request);
        Compacts(n, View()) && response == answer
    {
      ghost var n := View();
      if role != Leader {
        CompactsSelf(n);
        return PublishResponse(id, false, leaderId, Some(configuration), false, 0, 0);
      }
      var session, appended := ReceiveRequest(request, now);
      ghost var n1 := View();
      response := PublishResponse(id, true, leaderId, None, manager.sessions[session].outOfOrder,
                                  manager.sessions[session].lastReceived,
                                  manager.sessions[session].lastCommitted);
      if appended {
        RequestAppendEntries(now);
      } else {
        CompactsSelf(n1);
      }
    }

    method ReceiveRequest(request: PublishRequest, now: nat) returns (session: nat, appended: bool)
      modifies store, manager
      ensures View() == Received(old(View()), request)
      ensures session == IndexOf(manager.sessions, request.clientId) < |manager.sessions|
      ensures appended <==> |View().log.entries| > |old(View()).log.entries|
    {
      session := manager.EnsureSession(request.clientId);
      assert IndexOf(manager.sessions, request.clientId) == session by {
        assert manager.sessions[session].clientId == request.clientId;
        IndexStays(manager.sessions, request.clientId, manager.sessions[session]);
      }
      appended := ReceiveAll(session, request.clientId, request.messages, now);
    }

    method ReceiveAll(session: nat, clientId: Id, messages: seq<Message>, now: nat)
      returns (appended: bool)
      requires session == IndexOf(manager.sessions, clientId) < |manager.sessions|
      modifies store, manager
      ensures View() == ReceiveMessages(old(View()), clientId, messages)
      ensures session == IndexOf(manager.sessions, clientId) < |manager.sessions|
      ensures appended <==> |View().log.entries| > |old(View()).log.entries|
    {
      appended := false;
      ghost var received := ReceiveMessages(View(), clientId, messages);
      assert messages[0..] == messages;
      for i := 0 to |messages|
        invariant session == IndexOf(manager.sessions, clientId) < |manager.sessions|
        invariant ReceiveMessages(View(), clientId, messages[i..]) == received
        invariant |View().log.entries| >= |old(View()).log.entries|
        invariant appended <==> |View().log.entries| > |old(View()).log.entries|
      {
        assert messages[i..][0] == messages[i] && messages[i..][1..] == messages[i + 1..];
        IndexStays(manager.sessions, clientId, manager.sessions[session].Receive(messages[i].id));
        var isNext := manager.Receive(session, messages[i].id);
        if isNext {
          var _ := store.Append(
            Entry(term, Application(messages[i].bytes), Some(clientId), messages[i].id), now);
          appended := true;
        }
      }
      assert messages[|messages|..] == [];
    }

    //
    // The filter in front of every response of a peer
    //

    /** Whether a response of this term is handed on. */
    method CheckTerm(responseTerm: nat) returns (pass: bool)
      modifies this
      ensures (View(), pass) == Handlers.CheckTerm(old(View()), responseTerm)
    {
      var updated := UpdateTerm(responseTerm);
      if updated {
        BecomeFollower();
        return false;
      }
      if responseTerm < term {
        return false;
      }
      pass := true;
    }

    method HandleVoteResponseOf(from: Id, response: VoteResponse, now: nat)
      returns (broadcast: Option<VoteRequest>)
      requires View().Retains()
      modifies this, store, manager
      ensures var effect := HandlePeerVoteResponse(old(View()), from, response);
        Compacts(effect.node, View()) && broadcast == effect.broadcast
    {
      broadcast := None;
      var index := FindPeer(from);
      if index == |peers| {
        return;
      }
      var pass := CheckTerm(response.term);
      if pass {
        broadcast := HandleVoteResponse(response, now);
      }
    }

    method HandleAppendResponseOf(from: Id, response: AppendResponse, now: nat)
      returns (needToCatchup: bool)
      requires View().Retains()
      requires response.accepted ==> response.nextIndex >= 1
      modifies this, store, manager
      ensures var (n, more) := HandlePeerAppendResponse(old(View()), from, response);
        Compacts(n, View()) && needToCatchup == more
    {
      needToCatchup := false;
      var index := FindPeer(from);
      if index == |peers| {
        return;
      }
      var pass := CheckTerm(response.term);
      if pass {
        needToCatchup := HandleAppendEntriesResponse(response, now);
      }
    }
  }
}
