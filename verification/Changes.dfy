/**
 A leader's configuration and the changes its log has not committed: in a tenure that takes over at most
 one of them, it is the last one the log holds. A commit of the first of two goes back to it.
 */
module Changes {
  import opened Types
  import opened Handlers
  import opened NodeFacts
  import opened HandedOver
  import opened ServerRuns
  import opened Configurations

  //
  // The changes that are not committed
  //

  /** What the log has above the committed index. */
  function Pending(n: Node): seq<Entry> {
    From(n.log, n.commitIndex + 1)
  }

  /** The number of configurations among the entries. */
  function Count(entries: seq<Entry>): nat {
    if entries == [] then 0
    else Count(entries[..|entries| - 1]) + if entries[|entries| - 1].value.Configuration? then 1 else 0
  }

  lemma {:induction false} CountConcat(a: seq<Entry>, b: seq<Entry>)
    ensures Count(a + b) == Count(a) + Count(b)
    decreases |b|
  {
    if b == [] {
      assert a + b == a;
    } else {
      CountConcat(a, b[..|b| - 1]);
      assert (a + b)[..|a + b| - 1] == a + b[..|b| - 1];
    }
  }

  lemma {:induction false} NoneCounted(entries: seq<Entry>)
    ensures Count(entries) == 0 <==> LastServers(entries).None?
  {
    if entries != [] {
      NoneCounted(entries[..|entries| - 1]);
    }
  }

  lemma {:induction false} WritesNoChange(entries: seq<Entry>)
    requires forall k :: 0 <= k < |entries| ==> entries[k].value.Application?
    ensures Count(entries) == 0 && LastServers(entries).None?
  {
    if entries != [] {
      WritesNoChange(entries[..|entries| - 1]);
    }
  }

  lemma PendingSplit(n: Node, r: Node)
    requires n.Retains() && r.log == n.log && n.commitIndex <= r.commitIndex
    requires r.commitIndex == n.commitIndex || r.commitIndex < n.log.End()
    ensures Pending(n) == Committed(n, r) + Pending(r)
  {}

  /** The configuration is the last one that the log holds above what it committed, if it holds any. */
  predicate InForce(n: Node) {
    LastServers(Pending(n)).Some? ==> n.servers == LastServers(Pending(n)).value
  }

  //
  // One step
  //

  /** The part of the log between the committed and the quick index. */
  lemma QuickSplit(n: Node)
    requires n.Retains() && n.quickCommit + 1 <= n.log.End()
    ensures Pending(n) == n.log.Slice(n.commitIndex + 1, n.quickCommit + 1) + From(n.log, n.quickCommit + 1)
  {}

  lemma LastAboveQuick(n: Node)
    requires n.Retains() && LastServers(From(n.log, n.quickCommit + 1)).Some?
    ensures LastServers(Pending(n)) == LastServers(From(n.log, n.quickCommit + 1))
  {
    assert n.quickCommit + 1 <= n.log.End();
    QuickSplit(n);
    LastServersConcat(n.log.Slice(n.commitIndex + 1, n.quickCommit + 1), From(n.log, n.quickCommit + 1));
  }

  /**
   Taking over puts the last pending configuration in force if and only if there is one above the quick
   index, or nothing was committed before, or it is in force already.
   */
  lemma TakeOverPutsInForce(n: Node)
    requires n.Retains()
    ensures InForce(TakeOver(n)) <==>
      n.quickCommit == 0 || LastServers(From(n.log, n.quickCommit + 1)).Some? || InForce(n)
  {
    TakeOverGoesOver(n);
    TakeOverUncommitted(n);
    if n.quickCommit == 0 {
      FirstPutsInForce(n, TakeOver(n));
    } else {
      AbovePutsInForce(n, TakeOver(n));
    }
  }

  lemma FirstPutsInForce(n: Node, r: Node)
    requires n.Retains() && n.quickCommit == 0 && r.commitIndex == n.commitIndex
    requires r.log == n.log.Append(InitialConfiguration(n)) && WentTo(n, r, From(r.log, 1))
    ensures InForce(r)
  {
    FirstInForce(n);
  }

  lemma AbovePutsInForce(n: Node, r: Node)
    requires n.Retains() && r.log == n.log && r.commitIndex == n.commitIndex
    requires WentTo(n, r, From(n.log, n.quickCommit + 1))
    ensures InForce(r) <==> LastServers(From(n.log, n.quickCommit + 1)).Some? || InForce(n)
  {
    assert Pending(r) == Pending(n);
    if LastServers(From(n.log, n.quickCommit + 1)).Some? {
      LastAboveQuick(n);
    }
  }

  lemma FirstInForce(n: Node)
    requires n.Retains() && n.quickCommit == 0
    ensures From(n.log.Append(InitialConfiguration(n)), 1) == n.log.entries + [InitialConfiguration(n)]
    ensures LastServers(From(n.log.Append(InitialConfiguration(n)), 1)) == Some(n.servers)
  {
    LastServersConcat(n.log.entries, [InitialConfiguration(n)]);
    LastServersOne(InitialConfiguration(n));
  }

  /** How far a commit goes. */
  function Reach(n: Node, index: nat): int {
    if n.commitsLocked then n.commitIndex
    else Greatest(n.commitIndex, Least(Greatest(n.quickCommit, index), n.log.End() - 1))
  }

  /**
   A commit keeps the last pending configuration in force if and only if it commits no configuration, or
   the last one, or one with the same servers as the last one.
   */
  lemma CommitKeepsInForce(n: Node, index: nat)
    requires n.Retains() && InForce(n)
    ensures var done := Reach(n, index) - n.commitIndex;
      0 <= done <= |Pending(n)|
      && var (before, after) := (LastServers(Pending(n)[..done]), LastServers(Pending(n)[done..]));
         InForce(Commit(n, index)) <==> before.None? || after.None? || before == after
  {
    var r := Commit(n, index);
    CommitHands(n, index);
    CommitGoesOver(n, index);
    assert r.commitIndex == n.commitIndex || r.commitIndex < n.log.End();
    PendingSplit(n, r);
    var done := r.commitIndex - n.commitIndex;
    assert Pending(n)[..done] == Committed(n, r) && Pending(n)[done..] == Pending(r);
    LastServersConcat(Committed(n, r), Pending(r));
  }

  //
  // A tenure
  //

  /** A leader has at most one pending configuration, has it in force, and takes no other meanwhile. */
  predicate OneAtATime(n: Node) {
    n.role == Leader ==>
      && n.election.completed
      && Count(Pending(n)) <= 1 && InForce(n)
      && (Count(Pending(n)) == 1 ==> n.configurationChanging)
  }

  /**
   What a server that becomes leader must find for that: one pending configuration at most, and that
   above its quick index; none at all if nothing was committed, as it then writes one of its own.
   */
  predicate Orderly(n: Node) {
    && Count(Pending(n)) <= (if n.quickCommit == 0 then 0 else 1)
    && Count(Pending(n)) == Count(From(n.log, n.quickCommit + 1))
  }

  /** What the property is about is the same. */
  predicate Alike(n: Node, r: Node) {
    && r.role == n.role && r.election.completed == n.election.completed && r.log == n.log
    && r.commitIndex == n.commitIndex && r.servers == n.servers
    && r.configurationChanging == n.configurationChanging
  }

  lemma AlikeOne(n: Node, r: Node)
    requires OneAtATime(n) && Alike(n, r)
    ensures OneAtATime(r)
  {}

  lemma {:induction false} CommitEntriesKeepElection(n: Node)
    requires n.Retains()
    ensures CommitEntries(n).election == n.election && CommitEntries(n).role == n.role
    decreases n.quickCommit - n.commitIndex
  {
    if CommitDue(n) {
      CommitEntriesKeepElection(CommitNext(n));
    }
  }

  lemma CommitKeepsElection(n: Node, index: nat)
    requires n.Retains()
    ensures Commit(n, index).election == n.election && Commit(n, index).role == n.role
  {
    CommitEntriesKeepElection(if index > n.quickCommit then n.(quickCommit := index) else n);
  }

  /** A commit of the one pending configuration leaves none; another leaves it pending. */
  lemma CommitOne(n: Node, index: nat)
    requires n.Retains() && OneAtATime(n)
    ensures OneAtATime(Commit(n, index))
  {
    var r := Commit(n, index);
    CommitHands(n, index);
    CommitKeepsElection(n, index);
    CommitGoesOver(n, index);
    assert r.commitIndex == n.commitIndex || r.commitIndex < n.log.End();
    PendingSplit(n, r);
    if n.role == Leader {
      OneLeft(n, r);
    }
  }

  lemma OneLeft(n: Node, r: Node)
    requires n.role == Leader && r.role == Leader && r.election == n.election && OneAtATime(n)
    requires Pending(n) == Committed(n, r) + Pending(r) && WentOver(n, r, Committed(n, r))
    ensures OneAtATime(r)
  {
    CountConcat(Committed(n, r), Pending(r));
    LastServersConcat(Committed(n, r), Pending(r));
    NoneCounted(Committed(n, r));
    NoneCounted(Pending(r));
  }

  lemma CommitAloneOne(n: Node)
    requires n.Retains() && OneAtATime(n)
    ensures OneAtATime(CommitAlone(n))
  {
    if n.peers == [] {
      CommitOne(n, n.log.End() - 1);
    }
  }

  //
  // Becoming leader
  //

  lemma TakeOverOne(n: Node)
    requires n.Retains() && Orderly(n) && n.election.completed
    ensures OneAtATime(TakeOver(n))
  {
    var r := TakeOver(n);
    TakeOverGoesOver(n);
    TakeOverUncommitted(n);
    TakeOverElection(n);
    if n.quickCommit == 0 {
      FirstPending(n, r);
    } else {
      AboveQuick(n, r);
    }
  }

  lemma FirstPending(n: Node, r: Node)
    requires n.Retains() && Orderly(n) && n.quickCommit == 0 && r.election.completed
    requires r.log == n.log.Append(InitialConfiguration(n)) && r.commitIndex == n.commitIndex
    requires WentTo(n, r, From(r.log, 1))
    ensures OneAtATime(r)
  {
    FirstInForce(n);
    var init := [InitialConfiguration(n)];
    assert Pending(n) == n.log.entries && Pending(r) == n.log.entries + init;
    CountConcat(n.log.entries, init);
    assert init[..0] == [];
  }

  lemma AboveQuick(n: Node, r: Node)
    requires n.Retains() && Orderly(n) && r.log == n.log && r.commitIndex == n.commitIndex
    requires WentTo(n, r, From(n.log, n.quickCommit + 1)) && r.election.completed
    ensures OneAtATime(r)
  {
    var above := From(n.log, n.quickCommit + 1);
    NoneCounted(above);
    NoneCounted(Pending(n));
    if Count(Pending(n)) == 1 {
      LastAboveQuick(n);
    }
  }

  lemma TakeOverElection(n: Node)
    requires n.Retains()
    ensures TakeOver(n).election == n.election && TakeOver(n).role == n.role
  {
    var n1 := if n.quickCommit == 0 then AddInitialConfiguration(n) else n;
    DetectKeepsElection(n1.(peers := StartPeers(n1.peers, n1.log.End())), n1.quickCommit + 1);
  }

  lemma {:induction false} DetectKeepsElection(n: Node, index: nat)
    requires n.log.start <= index
    ensures DetectConfigurations(n, index).election == n.election
    ensures DetectConfigurations(n, index).role == n.role
    decreases n.log.End() - index
  {
    if index < n.log.End() {
      var value := n.log.At(index).value;
      DetectKeepsElection(if value.Configuration?
                          then Reconfigure(n, value.servers).(configurationChanging := true) else n,
                          index + 1);
    }
  }

  lemma OrderlyLike(n: Node, r: Node)
    requires r.log == n.log && r.commitIndex == n.commitIndex && r.quickCommit == n.quickCommit
    ensures Orderly(r) <==> Orderly(n)
  {}

  lemma BecomeLeaderOne(n: Node)
    requires n.Retains() && Orderly(n)
    ensures OneAtATime(BecomeLeader(n))
  {
    var n1 := CompleteElection(n);
    var n2 := n1.(election := n1.election.(timerStarted := false, transients := []),
                  role := Leader, leaderId := Some(n.id));
    var n3 := ApplyTransientStates(n2, n1.election.transients);
    OrderlyLike(n, n3);
    TakeOverOne(n3);
    CommitAloneOne(TakeOver(n3));
  }

  lemma BecomeLeaderLeads(n: Node)
    requires n.Retains()
    ensures BecomeLeader(n).role == Leader
  {
    var n1 := CompleteElection(n);
    var n2 := n1.(election := n1.election.(timerStarted := false, transients := []),
                  role := Leader, leaderId := Some(n.id));
    var n3 := ApplyTransientStates(n2, n1.election.transients);
    TakeOverElection(n3);
    LeadsAlone(TakeOver(n3));
  }

  lemma LeadsAlone(n: Node)
    requires n.Retains()
    ensures CommitAlone(n).role == n.role
  {
    if n.peers == [] {
      CommitKeepsElection(n, n.log.End() - 1);
    }
  }

  /** A server that stands for election leads at once if and only if it is alone. */
  lemma StandsOne(n: Node)
    requires n.Retains() && n.role == Candidate && (RequestVoteForSelf(n).node.role == Leader ==> Orderly(n))
    ensures OneAtATime(RequestVoteForSelf(n).node)
  {
    var n1 := ClearElection(RestartTimer(n));
    OrderlyLike(n, n1);
    if n1.peers == [] {
      AloneLeads(n, n1);
      BecomeLeaderLeads(n1);
      BecomeLeaderOne(n1);
    }
  }

  lemma BecomeCandidateOne(n: Node)
    requires n.Retains() && n.role != Leader && (BecomeCandidate(n).node.role == Leader ==> Orderly(n))
    ensures OneAtATime(BecomeCandidate(n).node)
  {
    if n.role != Candidate {
      var n1 := EnterTerm(n);
      OrderlyLike(n, n1);
      StandsOne(n1);
    }
  }

  //
  // Every handler
  //

  /** If the handler makes the server leader, it finds what it must. */
  predicate TakesOver(n: Node, r: Node) {
    n.role != Leader && r.role == Leader ==> Orderly(n)
  }

  lemma TimeoutOne(n: Node)
    requires n.Retains() && n.role != Leader && TakesOver(n, RequestElection(n).node)
    ensures OneAtATime(RequestElection(n).node)
  {
    if !n.catchingUp && !n.election.locked {
      var n1 := ClearElection(RestartTimer(n));
      OrderlyLike(n, n1);
      if n1.peers == [] {
        BecomeCandidateOne(n1);
      }
    }
  }

  lemma VoteRequestOne(n: Node, request: VoteRequest, open: bool)
    requires n.Retains() && OneAtATime(n)
    ensures OneAtATime(HandleVoteRequest(n, request, open).0)
  {
    var r := HandleVoteRequest(n, request, open).0;
    VoterEffect(n, request);
    if r.role == Leader {
      AlikeOne(n, r);
    }
  }

  lemma VoteResponseOne(n: Node, from: Id, response: VoteResponse)
    requires n.Retains() && OneAtATime(n) && TakesOver(n, HandlePeerVoteResponse(n, from, response).node)
    ensures OneAtATime(HandlePeerVoteResponse(n, from, response).node)
  {
    if PeerIndex(n.peers, from) < |n.peers| && CheckTerm(n, response.term).1 {
      VoteCountedOne(n, response);
    }
  }

  lemma VoteCountedOne(n: Node, response: VoteResponse)
    requires n.Retains() && OneAtATime(n) && TakesOver(n, HandleVoteResponse(n, response).node)
    ensures OneAtATime(HandleVoteResponse(n, response).node)
  {
    if !n.election.completed && response.serverId !in n.election.voted {
      var n1 := Tally(n, response);
      OrderlyLike(n, n1);
      if n1.election.granted > (|n1.peers| + 1) / 2 {
        DecidedOne(n1);
      }
    }
  }

  lemma DecidedOne(n: Node)
    requires n.Retains() && n.role != Leader
    requires (if n.election.preVote then BecomeCandidate(n).node else BecomeLeader(n)).role == Leader ==> Orderly(n)
    ensures OneAtATime(if n.election.preVote then BecomeCandidate(n).node else BecomeLeader(n))
  {
    if n.election.preVote {
      BecomeCandidateOne(n);
    } else {
      BecomeLeaderLeads(n);
      BecomeLeaderOne(n);
    }
  }

  lemma AppendRequestOne(n: Node, request: AppendRequest)
    requires n.Retains() && AppendRequestAllowed(n, request) && OneAtATime(n)
    ensures OneAtATime(HandleAppendRequest(n, request).0)
    ensures HandleAppendRequest(n, request).0.role == Leader ==> n.role == Leader
  {
    if request.serverId in n.servers {
      AcknowledgedReplicates(n, request);
      AcknowledgeEffect(n, request);
      ReplicateOne(n, Acknowledge(n, request), request);
    }
  }

  /** Only a request of an earlier term finds a leader still, which refuses it. */
  lemma ReplicateOne(n: Node, n1: Node, request: AppendRequest)
    requires OneAtATime(n) && Replicates(n1, request) && (n1 == n || n1.role == Follower)
    requires n1.role == Leader ==> request.term < n.term
    ensures OneAtATime(Replicate(n1, request).0)
    ensures Replicate(n1, request).0.role == Leader ==> n.role == Leader
  {
    var transfer := TransferRequired(n1.log, request);
    var n2 := if transfer then n1.(transferring := true) else n1;
    if request.term < n2.term || !Fits(n2.log, request) || n2.transferring {
      ReplicateRejects(n1, request, n2, transfer);
      if n1 == n {
        AlikeOne(n, n2);
      }
    } else {
      ReplicateAccepts(n1, request);
      CommitKeepsElection(TakeEntries(n1, request), request.commitIndex);
    }
  }

  lemma AppendResponseOne(n: Node, from: Id, response: AppendResponse)
    requires n.Retains() && OneAtATime(n) && (response.accepted ==> response.nextIndex >= 1)
    ensures OneAtATime(HandlePeerAppendResponse(n, from, response).0)
    ensures HandlePeerAppendResponse(n, from, response).0.role == Leader ==> n.role == Leader
  {
    if PeerIndex(n.peers, from) < |n.peers| && CheckTerm(n, response.term).1 {
      MatchedOne(n, response);
    }
  }

  lemma MatchedOne(n: Node, response: AppendResponse)
    requires n.Retains() && OneAtATime(n) && (response.accepted ==> response.nextIndex >= 1)
    ensures OneAtATime(HandleAppendResponse(n, response).0)
    ensures HandleAppendResponse(n, response).0.role == n.role
  {
    var i := PeerIndex(n.peers, response.serverId);
    if n.role == Leader && i < |n.peers| {
      if response.accepted {
        var n1 := n.(peers := n.peers[i := n.peers[i].(rewindStep := 1, nextIndex := response.nextIndex,
                                                       matched := response.nextIndex - 1)]);
        ResponseAccepted(n, response, i, n1);
        AlikeOne(n, n1);
        CommitOne(n1, Median(Reached(n1)));
        CommitKeepsElection(n1, Median(Reached(n1)));
      } else {
        ResponseRejected(n, response, i);
        AlikeOne(n, HandleAppendResponse(n, response).0);
      }
    }
  }

  /** What a client publishes is no change. */
  lemma ReceivedOne(n: Node, request: PublishRequest)
    requires n.Retains() && OneAtATime(n) && n.role == Leader
    ensures OneAtATime(Received(n, request)) && Received(n, request).role == n.role
  {
    var n1, r := n.(sessions := Sessions.Ensure(n.sessions, request.clientId)), Received(n, request);
    ReceivedKeeps(n1, request.clientId, request.messages);
    MoreEntries(n, r, r.log.entries[|n.log.entries|..]);
  }

  lemma MoreEntries(n: Node, r: Node, more: seq<Entry>)
    requires n.Retains() && OneAtATime(n) && n.role == r.role == Leader && r.election == n.election
    requires forall k :: 0 <= k < |more| ==> more[k].value.Application?
    requires r.log == n.log.(entries := n.log.entries + more) && r.commitIndex == n.commitIndex
    requires r.servers == n.servers && r.configurationChanging == n.configurationChanging
    ensures OneAtATime(r)
  {
    WritesNoChange(more);
    PendingMore(n, r, more);
  }

  lemma PendingMore(n: Node, r: Node, more: seq<Entry>)
    requires n.Retains() && r.log == n.log.(entries := n.log.entries + more) && r.commitIndex == n.commitIndex
    requires Count(more) == 0
    ensures Count(Pending(r)) == Count(Pending(n)) && LastServers(Pending(r)) == LastServers(Pending(n))
  {
    var k := PendingWith(n, r, more);
    assert more == more[..k] + more[k..];
    CountConcat(more[..k], more[k..]);
    CountConcat(Pending(n), more[k..]);
    LastServersConcat(Pending(n), more[k..]);
    NoneCounted(more[k..]);
  }

  lemma PendingWith(n: Node, r: Node, more: seq<Entry>) returns (k: nat)
    requires n.Retains() && r.log == n.log.(entries := n.log.entries + more) && r.commitIndex == n.commitIndex
    ensures k <= |more| && Pending(r) == Pending(n) + more[k..]
  {
    k := if n.commitIndex + 1 <= n.log.End() then 0
         else if n.commitIndex + 1 - n.log.End() <= |more| then n.commitIndex + 1 - n.log.End() else |more|;
  }

  lemma PublishOne(n: Node, request: PublishRequest)
    requires n.Retains() && OneAtATime(n)
    ensures OneAtATime(HandlePublish(n, request).0)
    ensures HandlePublish(n, request).0.role == n.role
  {
    if n.role == Leader {
      ReceivedOne(n, request);
      CommitAloneOne(Received(n, request));
      LeadsAlone(Received(n, request));
    }
  }

  /** A change is taken only if none is pending, and is pending then. */
  lemma ChangeOne(n: Node, servers: seq<Id>)
    requires n.Retains() && OneAtATime(n) && TakesChanges(n)
    ensures OneAtATime(CommitAlone(ChangeServers(n, servers)))
  {
    var n1 := ChangeServers(n, servers);
    NewlyPending(n, n1, Configure(n, servers));
    CommitAloneOne(n1);
  }

  lemma NewlyPending(n: Node, r: Node, e: Entry)
    requires n.Retains() && OneAtATime(n) && TakesChanges(n) && r.role == Leader && r.election == n.election
    requires r.log == n.log.Append(e) && e.value.Configuration? && r.servers == e.value.servers
    requires r.commitIndex == n.commitIndex && r.configurationChanging
    ensures OneAtATime(r)
  {
    var k := if n.commitIndex < n.log.End() then 0 else 1;
    assert Pending(r) == Pending(n) + [e][k..];
    assert [e][..0] == [] && [e][0..] == [e];
    CountConcat(Pending(n), [e][k..]);
    LastServersConcat(Pending(n), [e][k..]);
    NoneCounted(Pending(n));
    LastServersOne(e);
  }

  lemma JoinOne(n: Node, request: JoinRequest, gap: nat)
    requires n.Retains() && OneAtATime(n)
    ensures OneAtATime(HandleJoin(n, request, gap).0)
  {
    if TakesChanges(n) {
      ChangeOne(n, n.servers + [request.serverId]);
    }
  }

  lemma LeaveOne(n: Node, serverId: Id)
    requires n.Retains() && OneAtATime(n)
    ensures OneAtATime(HandleLeave(n, serverId).0)
  {
    if TakesChanges(n) {
      ChangeOne(n, Without(n.servers, serverId));
    }
  }

  lemma CompactingOne(n: Node, count: nat)
    requires n.Retains() && OneAtATime(n) && count <= |n.log.entries| && n.log.start + count <= n.commitIndex
    ensures OneAtATime(n.(log := n.log.Forget(count)))
  {
    assert Pending(n.(log := n.log.Forget(count))) == Pending(n);
  }

  lemma NextOne(n: Node, e: Event)
    requires n.Retains() && Enabled(n, e) && OneAtATime(n) && TakesOver(n, Next(n, e))
    ensures OneAtATime(Next(n, e))
  {
    match e
    case Timeout => TimeoutOne(n);
    case VoteAsked(request, open) => VoteRequestOne(n, request, open);
    case VoteAnswered(from, response) => VoteResponseOne(n, from, response);
    case AppendAsked(request) => AppendRequestOne(n, request);
    case AppendAnswered(from, response) => AppendResponseOne(n, from, response);
    case Publishing(publish) => PublishOne(n, publish);
    case Joining(join, gap) => JoinOne(n, join, gap);
    case Leaving(serverId) => LeaveOne(n, serverId);
    case SteppingDown(lock) =>
    case Locking(locked) => AlikeOne(n, n.(commitsLocked := locked));
    case Compacting(count) => CompactingOne(n, count);
  }

  //
  // Every run of a server
  //

  /** Whenever the server becomes leader it finds one pending configuration at most. */
  predicate OrderlyAt(ns: seq<Node>, k: nat)
    requires k + 1 < |ns|
  {
    TakesOver(ns[k], ns[k + 1])
  }

  ghost predicate OrderlyRun(ns: seq<Node>, events: seq<Event>) {
    && Run(ns, events)
    && forall k: nat {:trigger OrderlyAt(ns, k)} :: k < |events| ==> OrderlyAt(ns, k)
  }

  lemma RunNextOne(ns: seq<Node>, events: seq<Event>, k: nat)
    requires OrderlyRun(ns, events) && k < |events| && OneAtATime(ns[k])
    ensures OneAtATime(ns[k + 1])
  {
    NeverReadsCompacted(ns, events, k);
    assert NextAt(ns, events, k) && OrderlyAt(ns, k);
    NextOne(ns[k], events[k]);
  }

  /**
   In any run of a server that finds at most one pending configuration when it becomes leader, a leader's
   configuration is always the one its log holds above what it committed, if it holds any; it holds one
   at most, and takes no other change before that is committed.
   */
  lemma {:induction false} LeaderHasLast(ns: seq<Node>, events: seq<Event>, k: nat)
    requires OrderlyRun(ns, events) && k < |ns|
    ensures OneAtATime(ns[k])
  {
    if k > 0 {
      LeaderHasLast(ns, events, k - 1);
      RunNextOne(ns, events, k - 1);
    }
  }
}
