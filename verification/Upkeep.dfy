/**
 What handlers keep in order besides the log: the election timer and its lock, which sessions are marked
 as committed, and whom a server takes to lead.
 */
module Upkeep {
  import opened Types
  import opened Sessions
  import opened Handlers
  import opened NodeFacts
  import opened HandedOver
  import opened ServerRuns
  import Changes
  import Continuity

  //
  // The relation
  //

  /** The timer of a leader, or of a server that catches up, is stopped. */
  predicate StopsTimer(n: Node) {
    n.catchingUp || n.role == Leader ==> !n.election.timerStarted
  }

  /** The timer of any other server is started. */
  predicate StartsTimer(n: Node) {
    n.role != Leader ==> n.election.timerStarted
  }

  /** A leader has finished its election. */
  predicate IsElected(n: Node) {
    n.role == Leader ==> n.election.completed
  }

  /** No session waits to be told of a commit. */
  predicate Unmarked(sessions: seq<Session>) {
    forall i :: 0 <= i < |sessions| ==> !sessions[i].committed
  }

  predicate Upholds(n: Node, r: Node) {
    && r.id == n.id && (r.catchingUp ==> n.catchingUp)
    && (StopsTimer(n) ==> StopsTimer(r))
    && (!n.catchingUp && StartsTimer(n) ==> StartsTimer(r))
    && (IsElected(n) ==> IsElected(r))
    && (Unmarked(n.sessions) ==> Unmarked(r.sessions))
  }

  /** The lock of elections is as it was, and so is the leader, if it is not the server itself now. */
  predicate Keeps(n: Node, r: Node) {
    && r.election.locked == n.election.locked
    && (r.leaderId == n.leaderId || r.leaderId == Some(n.id))
  }

  predicate Undisturbed(n: Node, r: Node) {
    Upholds(n, r) && Keeps(n, r)
  }

  lemma UndisturbedTrans(n: Node, m: Node, r: Node)
    requires Undisturbed(n, m) && Undisturbed(m, r)
    ensures Undisturbed(n, r)
  {}

  /** Roles and elections are the same, and perhaps it no longer catches up. */
  predicate SameElection(n: Node, r: Node) {
    r.id == n.id && r.role == n.role && r.election == n.election && r.leaderId == n.leaderId
    && (r.catchingUp ==> n.catchingUp)
  }

  lemma SameIsUndisturbed(n: Node, r: Node)
    requires SameElection(n, r) && (Unmarked(n.sessions) ==> Unmarked(r.sessions))
    ensures Undisturbed(n, r)
  {}

  //
  // Sessions
  //

  lemma PutUnmarked(sessions: seq<Session>, s: Session)
    requires Unmarked(sessions) && !s.committed
    ensures Unmarked(Put(sessions, s)) && Unmarked(Ensure(sessions, s.clientId))
  {}

  lemma LookupUnmarked(sessions: seq<Session>, id: Id)
    requires Unmarked(sessions)
    ensures !Lookup(sessions, id).committed
  {}

  lemma {:induction false} MarksUnmarked(sessions: seq<Session>, marks: seq<SessionMark>)
    requires Unmarked(sessions)
    ensures Unmarked(ApplyMarks(sessions, marks))
    decreases |marks|
  {
    if marks != [] {
      PutUnmarked(sessions, Lookup(sessions, marks[0].clientId).Commit(marks[0].lastCommitted).(committed := false));
      MarksUnmarked(ApplyMark(sessions, marks[0]), marks[1..]);
    }
  }

  lemma {:induction false} AllMarksUnmarked(sessions: seq<Session>, states: seq<(Id, TransientState)>)
    requires Unmarked(sessions)
    ensures Unmarked(ApplyAllMarks(sessions, states))
    decreases |states|
  {
    if states != [] {
      MarksUnmarked(sessions, states[0].1.sessions);
      AllMarksUnmarked(ApplyMarks(sessions, states[0].1.sessions), states[1..]);
    }
  }

  lemma {:induction false} EntriesUnmarked(sessions: seq<Session>, entries: seq<Entry>)
    requires Unmarked(sessions)
    ensures Unmarked(ReceiveEntries(sessions, entries))
    decreases |entries|
  {
    if entries != [] {
      var e := entries[0];
      if e.clientId.Some? {
        LookupUnmarked(sessions, e.clientId.value);
        PutUnmarked(sessions, Lookup(sessions, e.clientId.value).(lastReceived := e.messageId));
      }
      EntriesUnmarked(ReceiveEntry(sessions, e), entries[1..]);
    }
  }

  lemma {:induction false} MessagesUnmarked(n: Node, clientId: Id, messages: seq<Message>)
    requires Unmarked(n.sessions)
    ensures Unmarked(ReceiveMessages(n, clientId, messages).sessions)
    decreases |messages|
  {
    if messages != [] {
      var session := Lookup(n.sessions, clientId);
      LookupUnmarked(n.sessions, clientId);
      PutUnmarked(n.sessions, session.Receive(messages[0].id));
      var n1 := n.(sessions := Put(n.sessions, session.Receive(messages[0].id)));
      var n2 := if session.Expects(messages[0].id)
                then n1.(log := n1.log.Append(
                           Entry(n.term, Application(messages[0].bytes), Some(clientId), messages[0].id)))
                else n1;
      MessagesUnmarked(n2, clientId, messages[1..]);
    }
  }

  //
  // Commits and configurations
  //

  lemma CommitUndisturbed(n: Node, index: nat)
    requires n.Retains()
    ensures Undisturbed(n, Commit(n, index))
  {
    Changes.CommitKeepsElection(n, index);
    Continuity.CommitFollows(n, index);
    CommitKeepsLeaderId(n, index);
    CommitUnmarks(if index > n.quickCommit then n.(quickCommit := index) else n);
  }

  lemma CommitUnmarks(n: Node)
    requires n.Retains()
    ensures Unmarked(n.sessions) ==> Unmarked(LocalCommit(n).sessions)
  {}

  lemma CommitKeepsLeaderId(n: Node, index: nat)
    requires n.Retains()
    ensures Commit(n, index).leaderId == n.leaderId
  {
    CommitEntriesKeepLeaderId(if index > n.quickCommit then n.(quickCommit := index) else n);
  }

  lemma {:induction false} CommitEntriesKeepLeaderId(n: Node)
    requires n.Retains()
    ensures CommitEntries(n).leaderId == n.leaderId
    decreases n.quickCommit - n.commitIndex
  {
    if CommitDue(n) {
      CommitEntriesKeepLeaderId(CommitNext(n));
    }
  }

  lemma CommitAloneUndisturbed(n: Node)
    requires n.Retains()
    ensures Undisturbed(n, CommitAlone(n))
  {
    AloneIs(n, CommitAlone(n));
    if n.peers == [] {
      CommitUndisturbed(n, n.log.End() - 1);
    }
  }

  lemma AloneIs(n: Node, r: Node)
    requires n.Retains() && r == CommitAlone(n)
    ensures r == if n.peers == [] then Commit(n, n.log.End() - 1) else n
  {}

  lemma {:induction false} DetectUndisturbed(n: Node, index: nat)
    requires n.log.start <= index
    ensures Undisturbed(n, DetectConfigurations(n, index))
    decreases n.log.End() - index
  {
    if index < n.log.End() {
      var value := n.log.At(index).value;
      var m := if value.Configuration? then Reconfigure(n, value.servers).(configurationChanging := true) else n;
      SameIsUndisturbed(n, m);
      DetectUndisturbed(m, index + 1);
      UndisturbedTrans(n, m, DetectConfigurations(m, index + 1));
    }
  }

  //
  // Elections
  //

  lemma OnLeaderUndisturbed(n: Node)
    requires n.Retains()
    ensures Undisturbed(n, OnLeader(n))
  {
    var n1 := TakeOverIs(n);
    SameIsUndisturbed(n, n1);
    TakesOverUndisturbed(n, n1, TakeOver(n));
    CommitAloneUndisturbed(TakeOver(n));
    UndisturbedTrans(n, TakeOver(n), OnLeader(n));
  }

  lemma TakesOverUndisturbed(n: Node, n1: Node, r: Node)
    requires Undisturbed(n, n1) && n1.log.start <= n1.quickCommit + 1
    requires r == DetectConfigurations(n1, n1.quickCommit + 1)
    ensures Undisturbed(n, r)
  {
    DetectUndisturbed(n1, n1.quickCommit + 1);
    UndisturbedTrans(n, n1, r);
  }

  lemma BecomeLeaderUndisturbed(n: Node)
    requires n.Retains()
    ensures Undisturbed(n, BecomeLeader(n))
  {
    var n1 := CompleteElection(n);
    var n2 := n1.(election := n1.election.(timerStarted := false, transients := []),
                  role := Leader, leaderId := Some(n.id));
    var n3 := ApplyTransientStates(n2, n1.election.transients);
    if Unmarked(n.sessions) {
      AllMarksUnmarked(n.sessions, n.election.transients);
      EntriesUnmarked(ApplyAllMarks(n.sessions, n.election.transients), Scanned(n2, n.election.transients));
    }
    assert Undisturbed(n, n3);
    OnLeaderUndisturbed(n3);
    UndisturbedTrans(n, n3, OnLeader(n3));
  }

  lemma StandsUndisturbed(n: Node)
    requires n.Retains() && n.role == Candidate
    ensures Undisturbed(n, RequestVoteForSelf(n).node)
  {
    var n1 := ClearElection(RestartTimer(n));
    assert Undisturbed(n, n1);
    if n1.peers == [] {
      AloneLeads(n, n1);
      BecomeLeaderUndisturbed(n1);
      UndisturbedTrans(n, n1, BecomeLeader(n1));
    }
  }

  lemma BecomeCandidateUndisturbed(n: Node)
    requires n.Retains() && n.role != Leader
    ensures Undisturbed(n, BecomeCandidate(n).node)
  {
    if n.role != Candidate {
      var n1 := EnterTerm(n);
      assert Undisturbed(n, n1);
      StandsUndisturbed(n1);
      UndisturbedTrans(n, n1, RequestVoteForSelf(n1).node);
    }
  }

  lemma TimeoutUndisturbed(n: Node)
    requires n.Retains() && n.role != Leader
    ensures Undisturbed(n, RequestElection(n).node)
  {
    if !n.catchingUp && !n.election.locked {
      var n1 := ClearElection(RestartTimer(n));
      assert Undisturbed(n, n1);
      if n1.peers == [] {
        BecomeCandidateUndisturbed(n1);
        UndisturbedTrans(n, n1, BecomeCandidate(n1).node);
      }
    }
  }

  lemma FollowerUndisturbed(n: Node, term: nat)
    ensures Undisturbed(n, BecomeFollower(n)) && Undisturbed(n, BecomeFollower(UpdateTerm(n, term)))
    ensures StartsTimer(BecomeFollower(n)) || n.catchingUp
  {}

  lemma VoteRequestUndisturbed(n: Node, request: VoteRequest, open: bool)
    requires n.log.start >= 1
    ensures Undisturbed(n, HandleVoteRequest(n, request, open).0)
  {
    FollowerUndisturbed(n, request.term);
    assert Undisturbed(n, Voter(n, request));
  }

  lemma VoteResponseUndisturbed(n: Node, from: Id, response: VoteResponse)
    requires n.Retains() && (n.role == Leader ==> n.election.completed)
    ensures Undisturbed(n, HandlePeerVoteResponse(n, from, response).node)
  {
    FollowerUndisturbed(n, response.term);
    if PeerIndex(n.peers, from) < |n.peers| && CheckTerm(n, response.term).1 {
      CountedUndisturbed(n, response);
    }
  }

  lemma CountedUndisturbed(n: Node, response: VoteResponse)
    requires n.Retains() && (n.role == Leader ==> n.election.completed)
    ensures Undisturbed(n, HandleVoteResponse(n, response).node)
  {
    if !n.election.completed && response.serverId !in n.election.voted {
      Continuity.CountedIs(n, response);
      CountsUndisturbed(n, Tally(n, response), HandleVoteResponse(n, response).node);
    }
  }

  lemma CountsUndisturbed(n: Node, n1: Node, r: Node)
    requires n1.Retains() && n1.role != Leader && n1 == n.(election := n1.election)
    requires n1.election.timerStarted == n.election.timerStarted && n1.election.locked == n.election.locked
    requires r == n || r == n1 || r == BecomeCandidate(n1).node || r == BecomeLeader(n1)
    ensures Undisturbed(n, r)
  {
    assert Undisturbed(n, n1);
    if r == BecomeLeader(n1) {
      BecomeLeaderUndisturbed(n1);
      UndisturbedTrans(n, n1, r);
    } else if r == BecomeCandidate(n1).node {
      BecomeCandidateUndisturbed(n1);
      UndisturbedTrans(n, n1, r);
    }
  }

  //
  // Replication
  //

  /** A request from a server of the group, of this term or a later one, but not to a rival of this term. */
  predicate HearsLeader(n: Node, request: AppendRequest) {
    request.serverId in n.servers && (request.term > n.term || (request.term == n.term && n.role != Candidate))
  }

  lemma AcknowledgeUpholds(n: Node, request: AppendRequest)
    requires request.serverId in n.servers && !(n.role == Leader && request.term == n.term)
    ensures var r := Acknowledge(n, request);
      && Upholds(n, r) && r.leaderId == n.leaderId
      && r.election.locked == (n.election.locked && !HearsLeader(n, request))
      && (request.term >= n.term ==> r.catchingUp || r.election.timerStarted)
  {
    FollowerUndisturbed(n, request.term);
  }

  /** A request disturbs only the lock, and, if it is accepted, whom the server takes to lead. */
  lemma AppendRequestUpholds(n: Node, request: AppendRequest)
    requires n.Retains() && AppendRequestAllowed(n, request)
    ensures var (r, response) := HandleAppendRequest(n, request);
      && Upholds(n, r)
      && r.election.locked == (n.election.locked && !HearsLeader(n, request))
      && r.leaderId == if response.accepted then Some(request.serverId) else n.leaderId
  {
    if request.serverId in n.servers {
      AcknowledgedReplicates(n, request);
      AcknowledgeUpholds(n, request);
      ReplicateUpholds(Acknowledge(n, request), request);
    }
  }

  lemma ReplicateUpholds(n: Node, request: AppendRequest)
    requires Replicates(n, request)
    ensures var (r, response) := Replicate(n, request);
      && Upholds(n, r) && r.election == n.election && r.role == n.role
      && r.leaderId == if response.accepted then Some(request.serverId) else n.leaderId
  {
    var transfer := TransferRequired(n.log, request);
    var n1 := if transfer then n.(transferring := true) else n;
    if request.term < n1.term || !Fits(n1.log, request) || n1.transferring {
      ReplicateRejects(n, request, n1, transfer);
    } else {
      ReplicateAccepts(n, request);
      CommitUndisturbed(TakeEntries(n, request), request.commitIndex);
      Changes.CommitKeepsElection(TakeEntries(n, request), request.commitIndex);
      CommitKeepsLeaderId(TakeEntries(n, request), request.commitIndex);
    }
  }

  lemma AppendResponseUndisturbed(n: Node, from: Id, response: AppendResponse)
    requires n.Retains() && (response.accepted ==> response.nextIndex >= 1)
    ensures Undisturbed(n, HandlePeerAppendResponse(n, from, response).0)
  {
    FollowerUndisturbed(n, response.term);
    if PeerIndex(n.peers, from) < |n.peers| && CheckTerm(n, response.term).1 {
      MatchedUndisturbed(n, response);
    }
  }

  lemma MatchedUndisturbed(n: Node, response: AppendResponse)
    requires n.Retains() && (response.accepted ==> response.nextIndex >= 1)
    ensures Undisturbed(n, HandleAppendResponse(n, response).0)
  {
    var i := PeerIndex(n.peers, response.serverId);
    if n.role == Leader && i < |n.peers| {
      if response.accepted {
        var n1 := n.(peers := n.peers[i := n.peers[i].(rewindStep := 1, nextIndex := response.nextIndex,
                                                       matched := response.nextIndex - 1)]);
        ResponseAccepted(n, response, i, n1);
        SameIsUndisturbed(n, n1);
        CommitUndisturbed(n1, Median(Reached(n1)));
        UndisturbedTrans(n, n1, Commit(n1, Median(Reached(n1))));
      } else {
        ResponseRejected(n, response, i);
        SameIsUndisturbed(n, HandleAppendResponse(n, response).0);
      }
    }
  }

  lemma PublishUndisturbed(n: Node, request: PublishRequest)
    requires n.Retains()
    ensures Undisturbed(n, HandlePublish(n, request).0)
  {
    if n.role == Leader {
      var n1, r := n.(sessions := Ensure(n.sessions, request.clientId)), Received(n, request);
      ReceivedKeeps(n1, request.clientId, request.messages);
      if Unmarked(n.sessions) {
        PutUnmarked(n.sessions, NewSession(request.clientId));
        MessagesUnmarked(n1, request.clientId, request.messages);
      }
      SameIsUndisturbed(n, r);
      CommitAloneUndisturbed(r);
      UndisturbedTrans(n, r, CommitAlone(r));
    }
  }

  lemma ChangeUndisturbed(n: Node, servers: seq<Id>)
    requires n.Retains()
    ensures Undisturbed(n, CommitAlone(ChangeServers(n, servers)))
  {
    var n1 := ChangeServers(n, servers);
    SameIsUndisturbed(n, n1);
    CommitAloneUndisturbed(n1);
    UndisturbedTrans(n, n1, CommitAlone(n1));
  }

  lemma JoinUndisturbed(n: Node, request: JoinRequest, gap: nat)
    requires n.Retains()
    ensures Undisturbed(n, HandleJoin(n, request, gap).0)
  {
    ChangeUndisturbed(n, n.servers + [request.serverId]);
  }

  lemma LeaveUndisturbed(n: Node, serverId: Id)
    requires n.Retains()
    ensures Undisturbed(n, HandleLeave(n, serverId).0)
  {
    ChangeUndisturbed(n, Without(n.servers, serverId));
  }

  lemma StepDownUpholds(n: Node, lock: bool)
    ensures var r := StepDown(n, lock);
      && Upholds(n, r) && r.election.locked == (n.election.locked || lock) && r.leaderId == n.leaderId
  {
    FollowerUndisturbed(n, n.term);
  }

  //
  // Every run of a server
  //

  lemma AsideUndisturbed(n: Node, e: Event)
    requires n.Retains() && Enabled(n, e) && (e.Locking? || e.Compacting?)
    ensures Undisturbed(n, Next(n, e))
  {
    SameIsUndisturbed(n, Next(n, e));
  }

  lemma NextUpholds(n: Node, e: Event)
    requires n.Retains() && Enabled(n, e) && IsElected(n)
    ensures Upholds(n, Next(n, e))
    ensures !e.AppendAsked? && !e.SteppingDown? ==> Keeps(n, Next(n, e))
  {
    match e
    case Timeout => TimeoutUndisturbed(n);
    case VoteAsked(request, open) => VoteRequestUndisturbed(n, request, open);
    case VoteAnswered(from, response) => VoteResponseUndisturbed(n, from, response);
    case AppendAsked(request) => AppendRequestUpholds(n, request);
    case AppendAnswered(from, response) => AppendResponseUndisturbed(n, from, response);
    case Publishing(publish) => PublishUndisturbed(n, publish);
    case Joining(join, gap) => JoinUndisturbed(n, join, gap);
    case Leaving(serverId) => LeaveUndisturbed(n, serverId);
    case SteppingDown(lock) => StepDownUpholds(n, lock);
    case _ => AsideUndisturbed(n, e);
  }

  /** What holds of a server at any time in any run. */
  predicate Settled(n: Node) {
    StopsTimer(n) && IsElected(n) && Unmarked(n.sessions)
  }

  lemma {:induction false} AlwaysSettled(ns: seq<Node>, events: seq<Event>, k: nat)
    requires Run(ns, events) && k < |ns|
    ensures Settled(ns[k]) && (!ns[0].catchingUp ==> StartsTimer(ns[k]) && !ns[k].catchingUp)
  {
    if k > 0 {
      AlwaysSettled(ns, events, k - 1);
      NeverReadsCompacted(ns, events, k - 1);
      assert NextAt(ns, events, k - 1);
      NextUpholds(ns[k - 1], events[k - 1]);
    }
  }

  /**
   In any run, the election timer of a server whose group knew it from the start is started exactly when it
   is no leader; that of a server that catches up, or leads, is stopped.
   */
  lemma TimerRuns(ns: seq<Node>, events: seq<Event>, k: nat)
    requires Run(ns, events) && k < |ns|
    ensures ns[0].id in ns[0].servers ==> (ns[k].election.timerStarted <==> ns[k].role != Leader)
    ensures ns[k].catchingUp || ns[k].role == Leader ==> !ns[k].election.timerStarted
  {
    AlwaysSettled(ns, events, k);
  }

  /** In any run, no session is left marked between handlers, so each commit tells a client once. */
  lemma NoneLeftMarked(ns: seq<Node>, events: seq<Event>, k: nat)
    requires Run(ns, events) && k < |ns|
    ensures Unmarked(ns[k].sessions)
  {
    AlwaysSettled(ns, events, k);
  }

  /** A server stands at a timeout unless it catches up or its elections are locked. */
  lemma StandsExactly(n: Node)
    requires n.Retains() && n.role != Leader && n.peers != []
    ensures var effect := RequestElection(n);
      && (effect.broadcast.Some? <==> !n.catchingUp && !n.election.locked)
      && (effect.broadcast.None? ==> effect.node == n)
      && (effect.broadcast.Some? ==>
            && effect.broadcast.value.preVote && effect.broadcast.value.term == n.term == effect.node.term
            && effect.node.votedFor == n.votedFor)
  {}

  lemma {:induction false} LockLasts(ns: seq<Node>, events: seq<Event>, a: nat, b: nat) returns (m: nat)
    requires Run(ns, events) && a <= b < |ns| && ns[a].election.locked && !ns[b].election.locked
    ensures a <= m < b && events[m].AppendAsked? && HearsLeader(ns[m], events[m].append)
    decreases b - a
  {
    NeverReadsCompacted(ns, events, a);
    AlwaysSettled(ns, events, a);
    assert NextAt(ns, events, a);
    NextUpholds(ns[a], events[a]);
    if ns[a + 1].election.locked {
      m := LockLasts(ns, events, a + 1, b);
    } else {
      m := a;
      LockStays(ns[a], events[a], ns[a + 1]);
    }
  }

  lemma LockStays(n: Node, e: Event, r: Node)
    requires n.Retains() && Enabled(n, e) && IsElected(n) && r == Next(n, e) && n.election.locked
    ensures r.election.locked || (e.AppendAsked? && HearsLeader(n, e.append))
  {
    NextUpholds(n, e);
    match e
    case AppendAsked(request) => AppendRequestUpholds(n, request);
    case SteppingDown(lock) => StepDownUpholds(n, lock);
    case _ =>
  }

  /**
   In any run, a leader that closed gracefully stands for no election before a request of a server of its
   group has reached it, of its term or a later one: until then a timeout changes nothing.
   */
  lemma ClosedStandsBack(ns: seq<Node>, events: seq<Event>, a: nat, b: nat)
    requires Run(ns, events) && a < b < |events| && events[a] == SteppingDown(true) && events[b].Timeout?
    requires forall m :: a < m < b ==> !(events[m].AppendAsked? && HearsLeader(ns[m], events[m].append))
    ensures ns[b].election.locked && ns[b + 1] == ns[b]
  {
    NeverReadsCompacted(ns, events, a);
    assert NextAt(ns, events, a);
    StepDownUpholds(ns[a], true);
    if !ns[b].election.locked {
      var m := LockLasts(ns, events, a + 1, b);
    }
    NeverReadsCompacted(ns, events, b);
    assert NextAt(ns, events, b);
  }

  /** In any run, whom a server takes to lead is itself, or the sender of a request that it accepted. */
  lemma {:induction false} LeaderIdOrigin(ns: seq<Node>, events: seq<Event>, k: nat) returns (s: nat)
    requires Run(ns, events) && k < |ns| && ns[k].leaderId.Some? && ns[k].leaderId.value != ns[k].id
    ensures s < k && events[s].AppendAsked? && events[s].append.serverId == ns[k].leaderId.value
    ensures Accepting(ns[s], events[s].append)
  {
    var n := ns[k - 1];
    NeverReadsCompacted(ns, events, k - 1);
    AlwaysSettled(ns, events, k - 1);
    assert NextAt(ns, events, k - 1);
    NextUpholds(n, events[k - 1]);
    NamedAnew(n, events[k - 1], ns[k]);
    if ns[k].leaderId == n.leaderId {
      s := LeaderIdOrigin(ns, events, k - 1);
    } else {
      s := k - 1;
    }
  }

  lemma NamedAnew(n: Node, e: Event, r: Node)
    requires n.Retains() && Enabled(n, e) && IsElected(n) && r == Next(n, e)
    ensures || r.leaderId == n.leaderId || r.leaderId == Some(n.id)
            || (e.AppendAsked? && Accepting(n, e.append) && r.leaderId == Some(e.append.serverId))
  {
    NextUpholds(n, e);
    match e
    case AppendAsked(request) =>
      AppendRequestUpholds(n, request);
      UnknownNotAccepted(n, request);
    case SteppingDown(lock) => StepDownUpholds(n, lock);
    case _ =>
  }

  lemma UnknownNotAccepted(n: Node, request: AppendRequest)
    requires n.Retains() && AppendRequestAllowed(n, request)
    ensures HandleAppendRequest(n, request).1.accepted ==> request.serverId in n.servers
  {}
}
