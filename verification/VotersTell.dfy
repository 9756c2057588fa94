/**
 What voters tell their candidate, and that a leader elected by votes knows it: each client's session has
 committed at least what a majority of the group had.
 */
module VotersTell {
  import opened Types
  import opened Sessions
  import opened SessionFacts
  import opened Handlers
  import opened NodeFacts
  import opened SessionRebuild
  import opened Quorums
  import opened Group
  import opened GroupInv
  import opened GroupSteps
  import opened Safety

  //
  // What a voter tells
  //

  /** The state has what the server knows of every client, and its quick index. */
  predicate TellsAll(n: Node, state: TransientState) {
    && state.commitIndex == n.quickCommit
    && (forall i :: 0 <= i < |n.sessions| ==>
          SessionMark(n.sessions[i].clientId, n.sessions[i].lastCommitted) in state.sessions)
    && forall m :: m in state.sessions ==>
         exists i :: 0 <= i < |n.sessions| && m == SessionMark(n.sessions[i].clientId, n.sessions[i].lastCommitted)
  }

  /** A server tells what it knows with a real vote, and only with that. */
  lemma VoteTells(n: Node, request: VoteRequest, open: bool)
    requires n.log.start >= 1
    ensures var response := HandleVoteRequest(n, request, open).1;
      && (response.transientState.Some? <==> response.accepted && !request.preVote)
      && (response.transientState.Some? ==> TellsAll(n, response.transientState.value))
  {
    var n1 := Voter(n, request).(votedFor := Some(request.serverId));
    StateTells(n1);
  }

  lemma StateTells(n: Node)
    ensures TellsAll(n, AcquireTransientState(n))
  {
    var marks := Marks(n.sessions);
    forall i | 0 <= i < |n.sessions|
      ensures SessionMark(n.sessions[i].clientId, n.sessions[i].lastCommitted) in marks
    {
      assert marks[i] in marks;
    }
    forall m | m in marks
      ensures exists i ::
        0 <= i < |n.sessions| && m == SessionMark(n.sessions[i].clientId, n.sessions[i].lastCommitted)
    {
      var i :| 0 <= i < |marks| && marks[i] == m;
    }
  }

  /** The server's session of each client has committed at least what the other's has. */
  ghost predicate KnowsAtLeast(sessions: seq<Session>, others: seq<Session>) {
    forall me :: Lookup(sessions, me).lastCommitted >= Lookup(others, me).lastCommitted
  }

  lemma OwnMark(m: Node, state: TransientState, me: Id)
    requires TellsAll(m, state)
    ensures Lookup(m.sessions, me).lastCommitted == 0
         || SessionMark(me, Lookup(m.sessions, me).lastCommitted) in state.sessions
  {
    var i := IndexOf(m.sessions, me);
    if i < |m.sessions| {
      assert Lookup(m.sessions, me) == m.sessions[i];
    }
  }

  /** A leader that has heard what a voter told knows at least what the voter knew. */
  lemma HeardKnows(n: Node, states: seq<(Id, TransientState)>, i: nat, m: Node)
    requires i < |states| && TellsAll(m, states[i].1)
    ensures KnowsAtLeast(ApplyTransientStates(n, states).sessions, m.sessions)
  {
    forall me
      ensures Lookup(ApplyTransientStates(n, states).sessions, me).lastCommitted >= Lookup(m.sessions, me).lastCommitted
    {
      SessionsRebuilt(n, states, me);
      OwnMark(m, states[i].1, me);
      var committed := Lookup(m.sessions, me).lastCommitted;
      if committed > 0 {
        var j :| 0 <= j < |states[i].1.sessions| && states[i].1.sessions[j] == SessionMark(me, committed);
        assert Told(states, me, committed, i, j);
      }
    }
  }

  //
  // What a leader looks at in its log
  //

  lemma {:induction false} MinCommitLeast(commitIndex: nat, states: seq<(Id, TransientState)>)
    ensures MinCommit(commitIndex, states) <= commitIndex
    ensures forall i :: 0 <= i < |states| ==> MinCommit(commitIndex, states) <= states[i].1.commitIndex
    decreases |states|
  {
    if states != [] {
      var first := states[0].1.commitIndex;
      MinCommitLeast(if commitIndex > first then first else commitIndex, states[1..]);
    }
  }

  /** It looks at every entry of its log above what any voter that told it had committed. */
  lemma LooksAbove(n: Node, states: seq<(Id, TransientState)>, i: nat, m: Node, index: nat)
    requires i < |states| && TellsAll(m, states[i].1)
    requires n.log.start <= index < n.log.End() && index > m.quickCommit
    ensures n.log.At(index) in Scanned(n, states)
  {
    MinCommitLeast(n.quickCommit, states);
    var from := MinCommit(n.quickCommit, states) + 1;
    var first := if from < n.log.start then n.log.start else from;
    assert Scanned(n, states)[index - first] == n.log.At(index);
  }

  //
  // Where a ballot comes from
  //

  /** In step `s` server `v` votes for the candidate in this term, and tells it what it knows. */
  predicate TellsIn(
    states: seq<Group>, events: seq<Event>, s: nat, v: Id, candidate: Id, term: nat, state: TransientState)
    requires |states| == |events| + 1 && s < |events|
  {
    var e := events[s];
    && e.ReceiveVoteRequest? && e.p.AskVote? && e.p.to == v && e.p.vote.serverId == candidate
    && !e.p.vote.preVote && v < |states[s].nodes| && states[s].nodes[v].log.start >= 1
    && var response := HandleVoteRequest(states[s].nodes[v], e.p.vote, e.open).1;
    && response.accepted && response.term == term && response.transientState == Some(state)
    && TellsAll(states[s].nodes[v], state)
  }

  lemma {:induction false} SentFirst(states: seq<Group>, events: seq<Event>, k: nat, p: Packet) returns (s: nat)
    requires Run(states, events) && k < |states| && p in states[k].net
    ensures s < k && p !in states[s].net && p in states[s + 1].net
  {
    assert k > 0;
    if p in states[k - 1].net {
      s := SentFirst(states, events, k - 1, p);
    } else {
      s := k - 1;
    }
  }

  lemma {:induction false} NetGrows(states: seq<Group>, events: seq<Event>, a: nat, b: nat)
    requires Run(states, events) && a <= b < |states|
    ensures states[a].net <= states[b].net
    decreases b - a
  {
    if a < b {
      NetGrows(states, events, a, b - 1);
      assert StepAt(states, events, b - 1);
      StepSends(states[b - 1], events[b - 1], states[b]);
    }
  }

  lemma StepSends(g: Group, e: Event, g': Group)
    requires Step(g, e, g')
    ensures g.net <= g'.net
  {}

  /** Only a vote request is answered with a ballot. */
  lemma BallotOfStep(g: Group, e: Event, g': Group, p: Packet)
    requires AlwaysInv(g) && Step(g, e, g') && p in g'.net && p !in g.net && p.AnswerVote?
    ensures e.ReceiveVoteRequest? && e.p in g.net && e.p.AskVote? && e.p.to < |g.nodes|
    ensures g.nodes[e.p.to].log.start >= 1 && p.to == e.p.vote.serverId
    ensures p.ballot == HandleVoteRequest(g.nodes[e.p.to], e.p.vote, e.open).1
  {
    assert e.ReceiveVoteRequest? ==> NodeOk(g, e.p.to);
  }

  /** An accepted ballot, unless it may answer a pre-vote, tells what the voter knew when it voted. */
  lemma BallotOrigin(states: seq<Group>, events: seq<Event>, k: nat, p: Packet) returns (s: nat)
    requires Run(states, events) && k < |states| && p in states[k].net && p.AnswerVote? && p.ballot.accepted
    requires !AskedPreVote(states[k].net, p.to, p.ballot.term)
    ensures s < k && p.ballot.transientState.Some?
    ensures TellsIn(states, events, s, p.ballot.serverId, p.to, p.ballot.term, p.ballot.transientState.value)
  {
    s := SentFirst(states, events, k, p);
    RunInv(states, events, s);
    assert StepAt(states, events, s);
    BallotOfStep(states[s], events[s], states[s + 1], p);
    NetGrows(states, events, s, k);
    RealBallot(states[s], events[s].p, events[s].open, p.ballot);
    AskedForReal(states[k].net, events[s].p);
  }

  lemma AskedForReal(net: set<Packet>, p: Packet)
    requires p in net && p.AskVote? && !AskedPreVote(net, p.vote.serverId, p.vote.term)
    ensures !p.vote.preVote
  {}

  lemma RealBallot(g: Group, p: Packet, open: bool, ballot: VoteResponse)
    requires p.AskVote? && p.to < |g.nodes| && NodeOk(g, p.to) && g.nodes[p.to].log.start >= 1
    requires ballot == HandleVoteRequest(g.nodes[p.to], p.vote, open).1 && ballot.accepted
    ensures ballot.serverId == p.to && ballot.term == p.vote.term
    ensures !p.vote.preVote ==>
      ballot.transientState.Some? && TellsAll(g.nodes[p.to], ballot.transientState.value)
  {
    VoteRequestEffect(g.nodes[p.to], p.vote, open);
    VoteTells(g.nodes[p.to], p.vote, open);
  }

  //
  // What a candidate has heard
  //

  /** The server counts real votes. */
  predicate Counts(n: Node) {
    n.role == Candidate && !n.election.preVote && !n.election.completed
  }

  /** What the server keeps of its vote count if it goes on with it: its count, or that of its own vote. */
  predicate GoesOn(n: Node, n': Node) {
    Counts(n') ==>
      || (Counts(n) && n'.term == n.term && n'.election.voted == n.election.voted
          && n'.election.granted == n.election.granted && n'.election.transients == n.election.transients)
      || (n'.election.granted == 1 && n'.election.transients == [])
  }

  /** A server among others does not become leader by this. */
  predicate Refrains(n: Node, n': Node) {
    n.role != Leader && n.peers != [] ==> n'.role != Leader
  }

  function Tellers(transients: seq<(Id, TransientState)>): set<Id> {
    set i | 0 <= i < |transients| :: transients[i].0
  }

  /** Each state the candidate keeps was told by another server with its vote of this term. */
  ghost predicate HeardFrom(
    states: seq<Group>, events: seq<Event>, k: nat, i: Id, term: nat, told: (Id, TransientState))
    requires |states| == |events| + 1 && k <= |events|
  {
    told.0 != i && exists s: nat :: s < k && TellsIn(states, events, s, told.0, i, term, told.1)
  }

  ghost predicate HeardAll(
    states: seq<Group>, events: seq<Event>, k: nat, i: Id, term: nat, transients: seq<(Id, TransientState)>)
    requires |states| == |events| + 1 && k <= |events|
  {
    forall m {:trigger transients[m]} :: 0 <= m < |transients| ==> HeardFrom(states, events, k, i, term, transients[m])
  }

  /** Everyone who granted a vote, but the candidate itself, has told what it knows. */
  predicate Tallies(voted: seq<Id>, granted: nat, transients: seq<(Id, TransientState)>) {
    && granted <= |transients| + 1
    && (forall a, b :: 0 <= a < b < |transients| ==> transients[a].0 != transients[b].0)
    && forall a :: 0 <= a < |transients| ==> transients[a].0 in voted
  }

  ghost predicate HasHeard(
    states: seq<Group>, events: seq<Event>, k: nat, i: Id, term: nat, e: Election)
    requires |states| == |events| + 1 && k <= |events|
  {
    Tallies(e.voted, e.granted, e.transients) && HeardAll(states, events, k, i, term, e.transients)
  }

  lemma HeardLater(
    states: seq<Group>, events: seq<Event>, k: nat, k': nat, i: Id, term: nat, transients: seq<(Id, TransientState)>)
    requires |states| == |events| + 1 && k <= k' <= |events| && HeardAll(states, events, k, i, term, transients)
    ensures HeardAll(states, events, k', i, term, transients)
  {
    forall m | 0 <= m < |transients| ensures HeardFrom(states, events, k', i, term, transients[m]) {
      assert HeardFrom(states, events, k, i, term, transients[m]);
    }
  }

  lemma {:induction false} PutNew(transients: seq<(Id, TransientState)>, id: Id, state: TransientState)
    requires forall a :: 0 <= a < |transients| ==> transients[a].0 != id
    ensures PutTransient(transients, id, state) == transients + [(id, state)]
  {
    if transients != [] {
      PutNew(transients[1..], id, state);
    }
  }

  lemma TallyHears(n: Node, ballot: VoteResponse)
    requires Tallies(n.election.voted, n.election.granted, n.election.transients)
    requires Counts(n) && ballot.serverId !in n.election.voted
    requires ballot.accepted ==> ballot.transientState.Some?
    ensures var e := Tally(n, ballot).election;
      && Tallies(e.voted, e.granted, e.transients)
      && e.transients == n.election.transients
                         + if ballot.accepted then [(ballot.serverId, ballot.transientState.value)] else []
  {
    var e, e' := n.election, Tally(n, ballot).election;
    TallyEffect(n, ballot);
    if ballot.accepted {
      PutNew(e.transients, ballot.serverId, ballot.transientState.value);
      assert e'.transients == e.transients + [(ballot.serverId, ballot.transientState.value)];
    }
    OneMoreTallies(e, e', ballot);
  }

  lemma OneMoreTallies(e: Election, e': Election, ballot: VoteResponse)
    requires Tallies(e.voted, e.granted, e.transients) && ballot.serverId !in e.voted
    requires e'.voted == e.voted + [ballot.serverId] && e'.granted <= e.granted + |e'.transients| - |e.transients|
    requires e'.transients == e.transients
          || (|e'.transients| == |e.transients| + 1 && e.transients <= e'.transients
              && e'.transients[|e.transients|].0 == ballot.serverId)
    ensures Tallies(e'.voted, e'.granted, e'.transients)
  {
    forall a | 0 <= a < |e'.transients| ensures e'.transients[a].0 in e'.voted {
      if a < |e.transients| {
        assert e'.transients[a] == e.transients[a];
      }
    }
  }

  //
  // Every step
  //

  lemma TimeoutGoesOn(n: Node)
    requires n.Retains() && Fixed(n) && n.role != Leader && (n.role == Candidate ==> n.peers != [])
    ensures GoesOn(n, RequestElection(n).node) && Refrains(n, RequestElection(n).node)
  {
    if !n.election.locked && n.peers == [] {
      BecomeCandidateAlone(ClearElection(RestartTimer(n)));
    }
  }

  lemma VoteRequestGoesOn(n: Node, request: VoteRequest, open: bool)
    requires n.log.start >= 1
    ensures GoesOn(n, HandleVoteRequest(n, request, open).0) && Refrains(n, HandleVoteRequest(n, request, open).0)
  {
    VoteRequestEffect(n, request, open);
  }

  lemma AppendRequestGoesOn(n: Node, request: AppendRequest)
    requires n.Retains() && n.log.start == 1 && Fixed(n) && !n.transferring
    requires AppendRequestAllowed(n, request) && request.serverId in n.servers
    requires request.transfer.None? && SameServers(n.servers, request.entries)
    ensures GoesOn(n, HandleAppendRequest(n, request).0) && Refrains(n, HandleAppendRequest(n, request).0)
  {
    AppendEffect(n, request);
  }

  lemma AppendResponseGoesOn(n: Node, response: AppendResponse)
    requires n.Retains() && (response.accepted ==> response.nextIndex >= 1)
    requires PeerIndex(n.peers, response.serverId) < |n.peers|
    ensures GoesOn(n, HandlePeerAppendResponse(n, response.serverId, response).0)
    ensures Refrains(n, HandlePeerAppendResponse(n, response.serverId, response).0)
  {
    AppendResponseCases(n, response);
    if response.nextIndex >= 1 {
      var n1 := MatchedPeer(n, response);
      CommitKeepsTerm(n1, Median(Reached(n1)));
    }
  }

  lemma PublishGoesOn(n: Node, request: PublishRequest)
    requires n.Retains() && Fixed(n)
    ensures GoesOn(n, HandlePublish(n, request).0) && Refrains(n, HandlePublish(n, request).0)
  {
    if n.role == Leader {
      PublishEffect(n, request);
    }
  }

  lemma OtherStepGoesOn(g: Group, e: Event, g': Group)
    requires AlwaysInv(g) && Step(g, e, g') && Actor(e) < |g.nodes| == |g'.nodes|
    requires !e.ReceiveVoteResponse?
    ensures GoesOn(g.nodes[Actor(e)], g'.nodes[Actor(e)]) && Refrains(g.nodes[Actor(e)], g'.nodes[Actor(e)])
  {
    var n := g.nodes[Actor(e)];
    assert NodeOk(g, Actor(e));
    assert (e.ReceiveAppendRequest? || e.ReceiveAppendResponse?) ==> PacketOk(g, e.p);
    match e
    case Timeout(i) =>
      if n.role != Leader { TimeoutGoesOn(n); }
    case ReceiveVoteRequest(p, open) => VoteRequestGoesOn(n, p.vote, open);
    case SendAppend(i, peer, gap, batch) =>
    case ReceiveAppendRequest(p) =>
      if AppendRequestAllowed(n, p.append) {
        assert n.servers[p.append.serverId] == p.append.serverId;
        AppendRequestGoesOn(n, p.append);
      }
    case ReceiveAppendResponse(p) =>
      PeerKnown(n, p.to, |g.nodes|, p.answer.serverId);
      AppendResponseGoesOn(n, p.answer);
    case ReceivePublish(i, request) => PublishGoesOn(n, request);
    case GiveUp(i, lock) =>
    case LockCommits(i, locked) =>
  }

  /** A ballot is not counted, or ends the count or begins another, or is added to it. */
  lemma BallotGoesOn(n: Node, ballot: VoteResponse)
    requires n.Retains() && Fixed(n) && PeerIndex(n.peers, ballot.serverId) < |n.peers|
    ensures var r := HandlePeerVoteResponse(n, ballot.serverId, ballot).node;
      || GoesOn(n, r)
      || (Counts(n) && ballot.term == n.term && ballot.serverId !in n.election.voted && r == Tally(n, ballot))
  {
    VoteResponseCases(n, ballot);
    if ballot.term == n.term && !n.election.completed && ballot.serverId !in n.election.voted {
      CountedGoesOn(n, ballot);
    }
  }

  lemma CountedGoesOn(n: Node, ballot: VoteResponse)
    requires n.Retains() && Fixed(n) && n.peers != [] && !n.election.completed
    ensures var n1 := Tally(n, ballot);
      && (Counts(n1) ==> Counts(n))
      && (n1.election.preVote ==> GoesOn(n, BecomeCandidate(n1).node))
      && GoesOn(n, BecomeLeader(n1))
  {
    var n1 := Tally(n, ballot);
    TallyEffect(n, ballot);
    BecomeCandidateFixed(n1);
    BecomeLeaderFixed(n1);
  }

  //
  // Every run
  //

  ghost predicate HeardAt(states: seq<Group>, events: seq<Event>, k: nat, i: nat)
    requires |states| == |events| + 1 && k <= |events|
  {
    i < |states[k].nodes| && Counts(states[k].nodes[i]) ==>
      HasHeard(states, events, k, i, states[k].nodes[i].term, states[k].nodes[i].election)
  }

  /** A server that goes on with its count, or begins one, has heard what it counts. */
  lemma HeardGoesOn(states: seq<Group>, events: seq<Event>, k: nat, i: nat)
    requires |states| == |events| + 1 && k < |events| && HeardAt(states, events, k, i)
    requires i < |states[k].nodes| == |states[k + 1].nodes|
    requires GoesOn(states[k].nodes[i], states[k + 1].nodes[i])
    ensures HeardAt(states, events, k + 1, i)
  {
    var n, n' := states[k].nodes[i], states[k + 1].nodes[i];
    if Counts(n') && Counts(n) && n'.term == n.term && n'.election.transients == n.election.transients {
      HeardLater(states, events, k, k + 1, i, n.term, n.election.transients);
    }
  }

  /** While a server counts, every accepted ballot of its term is a real vote that tells. */
  lemma BallotHeard(states: seq<Group>, events: seq<Event>, k: nat, p: Packet)
    requires Run(states, events) && k < |states| && p in states[k].net && p.AnswerVote?
    requires p.to < |states[k].nodes| && Counts(states[k].nodes[p.to])
    requires p.ballot.term == states[k].nodes[p.to].term && p.ballot.accepted
    ensures p.ballot.transientState.Some?
    ensures HeardFrom(states, events, k, p.to, p.ballot.term, (p.ballot.serverId, p.ballot.transientState.value))
  {
    RunInv(states, events, k);
    assert NodeOk(states[k], p.to) && PacketOk(states[k], p);
    var s := BallotOrigin(states, events, k, p);
  }

  /** A counted ballot leaves a count that has been heard. */
  lemma BallotCounted(states: seq<Group>, events: seq<Event>, k: nat, p: Packet)
    requires Run(states, events) && k < |states| && p in states[k].net && p.AnswerVote?
    requires p.to < |states[k].nodes| && Counts(states[k].nodes[p.to]) && HeardAt(states, events, k, p.to)
    requires p.ballot.term == states[k].nodes[p.to].term
    requires p.ballot.serverId !in states[k].nodes[p.to].election.voted
    ensures HasHeard(states, events, k, p.to, p.ballot.term, Tally(states[k].nodes[p.to], p.ballot).election)
  {
    var n := states[k].nodes[p.to];
    if p.ballot.accepted {
      BallotHeard(states, events, k, p);
    }
    TallyHears(n, p.ballot);
    OneMoreHeard(states, events, k, p.to, n, Tally(n, p.ballot).election.transients);
  }

  lemma OneMoreHeard(
    states: seq<Group>, events: seq<Event>, k: nat, i: Id, n: Node, transients: seq<(Id, TransientState)>)
    requires |states| == |events| + 1 && k <= |events|
    requires HeardAll(states, events, k, i, n.term, n.election.transients)
    requires n.election.transients <= transients && |transients| <= |n.election.transients| + 1
    requires |transients| > |n.election.transients| ==>
      HeardFrom(states, events, k, i, n.term, transients[|n.election.transients|])
    ensures HeardAll(states, events, k, i, n.term, transients)
  {
    forall m | 0 <= m < |transients| ensures HeardFrom(states, events, k, i, n.term, transients[m]) {
      if m < |n.election.transients| {
        assert n.election.transients[m] == transients[m];
      }
    }
  }

  lemma BallotStepHears(states: seq<Group>, events: seq<Event>, k: nat)
    requires Run(states, events) && k < |events| && events[k].ReceiveVoteResponse?
    requires Actor(events[k]) < |states[k].nodes| == |states[k + 1].nodes|
    requires HeardAt(states, events, k, Actor(events[k]))
    ensures HeardAt(states, events, k + 1, Actor(events[k]))
  {
    var p := events[k].p;
    var n, n' := states[k].nodes[p.to], states[k + 1].nodes[p.to];
    assert StepAt(states, events, k);
    BallotOfStepGoesOn(states, events, k);
    if GoesOn(n, n') {
      HeardGoesOn(states, events, k, p.to);
    } else {
      BallotCounted(states, events, k, p);
      HeardLater(states, events, k, k + 1, p.to, n.term, n'.election.transients);
    }
  }

  lemma BallotOfStepGoesOn(states: seq<Group>, events: seq<Event>, k: nat)
    requires Run(states, events) && k < |events| && events[k].ReceiveVoteResponse?
    ensures var p := events[k].p;
      && p in states[k].net && p.AnswerVote? && p.to < |states[k].nodes| == |states[k + 1].nodes|
      && var n, n' := states[k].nodes[p.to], states[k + 1].nodes[p.to];
         || GoesOn(n, n')
         || (&& Counts(n) && p.ballot.term == n.term && p.ballot.serverId !in n.election.voted
             && n' == Tally(n, p.ballot))
  {
    RunInv(states, events, k);
    assert StepAt(states, events, k);
    var p := events[k].p;
    assert NodeOk(states[k], p.to) && PacketOk(states[k], p);
    PeerKnown(states[k].nodes[p.to], p.to, |states[k].nodes|, p.ballot.serverId);
    BallotGoesOn(states[k].nodes[p.to], p.ballot);
  }

  lemma OtherStepHears(states: seq<Group>, events: seq<Event>, k: nat)
    requires Run(states, events) && k < |events| && !events[k].ReceiveVoteResponse?
    requires Actor(events[k]) < |states[k].nodes| == |states[k + 1].nodes|
    requires HeardAt(states, events, k, Actor(events[k]))
    ensures HeardAt(states, events, k + 1, Actor(events[k]))
  {
    RunInv(states, events, k);
    assert StepAt(states, events, k);
    OtherStepGoesOn(states[k], events[k], states[k + 1]);
    HeardGoesOn(states, events, k, Actor(events[k]));
  }

  lemma StayedHeard(states: seq<Group>, events: seq<Event>, k: nat, i: nat)
    requires |states| == |events| + 1 && k < |events| && HeardAt(states, events, k, i)
    requires i < |states[k].nodes| == |states[k + 1].nodes| && states[k + 1].nodes[i] == states[k].nodes[i]
    ensures HeardAt(states, events, k + 1, i)
  {
    if Counts(states[k].nodes[i]) {
      HeardLater(states, events, k, k + 1, i, states[k].nodes[i].term, states[k].nodes[i].election.transients);
    }
  }

  /** In any run, whoever counts votes has heard what those that it counts told it. */
  lemma {:induction false} CandidateHasHeard(states: seq<Group>, events: seq<Event>, k: nat, i: nat)
    requires Run(states, events) && k < |states| && i < |states[0].nodes|
    ensures i < |states[k].nodes| == |states[0].nodes| && HeardAt(states, events, k, i)
  {
    RunInv(states, events, k);
    if k > 0 {
      CandidateHasHeard(states, events, k - 1, i);
      StepHears(states, events, k - 1, i);
    } else {
      StartsAsFollower(|states[0].nodes|, i);
    }
  }

  lemma StartsAsFollower(size: nat, i: nat)
    requires i < size
    ensures NewGroup(size).nodes[i].role == Follower
  {}

  lemma StepHears(states: seq<Group>, events: seq<Event>, k: nat, i: nat)
    requires Run(states, events) && k < |events| && i < |states[k].nodes| && HeardAt(states, events, k, i)
    ensures HeardAt(states, events, k + 1, i)
  {
    assert StepAt(states, events, k);
    StepObserved(states[k], events[k], states[k + 1]);
    if i != Actor(events[k]) {
      StayedHeard(states, events, k, i);
    } else if events[k].ReceiveVoteResponse? {
      BallotStepHears(states, events, k);
    } else {
      OtherStepHears(states, events, k);
    }
  }

  //
  // Elections
  //

  lemma {:induction false} TellersCounted(transients: seq<(Id, TransientState)>)
    requires forall a, b :: 0 <= a < b < |transients| ==> transients[a].0 != transients[b].0
    ensures |Tellers(transients)| == |transients|
    decreases |transients|
  {
    if transients != [] {
      var before, last := transients[..|transients| - 1], transients[|transients| - 1];
      TellersCounted(before);
      assert Tellers(transients) == Tellers(before) + {last.0} by {
        forall id | id in Tellers(transients) ensures id in Tellers(before) + {last.0} {
          var m :| 0 <= m < |transients| && transients[m].0 == id;
          assert m < |before| ==> before[m] == transients[m];
        }
        forall id | id in Tellers(before) ensures id in Tellers(transients) {
          var m :| 0 <= m < |before| && before[m].0 == id;
          assert before[m] == transients[m];
        }
        assert transients[|transients| - 1] == last;
      }
      assert last.0 !in Tellers(before);
    }
  }

  /** The server's vote in this step came with what it knew, which the leader now knows. */
  ghost predicate VotedKnowing(
    states: seq<Group>, events: seq<Event>, s: nat, j: nat, i: nat, term: nat, sessions: seq<Session>)
    requires |states| == |events| + 1 && s < |events|
  {
    && j < |states[s].nodes| && KnowsAtLeast(sessions, states[s].nodes[j].sessions)
    && exists state :: TellsIn(states, events, s, j, i, term, state)
  }

  /** A new leader's sessions are made of what it has heard. */
  lemma LeaderSessions(n: Node)
    requires n.Retains() && Fixed(n) && n.peers != []
    ensures exists m: Node :: BecomeLeader(n).sessions == ApplyTransientStates(m, n.election.transients).sessions
  {
    var n1 := CompleteElection(n);
    var n2 := n1.(election := n1.election.(timerStarted := false, transients := []),
                  role := Leader, leaderId := Some(n.id));
    var n3 := ApplyTransientStates(n2, n1.election.transients);
    assert Fixed(n3);
    TakeOverFixed(n3);
    assert BecomeLeader(n).sessions == ApplyTransientStates(n2, n.election.transients).sessions;
  }

  lemma LeaderKnows(
    states: seq<Group>, events: seq<Event>, k: nat, i: nat, n: Node, m: nat)
    requires |states| == |events| + 1 && k <= |events| && n.Retains() && Fixed(n) && n.peers != []
    requires m < |n.election.transients|
    requires HeardFrom(states, events, k, i, n.term, n.election.transients[m])
    ensures exists s: nat {:trigger VotedKnowing(
                                      states, events, s, n.election.transients[m].0, i, n.term,
                                      BecomeLeader(n).sessions)} ::
      && s < k
      && VotedKnowing(states, events, s, n.election.transients[m].0, i, n.term, BecomeLeader(n).sessions)
  {
    var told := n.election.transients[m];
    var s: nat :| s < k && TellsIn(states, events, s, told.0, i, n.term, told.1);
    LeaderSessions(n);
    var before: Node :| BecomeLeader(n).sessions == ApplyTransientStates(before, n.election.transients).sessions;
    HeardKnows(before, n.election.transients, m, states[s].nodes[told.0]);
    assert VotedKnowing(states, events, s, told.0, i, n.term, BecomeLeader(n).sessions);
  }

  /** The winning count: it has been heard, and is that of a majority. */
  ghost predicate WonBy(states: seq<Group>, events: seq<Event>, b: nat, i: nat, n: Node)
    requires |states| == |events| + 1 && b < |events|
  {
    && n.Retains() && Fixed(n) && n.peers != [] && n.id == i
    && i < |states[b + 1].nodes| && states[b + 1].nodes[i] == BecomeLeader(n)
    && n.term == states[b + 1].nodes[i].term
    && HasHeard(states, events, b, i, n.term, n.election)
    && n.election.granted > |states[b].nodes| / 2
  }

  lemma ElectionOfStep(states: seq<Group>, events: seq<Event>, b: nat, i: nat) returns (n: Node)
    requires Run(states, events) && b < |events| && |states[b].nodes| >= 2
    requires Elected(states[b], states[b + 1], i)
    ensures WonBy(states, events, b, i, n)
  {
    RunInv(states, events, b);
    assert StepAt(states, events, b) && NodeOk(states[b], i);
    WonByBallot(states[b], events[b], states[b + 1], i);
    var p := events[b].p;
    ElectingBallot(states[b].nodes[i], p.ballot);
    n := Tally(states[b].nodes[i], p.ballot);
    CandidateHasHeard(states, events, b, i);
    BallotCounted(states, events, b, p);
  }

  /**
   Whoever is elected by votes, in any run of several servers, has heard from servers that are with it a
   strict majority: each voted for it in this term in an earlier step, and what any client's session had
   committed there, the new leader's session of that client has.
   */
  lemma MajorityTold(states: seq<Group>, events: seq<Event>, b: nat, i: nat) returns (quorum: set<nat>)
    requires Run(states, events) && b < |events| && |states[b].nodes| >= 2
    requires Elected(states[b], states[b + 1], i)
    ensures Majority(quorum, |states[b].nodes|) && i in quorum
    ensures var r := states[b + 1].nodes[i];
      forall j :: j in quorum && j != i ==>
        exists s: nat {:trigger VotedKnowing(states, events, s, j, i, r.term, r.sessions)} ::
          s < b && VotedKnowing(states, events, s, j, i, r.term, r.sessions)
  {
    var n := ElectionOfStep(states, events, b, i);
    quorum := MajorityHeard(states, events, b, i, n);
    var r := states[b + 1].nodes[i];
    forall j | j in quorum && j != i
      ensures exists s: nat {:trigger VotedKnowing(states, events, s, j, i, r.term, r.sessions)} ::
        s < b && VotedKnowing(states, events, s, j, i, r.term, r.sessions)
    {
      TellerVoted(states, events, b, i, n, j);
    }
  }

  lemma TellerVoted(states: seq<Group>, events: seq<Event>, b: nat, i: nat, n: Node, j: nat)
    requires |states| == |events| + 1 && b < |events| && WonBy(states, events, b, i, n)
    requires j in Tellers(n.election.transients)
    ensures var r := states[b + 1].nodes[i];
      exists s: nat {:trigger VotedKnowing(states, events, s, j, i, r.term, r.sessions)} ::
        s < b && VotedKnowing(states, events, s, j, i, r.term, r.sessions)
  {
    var m :| 0 <= m < |n.election.transients| && n.election.transients[m].0 == j;
    assert HeardFrom(states, events, b, i, n.term, n.election.transients[m]);
    LeaderKnows(states, events, b, i, n, m);
  }

  lemma MajorityHeard(states: seq<Group>, events: seq<Event>, b: nat, i: nat, n: Node) returns (quorum: set<nat>)
    requires Run(states, events) && b < |events| && WonBy(states, events, b, i, n)
    ensures Majority(quorum, |states[b].nodes|) && quorum == {i} + Tellers(n.election.transients)
  {
    var tellers := Tellers(n.election.transients);
    RunInv(states, events, b);
    RunInv(states, events, b + 1);
    forall j | j in tellers ensures j < |states[b].nodes| && j != i {
      var m :| 0 <= m < |n.election.transients| && n.election.transients[m].0 == j;
      TellerIsServer(states, events, b, i, n.term, n.election.transients[m]);
    }
    TellersCounted(n.election.transients);
    MajorityWith(i, tellers, |states[b].nodes|);
    quorum := {i} + tellers;
  }

  lemma MajorityWith(i: nat, others: set<nat>, size: nat)
    requires i < size && (forall j :: j in others ==> j < size && j != i) && |others| + 1 > size / 2
    ensures Majority({i} + others, size)
  {
    assert i !in others && |{i} + others| == 1 + |others|;
  }

  lemma TellerIsServer(
    states: seq<Group>, events: seq<Event>, k: nat, i: Id, term: nat, told: (Id, TransientState))
    requires Run(states, events) && k <= |events| && HeardFrom(states, events, k, i, term, told)
    ensures told.0 < |states[k].nodes| && told.0 != i
  {
    var s: nat :| s < k && TellsIn(states, events, s, told.0, i, term, told.1);
    RunInv(states, events, s);
    RunInv(states, events, k);
  }

  /** Among others, only a ballot makes a counting server leader. */
  lemma WonByBallot(g: Group, e: Event, g': Group, i: nat)
    requires AlwaysInv(g) && Step(g, e, g') && Elected(g, g', i) && |g.nodes| >= 2 && NodeOk(g, i)
    ensures e.ReceiveVoteResponse? && e.p in g.net && e.p.AnswerVote? && e.p.to == i
    ensures g'.nodes[i] == HandlePeerVoteResponse(g.nodes[i], e.p.ballot.serverId, e.p.ballot).node
    ensures PeerIndex(g.nodes[i].peers, e.p.ballot.serverId) < |g.nodes[i].peers|
  {
    StepObserved(g, e, g');
    assert i == Actor(e);
    if e.ReceiveVoteResponse? {
      assert PacketOk(g, e.p);
      PeerKnown(g.nodes[i], i, |g.nodes|, e.p.ballot.serverId);
    } else {
      OtherStepGoesOn(g, e, g');
    }
  }

  /** The ballot that elects a server is one of its term from a server not heard from, and decides. */
  lemma ElectingBallot(n: Node, ballot: VoteResponse)
    requires n.Retains() && Fixed(n) && n.peers != [] && PeerIndex(n.peers, ballot.serverId) < |n.peers|
    requires n.role != Leader && VotePhase(n)
    requires HandlePeerVoteResponse(n, ballot.serverId, ballot).node.role == Leader
    ensures Counts(n) && ballot.term == n.term && ballot.serverId !in n.election.voted
    ensures var n1 := Tally(n, ballot);
      && n1.election.granted > (|n.peers| + 1) / 2 && n1.Retains() && Fixed(n1)
      && HandlePeerVoteResponse(n, ballot.serverId, ballot).node == BecomeLeader(n1)
      && BecomeLeader(n1).term == n.term
  {
    VoteResponseCases(n, ballot);
    if ballot.term == n.term && !n.election.completed && ballot.serverId !in n.election.voted {
      var n1 := Tally(n, ballot);
      TallyEffect(n, ballot);
      BecomeCandidateFixed(n1);
      BecomeLeaderFixed(n1);
    }
  }
}
