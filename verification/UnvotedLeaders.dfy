/**
 Leaders that nobody voted for, and what they cost: exactly when a vote response elects a server, when
 such an election rests on votes, and a run in which two servers lead the same term.
 */
module UnvotedLeaders {
  import opened Types
  import opened Log
  import opened Handlers
  import opened NodeFacts
  import opened Group
  import opened Safety

  /** The response gives the server more than half of the answers it waits for. */
  predicate Decides(n: Node, response: VoteResponse) {
    && !n.election.completed
    && response.serverId !in n.election.voted
    && n.election.granted + (if response.accepted then 1 else 0) > (|n.peers| + 1) / 2
  }

  /** The response is the last one the server waits for. */
  predicate LastAnswer(n: Node) {
    |n.election.voted| >= |n.peers|
  }

  /**
   A deciding response elects the server at once, unless it decides a round of pre-votes in which
   further answers are missing.
   */
  lemma ElectsExactly(n: Node, response: VoteResponse)
    requires n.Retains() && Fixed(n) && n.role != Leader && n.peers != []
    ensures HandleVoteResponse(n, response).node.role == Leader
      <==> Decides(n, response) && (n.election.preVote ==> LastAnswer(n))
  {
    var n1 := Tally(n, response);
    if !n.election.completed {
      TallyEffect(n, response);
    }
    if Decides(n, response) {
      DecidedExactly(n1);
    }
  }

  lemma DecidedExactly(n: Node)
    requires n.Retains() && Fixed(n) && n.role != Leader && n.peers != []
    ensures BecomeLeader(n).role == Leader
    ensures BecomeCandidate(n).node.role == Candidate
  {
    BecomeLeaderFixed(n);
    BecomeCandidateFixed(n);
  }

  /**
   The election rests on no vote exactly when the last answer to a round of pre-votes decides it, or
   the server has gone back to follower since it asked.
   */
  lemma UnvotedExactly(n: Node, response: VoteResponse)
    requires n.Retains() && Fixed(n) && n.role != Leader && n.peers != []
    ensures HandleVoteResponse(n, response).node.role == Leader && !VotePhase(n)
      <==> Decides(n, response)
           && (if n.election.preVote then LastAnswer(n) else n.role == Follower)
  {
    ElectsExactly(n, response);
  }

  //
  // Two leaders in one term
  //

  function PreVoteOf(id: Id): VoteRequest {
    VoteRequest(id, 0, 0, 0, true)
  }

  function Granted(id: Id): VoteResponse {
    VoteResponse(id, true, 0, None)
  }

  /** A server of a pair, at its first timeout. */
  function Asking(id: Id): Node
    requires id < 2
  {
    Started(id, Ids(2)).(election := Election([id], 1, false, true, true, false, []))
  }

  lemma PairOf(id: Id)
    requires id < 2
    ensures Started(id, Ids(2))
      == Node(id, [0, 1], 0, None, 0, Follower, None, [Peer(1 - id, 1, 0, 1, false)], 0, false, false,
              Election([], 0, false, false, true, false, []), false, false, [], Log(1, []), [])
  {
    assert Ids(2) == [0, 1];
    assert [0, 1][1..] == [1] && [1][1..] == [];
  }

  lemma PairTimesOut(id: Id)
    requires id < 2
    ensures RequestElection(Started(id, Ids(2))) == Effect(Asking(id), Some(PreVoteOf(id)))
  {
    PairOf(id);
    assert [] + [id] == [id];
  }

  /** Neither asks more of the other than to be open to it. */
  lemma PairAnswers(id: Id)
    requires id < 2
    ensures Asking(id).Retains()
    ensures HandleVoteRequest(Asking(id), PreVoteOf(1 - id), true) == (Asking(id), Granted(id))
  {
    PairOf(id);
  }

  lemma PairElected(id: Id)
    requires id < 2
    ensures Asking(id).Retains()
    ensures var n := HandlePeerVoteResponse(Asking(id), 1 - id, Granted(1 - id)).node;
      n.role == Leader && n.term == 0
  {
    PairOf(id);
    var n, response := Asking(id), Granted(1 - id);
    assert PeerIndex(n.peers, 1 - id) == 0;
    ElectsExactly(n, response);
    var n1 := Tally(n, response);
    TallyEffect(n, response);
    BecomeLeaderFixed(n1);
  }

  lemma SentToOther(id: Id)
    requires id < 2
    ensures ToAll(Started(id, Ids(2)).peers, Some(PreVoteOf(id))) == {AskVote(1 - id, PreVoteOf(id))}
  {
    PairOf(id);
    assert Started(id, Ids(2)).peers[0].id == 1 - id;
  }

  /** Nothing but this server's state has changed, and nothing was taken from the network. */
  predicate OnlyAt(g: Group, g': Group, id: Id) {
    && |g.nodes| == |g'.nodes| == 2 && id < 2
    && g'.nodes[1 - id] == g.nodes[1 - id]
    && g.net <= g'.net
    && g.aborts == g'.aborts == {}
  }

  /** The run goes on with one more event. */
  lemma Continued(states: seq<Group>, events: seq<Event>, e: Event)
    requires Run(states, events) && Enabled(states[|events|], e)
    ensures Run(states + [Next(states[|events|], e)], events + [e])
  {
    var states', events' := states + [Next(states[|events|], e)], events + [e];
    forall k: nat | k < |events'| ensures StepAt(states', events', k) {
      if k < |events| {
        assert StepAt(states, events, k);
      }
    }
  }

  lemma TimesOut(states: seq<Group>, events: seq<Event>, id: Id) returns (g: Group)
    requires Run(states, events) && |states[|events|].nodes| == 2 && states[|events|].aborts == {}
    requires id < 2 && states[|events|].nodes[id] == Started(id, Ids(2))
    ensures Run(states + [g], events + [Timeout(id)])
    ensures OnlyAt(states[|events|], g, id) && g.nodes[id] == Asking(id)
    ensures AskVote(1 - id, PreVoteOf(id)) in g.net
  {
    PairTimesOut(id);
    SentToOther(id);
    Continued(states, events, Timeout(id));
    g := Next(states[|events|], Timeout(id));
  }

  lemma Answers(states: seq<Group>, events: seq<Event>, id: Id) returns (g: Group)
    requires Run(states, events) && |states[|events|].nodes| == 2 && states[|events|].aborts == {}
    requires id < 2 && states[|events|].nodes[id] == Asking(id)
    requires AskVote(id, PreVoteOf(1 - id)) in states[|events|].net
    ensures Run(states + [g],
                events + [ReceiveVoteRequest(AskVote(id, PreVoteOf(1 - id)), true)])
    ensures OnlyAt(states[|events|], g, id) && g.nodes[id] == Asking(id)
    ensures AnswerVote(1 - id, Granted(id)) in g.net
  {
    PairAnswers(id);
    var e := ReceiveVoteRequest(AskVote(id, PreVoteOf(1 - id)), true);
    Continued(states, events, e);
    g := Next(states[|events|], e);
  }

  lemma HearsAnswer(states: seq<Group>, events: seq<Event>, id: Id) returns (g: Group)
    requires Run(states, events) && |states[|events|].nodes| == 2 && states[|events|].aborts == {}
    requires id < 2 && states[|events|].nodes[id] == Asking(id)
    requires AnswerVote(id, Granted(1 - id)) in states[|events|].net
    ensures Run(states + [g], events + [ReceiveVoteResponse(AnswerVote(id, Granted(1 - id)))])
    ensures OnlyAt(states[|events|], g, id)
    ensures g.nodes[id].role == Leader && g.nodes[id].term == 0
  {
    PairElected(id);
    var e := ReceiveVoteResponse(AnswerVote(id, Granted(1 - id)));
    Continued(states, events, e);
    g := Next(states[|events|], e);
  }

  /**
   Without restriction, a term can have two leaders: both servers of a pair time out, each answers the
   other, and each hears the answer.
   */
  lemma TwoLeadersInOneTerm() returns (states: seq<Group>, events: seq<Event>, last: Group)
    ensures Run(states, events) && |events| == 6 && states[6] == last
    ensures |last.nodes| == 2
    ensures last.nodes[0].role == last.nodes[1].role == Leader
    ensures last.nodes[0].term == last.nodes[1].term
  {
    states, events := BothAnswered();
    var g5 := HearsAnswer(states, events, 0);
    states, events := states + [g5], events + [ReceiveVoteResponse(AnswerVote(0, Granted(1)))];
    last := HearsAnswer(states, events, 1);
    states, events := states + [last], events + [ReceiveVoteResponse(AnswerVote(1, Granted(0)))];
  }

  /** Both servers of a pair have asked, and both have been answered. */
  lemma BothAnswered() returns (states: seq<Group>, events: seq<Event>)
    ensures Run(states, events) && |events| == 4 && |states[4].nodes| == 2 && states[4].aborts == {}
    ensures states[4].nodes[0] == Asking(0) && states[4].nodes[1] == Asking(1)
    ensures AnswerVote(0, Granted(1)) in states[4].net && AnswerVote(1, Granted(0)) in states[4].net
  {
    states, events := BothAsked();
    var g3 := Answers(states, events, 1);
    states, events := states + [g3], events + [ReceiveVoteRequest(AskVote(1, PreVoteOf(0)), true)];
    var g4 := Answers(states, events, 0);
    states, events := states + [g4], events + [ReceiveVoteRequest(AskVote(0, PreVoteOf(1)), true)];
  }

  /** Both servers of a pair have timed out. */
  lemma BothAsked() returns (states: seq<Group>, events: seq<Event>)
    ensures Run(states, events) && |events| == 2 && |states[2].nodes| == 2 && states[2].aborts == {}
    ensures states[2].nodes[0] == Asking(0) && states[2].nodes[1] == Asking(1)
    ensures AskVote(1, PreVoteOf(0)) in states[2].net && AskVote(0, PreVoteOf(1)) in states[2].net
  {
    var g0 := NewGroup(2);
    states, events := [g0], [];
    var g1 := TimesOut(states, events, 0);
    states, events := states + [g1], events + [Timeout(0)];
    var g2 := TimesOut(states, events, 1);
    states, events := states + [g2], events + [Timeout(1)];
  }
}
