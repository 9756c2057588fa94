/**
 A run that shows why a leader must find one pending configuration at most: it takes over two, goes over
 to the later one, and back to the former one when it commits that.
 */
module TwoChanges {
  import opened Types
  import opened Log
  import opened Handlers
  import opened NodeFacts
  import opened HandedOver
  import Merges
  import opened ServerRuns
  import opened Configurations
  import opened Changes

  function Text(): Entry {
    Entry(1, Application([]), None, 0)
  }

  function Former(): Entry {
    Entry(1, Configuration([0, 1, 2], 3), None, 0)
  }

  function Later(): Entry {
    Entry(1, Configuration([0, 1, 2, 3], 4), None, 0)
  }

  /** Server 1 with both configurations in its log, and neither committed. */
  predicate Holding(n: Node, term: nat, role: Role, servers: seq<Id>, peers: seq<Peer>) {
    && n.id == 1 && n.term == term && n.role == role && n.servers == servers && n.peers == peers
    && n.log == Log(1, [Text(), Former(), Later()]) && n.commitIndex == n.quickCommit == 1
    && !n.commitsLocked && !n.catchingUp && !n.transferring && !n.election.locked && !n.election.completed
  }

  function Two(): seq<Peer> {
    [Peer(0, 1, 0, 1, false), Peer(2, 1, 0, 1, false)]
  }

  //
  // It gets the entries
  //

  function Both(): AppendRequest {
    AppendRequest(0, 1, 0, 0, 1, [Text(), Former(), Later()], None)
  }

  lemma StartIs()
    ensures Started(1, [0, 1, 2]).peers == Two()
  {
    assert [0, 1, 2][1..] == [1, 2] && [1, 2][1..] == [2] && [2][1..] == [];
    assert InitialPeers([2], 1) == [Peer(2, 1, 0, 1, false)];
    assert InitialPeers([1, 2], 1) == [Peer(2, 1, 0, 1, false)];
  }

  /** The same server before it has the entries. */
  predicate Waiting(n: Node, term: nat) {
    && n.id == 1 && n.term == term && n.role == Follower && n.servers == [0, 1, 2] && n.peers == Two()
    && n.log == Log(1, []) && n.commitIndex == n.quickCommit == 0
    && !n.commitsLocked && !n.catchingUp && !n.transferring && !n.election.locked && !n.election.completed
  }

  lemma Acknowledges(n: Node)
    requires Waiting(n, 0)
    ensures Waiting(Acknowledge(n, Both()), 1)
  {
    assert StopPeers(Two()) == Two();
  }

  lemma Takes(n: Node)
    requires Waiting(n, 1)
    ensures Holding(Commit(TakeEntries(n, Both()), 1), 1, Follower, [0, 1, 2], Two())
  {
    var n1 := TakeEntries(n, Both());
    Merges.MergeCases(n.log, 1, Both().entries, 0);
    assert n1.log.entries == Both().entries;
    CommitsText(n1);
  }

  lemma Gets(n: Node) returns (r: Node)
    requires Waiting(n, 0)
    ensures n.Retains() && AppendRequestAllowed(n, Both()) && r == HandleAppendRequest(n, Both()).0
    ensures Holding(r, 1, Follower, [0, 1, 2], Two())
  {
    Acknowledges(n);
    AcknowledgedReplicates(n, Both());
    ReplicateAccepts(Acknowledge(n, Both()), Both());
    Takes(Acknowledge(n, Both()));
    r := HandleAppendRequest(n, Both()).0;
  }

  lemma CommitsText(n: Node)
    requires n.log == Log(1, [Text(), Former(), Later()]) && n.commitIndex == n.quickCommit == 0
    requires !n.commitsLocked
    ensures var r := Commit(n, 1);
      r == n.(commitIndex := 1, quickCommit := 1, machine := r.machine, sessions := r.sessions)
  {
    var n1 := n.(quickCommit := 1);
    assert CommitEntries(n1) == CommitNext(n1);
  }

  //
  // It is elected
  //

  predicate Asking(n: Node, preVote: bool) {
    n.election.voted == [1] && n.election.granted == 1 && n.election.preVote == preVote
  }

  lemma Asks(n: Node) returns (r: Node)
    requires Holding(n, 1, Follower, [0, 1, 2], Two())
    ensures r == RequestElection(n).node && Holding(r, 1, Follower, [0, 1, 2], Two()) && Asking(r, true)
  {
    r := RequestElection(n).node;
    assert [] + [n.id] == [1];
  }

  function Yes(term: nat): VoteResponse {
    VoteResponse(0, true, term, None)
  }

  lemma Counts(n: Node, preVote: bool) returns (r: Node)
    requires n.id == 1 && n.peers == Two() && Asking(n, preVote) && !n.election.completed
    ensures r == Tally(n, Yes(n.term)) && r == n.(election := r.election)
    ensures r.election.granted == 2 && r.election.preVote == preVote && !r.election.completed
    ensures r.election.locked == n.election.locked
    ensures n.Retains() ==>
      HandlePeerVoteResponse(n, 0, Yes(n.term)).node
      == if preVote then BecomeCandidate(r).node else BecomeLeader(r)
  {
    r := Tally(n, Yes(n.term));
  }

  lemma Stands(n: Node) returns (r: Node)
    requires Holding(n, 1, Follower, [0, 1, 2], Two()) && Asking(n, true)
    ensures r == HandlePeerVoteResponse(n, 0, Yes(1)).node
    ensures Holding(r, 2, Candidate, [0, 1, 2], Two()) && Asking(r, false)
  {
    var n1 := Counts(n, true);
    r := BecomeCandidate(n1).node;
    assert [] + [n.id] == [1];
  }

  /** The peers of a leader that has gone over to the later configuration, with what they matched. */
  function Three(first: Peer, second: Peer): seq<Peer> {
    [first, second, Peer(3, 4, 0, 1, true)]
  }

  predicate Leading(n: Node, servers: seq<Id>, first: Peer, second: Peer) {
    && n.id == 1 && n.term == 2 && n.role == Leader && n.servers == servers
    && n.peers == Three(first, second)
    && n.log == Log(1, [Text(), Former(), Later()]) && n.commitIndex == n.quickCommit == 1
    && !n.commitsLocked && !n.catchingUp
  }

  function Fresh(id: Id): Peer {
    Peer(id, 4, 0, 1, true)
  }

  function Reached(id: Id): Peer {
    Peer(id, 3, 2, 1, true)
  }

  lemma StartsPeers()
    ensures StartPeers(Two(), 4) == [Fresh(0), Fresh(2)]
  {
    assert Two()[1..] == [Peer(2, 1, 0, 1, false)];
    assert [Peer(2, 1, 0, 1, false)][1..] == [];
  }

  lemma NewPeer()
    ensures Missing([0, 1, 2, 3], [0, 1, 2]) == [3] && Missing([0, 1, 2], [0, 1, 2, 3]) == []
    ensures AddPeers([Fresh(0), Fresh(2)], [3], 1, 4, true) == Three(Fresh(0), Fresh(2))
  {
    assert [0, 1, 2, 3][1..] == [1, 2, 3] && [1, 2, 3][1..] == [2, 3] && [2, 3][1..] == [3] && [3][1..] == [];
    assert [0, 1, 2][1..] == [1, 2] && [1, 2][1..] == [2] && [2][1..] == [];
    assert Missing([2, 3], [0, 1, 2]) == [3] && Missing([1, 2, 3], [0, 1, 2]) == [3];
    assert Missing([1, 2], [0, 1, 2, 3]) == [];
  }

  lemma GoesOver(n: Node)
    requires n.id == 1 && n.role == Leader && n.servers == [0, 1, 2] && n.peers == [Fresh(0), Fresh(2)]
    requires n.log == Log(1, [Text(), Former(), Later()]) && !n.catchingUp
    ensures var r := DetectConfigurations(n, 2);
      r == n.(servers := [0, 1, 2, 3], peers := Three(Fresh(0), Fresh(2)), configurationChanging := true)
  {
    ReconfigureSame(n);
    var n1 := n.(configurationChanging := true);
    assert DetectConfigurations(n, 2) == DetectConfigurations(n1, 3);
    NewPeer();
    var n2 := n.(servers := [0, 1, 2, 3], peers := Three(Fresh(0), Fresh(2)), configurationChanging := true);
    assert Reconfigure(n1, [0, 1, 2, 3]).(configurationChanging := true) == n2;
    assert DetectConfigurations(n1, 3) == DetectConfigurations(n2, 4);
  }

  lemma Leads(n: Node) returns (r: Node)
    requires Holding(n.(election := n.election.(completed := false)), 2, Candidate, [0, 1, 2], Two())
    ensures r == BecomeLeader(n) && Leading(r, [0, 1, 2, 3], Fresh(0), Fresh(2))
  {
    r := BecomeLeader(n);
    var n1 := CompleteElection(n);
    var n2 := n1.(election := n1.election.(timerStarted := false, transients := []),
                  role := Leader, leaderId := Some(n.id));
    var n3 := ApplyTransientStates(n2, n1.election.transients);
    StartsPeers();
    GoesOver(n3.(peers := StartPeers(n3.peers, 4)));
  }

  lemma Wins(n: Node) returns (r: Node)
    requires Holding(n, 2, Candidate, [0, 1, 2], Two()) && Asking(n, false)
    ensures r == HandlePeerVoteResponse(n, 0, Yes(2)).node
    ensures Leading(r, [0, 1, 2, 3], Fresh(0), Fresh(2))
  {
    var n1 := Counts(n, false);
    r := Leads(n1);
  }

  //
  // It commits the former
  //

  function Took(id: Id): AppendResponse {
    AppendResponse(id, true, 2, 3, false)
  }

  lemma MiddleIs(second: nat, middle: nat)
    requires (second == 0 && middle == 0) || (second == 2 && middle == 2)
    ensures Median([3, 2, second, 0]) == middle
  {
    assert Descending([0]) == [0];
    assert [second, 0][1..] == [0] && Descending([second, 0]) == [second, 0];
    assert [2, second, 0][1..] == [second, 0] && Descending([2, second, 0]) == [2, second, 0];
    assert [3, 2, second, 0][1..] == [2, second, 0];
  }

  lemma ReachedAre(n: Node, first: Peer, second: Peer)
    requires n.peers == Three(first, second) && n.log.End() == 4
    ensures Handlers.Reached(n) == [3, first.matched, second.matched, 0]
  {
    assert n.peers[1..] == [second, Peer(3, 4, 0, 1, true)];
    assert n.peers[1..][1..] == [Peer(3, 4, 0, 1, true)] && n.peers[1..][1..][1..] == [];
  }

  lemma Hears(n: Node, i: nat, n1: Node)
    requires Leading(n, [0, 1, 2, 3], if i == 0 then Fresh(0) else Reached(0), Fresh(2)) && i < 2
    requires n1 == n.(peers := Three(Reached(0), if i == 0 then Fresh(2) else Reached(2)))
    ensures HandlePeerAppendResponse(n, 2 * i, Took(2 * i)).0 == Commit(n1, 2 * i)
  {
    assert PeerIndex(n.peers, 2 * i) == i;
    assert n.peers[i := Reached(2 * i)] == n1.peers;
    ResponseAccepted(n, Took(2 * i), i, n1);
    ReachedAre(n1, n1.peers[0], n1.peers[1]);
    MiddleIs(2 * i, 2 * i);
  }

  lemma HearsFirst(n: Node) returns (r: Node)
    requires Leading(n, [0, 1, 2, 3], Fresh(0), Fresh(2))
    ensures r == HandlePeerAppendResponse(n, 0, Took(0)).0
    ensures Leading(r, [0, 1, 2, 3], Reached(0), Fresh(2))
  {
    r := n.(peers := Three(Reached(0), Fresh(2)));
    Hears(n, 0, r);
    assert Commit(r, 0) == r;
  }

  lemma CommitsFormer(n: Node)
    requires Leading(n, [0, 1, 2, 3], Reached(0), Reached(2))
    ensures var r := Commit(n, 2);
      r.role == Leader && r.servers == [0, 1, 2] && Pending(r) == [Later()]
  {
    var r := Commit(n, 2);
    CommitHands(n, 2);
    CommitKeepsTerm(n, 2);
    CommitGoesOver(n, 2);
    OneCommitted(n, r);
    LastServersOne(Former());
  }

  lemma OneCommitted(n: Node, r: Node)
    requires n.log == r.log == Log(1, [Text(), Former(), Later()]) && n.commitIndex == 1 && r.commitIndex == 2
    ensures Committed(n, r) == [Former()] && Pending(r) == [Later()]
  {}

  lemma HearsSecond(n: Node) returns (r: Node)
    requires Leading(n, [0, 1, 2, 3], Reached(0), Fresh(2))
    ensures r == HandlePeerAppendResponse(n, 2, Took(2)).0
    ensures r.role == Leader && r.servers == [0, 1, 2] && Pending(r) == [Later()]
  {
    var n1 := n.(peers := Three(Reached(0), Reached(2)));
    Hears(n, 1, n1);
    CommitsFormer(n1);
    r := Commit(n1, 2);
  }

  //
  // The run
  //

  lemma OneMore(ns: seq<Node>, events: seq<Event>, e: Event, r: Node)
    returns (ns': seq<Node>, events': seq<Event>)
    requires Run(ns, events) && Goes(ns[|events|], e, r)
    ensures Run(ns', events') && |events'| == |events| + 1
    ensures ns'[|events|] == ns[|events|] && ns'[|events'|] == r
  {
    ns', events' := ns + [r], events + [e];
    forall k: nat | k < |events'| ensures NextAt(ns', events', k) {
      if k < |events| {
        assert NextAt(ns, events, k);
      }
    }
  }

  lemma Begins() returns (n: Node)
    ensures Run([n], []) && Waiting(n, 0)
  {
    n := Started(1, [0, 1, 2]);
    StartIs();
  }

  lemma HasGot() returns (ns: seq<Node>, events: seq<Event>)
    ensures Run(ns, events) && |events| == 1 && Holding(ns[1], 1, Follower, [0, 1, 2], Two())
  {
    var n := Begins();
    var r := Gets(n);
    AppendGoes(n, Both());
    ns, events := OneMore([n], [], AppendAsked(Both()), r);
  }

  lemma AppendGoes(n: Node, request: AppendRequest)
    requires n.Retains() && AppendRequestAllowed(n, request)
    ensures Goes(n, AppendAsked(request), HandleAppendRequest(n, request).0)
  {}

  lemma HasAsked() returns (ns: seq<Node>, events: seq<Event>)
    ensures Run(ns, events) && |events| == 2
    ensures Holding(ns[2], 1, Follower, [0, 1, 2], Two()) && Asking(ns[2], true)
  {
    ns, events := HasGot();
    var r := Asks(ns[1]);
    assert Goes(ns[1], Timeout, r);
    ns, events := OneMore(ns, events, Timeout, r);
  }

  lemma IsCandidate() returns (ns: seq<Node>, events: seq<Event>)
    ensures Run(ns, events) && |events| == 3
    ensures Holding(ns[3], 2, Candidate, [0, 1, 2], Two()) && Asking(ns[3], false)
  {
    ns, events := HasAsked();
    var r := Stands(ns[2]);
    assert Goes(ns[2], VoteAnswered(0, Yes(1)), r);
    ns, events := OneMore(ns, events, VoteAnswered(0, Yes(1)), r);
  }

  lemma IsLeader() returns (ns: seq<Node>, events: seq<Event>)
    ensures Run(ns, events) && |events| == 4 && Leading(ns[4], [0, 1, 2, 3], Fresh(0), Fresh(2))
  {
    ns, events := IsCandidate();
    var r := Wins(ns[3]);
    assert Goes(ns[3], VoteAnswered(0, Yes(2)), r);
    ns, events := OneMore(ns, events, VoteAnswered(0, Yes(2)), r);
  }

  lemma HasHeard() returns (ns: seq<Node>, events: seq<Event>)
    ensures Run(ns, events) && |events| == 5 && Leading(ns[5], [0, 1, 2, 3], Reached(0), Fresh(2))
  {
    ns, events := IsLeader();
    var r := HearsFirst(ns[4]);
    assert Goes(ns[4], AppendAnswered(0, Took(0)), r);
    ns, events := OneMore(ns, events, AppendAnswered(0, Took(0)), r);
  }

  /**
   A run of a server that takes over two pending configurations. It is the leader of four servers, and
   when it commits the former configuration the leader of three, while its log holds the later one.
   */
  lemma FormerComesBack() returns (ns: seq<Node>, events: seq<Event>)
    ensures Run(ns, events) && |events| == 6
    ensures ns[5].role == ns[6].role == Leader && ns[5].servers == [0, 1, 2, 3]
    ensures ns[6].servers == [0, 1, 2] && Pending(ns[6]) == [Later()] && !InForce(ns[6])
  {
    ns, events := HasHeard();
    var r := HearsSecond(ns[5]);
    assert Goes(ns[5], AppendAnswered(2, Took(2)), r);
    ns, events := OneMore(ns, events, AppendAnswered(2, Took(2)), r);
    LastServersOne(Later());
  }
}
